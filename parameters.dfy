/**
 * The configuration of one energy smearer (`EnergySmearer::energySmearingParameters`)
 * and the consistency checks its constructor applies to it.
 */
module Parameters {
  import opened Categories

  /** Per-category tables are keyed by category name.  The scale offset and the smearing
      sigmas are relative values. */
  datatype Parameters = Parameters(
    nCategories: int,
    byRun: bool,
    etStochastic: bool,
    categoryType: string,
    parameterSetName: string,
    scaleOffset: map<string, real>,
    scaleOffsetError: map<string, real>,
    scaleStochasticOffset: map<string, real>,
    scaleStochasticOffsetError: map<string, real>,
    scaleStochasticPivot: map<string, real>,
    scaleStochasticPivotError: map<string, real>,
    smearingSigma: map<string, real>,
    smearingStochasticSigma: map<string, real>,
    smearingSigmaError: map<string, real>,
    smearingStochasticSigmaError: map<string, real>,
    // reference point of the stochastic-term extrapolation (rho/phi encoding)
    smearingStochasticPivot: map<string, real>,
    photonCategories: seq<PhotonCategory>,
    scaleOffsetByRun: seq<RunRange>,
    efficiencyFile: string,
    // the error of the MC-based correction, as a fraction of the correction
    corrRelErr: real)

  /** A freshly constructed parameter set: `etStocastic` is on, both names and the
      efficiency file are empty, and every table is empty.  The scalar members the default
      constructor leaves uninitialised (`n_categories`, `byRun`, `corrRelErr`) are inputs here. */
  function DefaultParameters(nCategories: int, byRun: bool, corrRelErr: real): (p: Parameters)
    ensures p.etStochastic
    ensures p.nCategories == nCategories && p.byRun == byRun && p.corrRelErr == corrRelErr
    ensures p.categoryType == "" && p.parameterSetName == "" && p.efficiencyFile == ""
    ensures p.photonCategories == [] && p.scaleOffsetByRun == []
    ensures p.scaleOffset == map[] && p.scaleOffsetError == map[]
    ensures p.scaleStochasticOffset == map[] && p.scaleStochasticOffsetError == map[]
    ensures p.scaleStochasticPivot == map[] && p.scaleStochasticPivotError == map[]
    ensures p.smearingSigma == map[] && p.smearingSigmaError == map[]
    ensures p.smearingStochasticSigma == map[] && p.smearingStochasticSigmaError == map[]
    ensures p.smearingStochasticPivot == map[]
  {
    Parameters(nCategories, byRun, true, "", "",
               map[], map[], map[], map[], map[], map[],
               map[], map[], map[], map[], map[],
               [], [], "", corrRelErr)
  }

  /** A default parameter set fails the constructor's checks until it is given a scheme:
      the empty scheme name is not one the constructor accepts. */
  lemma DefaultParametersNeedAScheme(nCategories: int, byRun: bool, corrRelErr: real)
    ensures !ValidParameters(DefaultParameters(nCategories, byRun, corrRelErr))
  {
  }

  /** The category schemes the constructor accepts, each with the category count it demands. */
  predicate KnownScheme(p: Parameters) {
    || (p.categoryType == "EBEE" && p.nCategories == 2)
    || (p.categoryType == "2CatR9_EBEE" && p.nCategories == 4)
    || (p.categoryType == "2CatR9_EBEE_ByRun" && p.nCategories == 4)
    || (p.categoryType == "2CatR9_EBEBm4EE" && p.nCategories == 6)
    || (p.categoryType == "2CatR9_EBEBm4EE_ByRun" && p.nCategories == 6)
    || (p.categoryType == "Automagic" && (p.byRun || p.nCategories == |p.photonCategories|))
  }

  /** The automatic scheme takes its category count from its category list. */
  function Normalize(p: Parameters): (q: Parameters)
    ensures p.categoryType == "Automagic" ==> q.nCategories == |p.photonCategories|
    ensures p.categoryType != "Automagic" ==> q == p
    ensures q == p.(nCategories := q.nCategories)
  {
    if p.categoryType == "Automagic" then p.(nCategories := |p.photonCategories|) else p
  }

  /** The scale tables (run-dependent or global) hold exactly the declared number of categories. */
  predicate ScaleTablesSized(p: Parameters) {
    if p.byRun then
      forall i :: 0 <= i < |p.scaleOffsetByRun| ==>
        p.nCategories == |p.scaleOffsetByRun[i].scaleOffset| &&
        p.nCategories == |p.scaleOffsetByRun[i].scaleOffsetError|
    else
      p.nCategories == |p.scaleOffset| && p.nCategories == |p.scaleOffsetError|
  }

  /** Every check of the constructor: the sigma tables have the declared size unless
      run-dependent, the scheme is known with its count, and, after the automatic scheme
      has adopted its list's size, the scale tables have that size. */
  predicate ValidParameters(p: Parameters) {
    && (p.byRun || p.nCategories == |p.smearingSigma|)
    && (p.byRun || p.nCategories == |p.smearingSigmaError|)
    && KnownScheme(p)
    && ScaleTablesSized(Normalize(p))
  }

  /** Normalising a valid parameter set keeps it valid and is idempotent, so the object
      invariant of a constructed smearer holds of its stored parameters. */
  lemma NormalizeKeepsValid(p: Parameters)
    requires ValidParameters(p)
    ensures ValidParameters(Normalize(p))
    ensures Normalize(Normalize(p)) == Normalize(p)
  {
  }

  /** A global-table Automagic configuration must list exactly as many categories as its
      sigma tables hold. */
  lemma AutomagicSizesAgree(p: Parameters)
    requires ValidParameters(p) && p.categoryType == "Automagic" && !p.byRun
    ensures |p.photonCategories| == |p.smearingSigma| == |p.scaleOffset| == |p.scaleOffsetError|
  {
  }
}
