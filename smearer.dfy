/**
 * The photon energy smearer (`EnergySmearer`): configuration flags, the per-engine
 * generator and the one-shot recompute flag, and `smearPhoton`, which rescales, smears or
 * corrects one photon's energy and optionally sets an efficiency weight.
 */
module Smearing {
  import opened Wrappers
  import opened Numerics
  import opened Categories
  import opened Parameters
  import opened Photons
  import opened Classification
  import opened Resolution
  import opened Efficiency

  /** What `smearPhoton` ends with: a returned boolean, or one of the source's fatal
      assertions (no automatic category, or a zero energy). */
  datatype SmearResult = Returned(ok: bool) | Aborted

  /** The state `smearPhoton` may change: the photon's energy, its resolution estimate
      and its cache, and the engine's generator. */
  datatype SmearState = SmearState(energy: real, corrEnergyErr: real, cache: map<int, real>, rgen: Generator)

  /** What a call to `smearPhoton` amounts to: its result, the state it leaves and the
      weight it leaves.  After an abort neither the state nor the weight is specified. */
  datatype Outcome = Outcome(result: SmearResult, state: SmearState, weight: Weight)

  /** The seed `TRandom3` is created with and reset to. */
  const InitialSeed: int := 12345

  /** The four curves `initEfficiency` reads from a file, given as its named graphs. */
  function LoadedCurves(file: map<string, seq<EffPoint>>, effName: string): (curves: map<string, seq<EffPoint>>)
    requires forall i :: 0 <= i < |EfficiencyCategories| ==> GraphName(effName, EfficiencyCategories[i]) in file
    ensures curves.Keys == {"EBHighR9", "EBLowR9", "EEHighR9", "EELowR9"}
    ensures forall c :: c in curves ==> GraphName(effName, c) in file && curves[c] == file[GraphName(effName, c)]
  {
    assert GraphName(effName, EfficiencyCategories[0]) in file;
    assert GraphName(effName, EfficiencyCategories[1]) in file;
    assert GraphName(effName, EfficiencyCategories[2]) in file;
    assert GraphName(effName, EfficiencyCategories[3]) in file;
    map["EBHighR9" := file[GraphName(effName, "EBHighR9")],
        "EBLowR9" := file[GraphName(effName, "EBLowR9")],
        "EEHighR9" := file[GraphName(effName, "EEHighR9")],
        "EELowR9" := file[GraphName(effName, "EELowR9")]]
  }

  class EnergySmearer {
    /** `smearerId()`: the identity the photon caches are keyed by. */
    const id: int
    var name: string
    var params: Parameters
    var doEnergy: bool
    var scaleOrSmear: bool
    var doEfficiencies: bool
    var doCorrections: bool
    var doRegressionSmear: bool
    /** One-shot flag: the next call recomputes instead of reading the cache. */
    var forceShift: bool
    const baseSeed: int
    /** The pre-selection domain; empty means every photon. */
    const presel: seq<PhotonCategory>
    var rgen: Generator
    var effName: string
    var systOnly: bool
    var effGraphs: map<string, seq<EffPoint>>

    /** Constructed from parameters that passed the constructor's checks, with only
        non-empty efficiency curves. */
    ghost predicate Valid()
      reads this`params, this`effGraphs
    {
      ValidParameters(params) && CurvesNonEmpty(effGraphs)
    }

    /** The constructor.  Its assertions are the precondition; `doEnergy_` and
        `doEfficiencies_`, which it leaves uninitialised, are inputs. */
    constructor (par: Parameters, presel: seq<PhotonCategory>, id: int, doEnergy: bool, doEfficiencies: bool)
      requires ValidParameters(par)
      ensures Valid()
      ensures params == Normalize(par) && this.presel == presel && this.id == id
      ensures name == "EnergySmearer_" + par.categoryType + "_" + par.parameterSetName
      ensures scaleOrSmear && !doCorrections && !doRegressionSmear && !systOnly && !forceShift
      ensures this.doEnergy == doEnergy && this.doEfficiencies == doEfficiencies
      ensures baseSeed == 0 && rgen == Seeded(InitialSeed) && effName == "" && effGraphs == map[]
    {
      this.id := id;
      this.presel := presel;
      baseSeed := 0;
      name := "EnergySmearer_" + par.categoryType + "_" + par.parameterSetName;
      params := Normalize(par);
      this.doEnergy, this.doEfficiencies := doEnergy, doEfficiencies;
      scaleOrSmear, doCorrections, doRegressionSmear := true, false, false;
      systOnly, forceShift := false, false;
      rgen := Seeded(InitialSeed);
      effName, effGraphs := "", map[];
      new;
      NormalizeKeepsValid(par);
    }

    /** The copy constructor: everything of `orig` but the pre-selection and the identity. */
    constructor Copy(orig: EnergySmearer, presel: seq<PhotonCategory>, id: int)
      requires orig.Valid()
      ensures Valid()
      ensures this.presel == presel && this.id == id
      ensures name == orig.name && params == orig.params && baseSeed == orig.baseSeed
      ensures doEnergy == orig.doEnergy && scaleOrSmear == orig.scaleOrSmear
      ensures doEfficiencies == orig.doEfficiencies && doCorrections == orig.doCorrections
      ensures doRegressionSmear == orig.doRegressionSmear && forceShift == orig.forceShift
      ensures rgen == orig.rgen && effName == orig.effName && systOnly == orig.systOnly
      ensures effGraphs == orig.effGraphs
    {
      this.id := id;
      this.presel := presel;
      baseSeed := orig.baseSeed;
      name, params := orig.name, orig.params;
      doEnergy, scaleOrSmear, doEfficiencies := orig.doEnergy, orig.scaleOrSmear, orig.doEfficiencies;
      doCorrections, doRegressionSmear, forceShift := orig.doCorrections, orig.doRegressionSmear, orig.forceShift;
      rgen, effName, systOnly, effGraphs := orig.rgen, orig.effName, orig.systOnly, orig.effGraphs;
    }

    // -------------------------------------------------------------------------------
    // Setters: each changes its own field and nothing else (the frames say so).

    method SetName(x: string)
      modifies this`name
      ensures name == x
    {
      name := x;
    }

    method ScaleOrSmear(x: bool)
      modifies this`scaleOrSmear
      ensures scaleOrSmear == x
    {
      scaleOrSmear := x;
    }

    method DoEnergy(x: bool)
      modifies this`doEnergy
      ensures doEnergy == x
    {
      doEnergy := x;
    }

    method DoRegressionSigma(x: bool)
      modifies this`doRegressionSmear
      ensures doRegressionSmear == x
    {
      doRegressionSmear := x;
    }

    method DoCorrections(x: bool)
      modifies this`doCorrections
      ensures doCorrections == x
    {
      doCorrections := x;
    }

    method DoEfficiencies(x: bool)
      modifies this`doEfficiencies
      ensures doEfficiencies == x
    {
      doEfficiencies := x;
    }

    method SetEffName(x: string)
      modifies this`effName
      ensures effName == x
    {
      effName := x;
    }

    method SystOnly(x: bool)
      modifies this`systOnly
      ensures systOnly == x
    {
      systOnly := x;
    }

    /** `resetRandom`: the generator is reseeded with its initial seed. */
    method ResetRandom()
      modifies this`rgen
      ensures rgen == Seeded(InitialSeed)
    {
      rgen := Seeded(InitialSeed);
    }

    // -------------------------------------------------------------------------------
    // Efficiency curves

    /** `initEfficiency`, with the file given as the map of its named graphs.  Reading a
        graph the file does not hold is outside the model (the source dereferences null). */
    method InitEfficiency(file: map<string, seq<EffPoint>>) returns (ok: bool)
      requires Valid()
      requires EfficiencyInitDecision(|effGraphs| > 0, doEnergy, doEfficiencies, effName, params.efficiencyFile) == Load ==>
        forall i :: 0 <= i < |EfficiencyCategories| ==>
          GraphName(effName, EfficiencyCategories[i]) in file && |file[GraphName(effName, EfficiencyCategories[i])]| > 0
      modifies this`effGraphs
      ensures Valid()
      ensures var d := EfficiencyInitDecision(|old(effGraphs)| > 0, doEnergy, doEfficiencies, effName, params.efficiencyFile);
        && ok == (d != Refused)
        && effGraphs == if d == Load then LoadedCurves(file, effName) else old(effGraphs)
    {
      if |effGraphs| > 0 {
        return true;
      }
      if doEnergy { return false; }
      if !doEfficiencies { return false; }
      if effName == "" { return false; }
      if params.efficiencyFile == "" { return false; }
      assert GraphName(effName, EfficiencyCategories[0]) in file && GraphName(effName, EfficiencyCategories[1]) in file;
      assert GraphName(effName, EfficiencyCategories[2]) in file && GraphName(effName, EfficiencyCategories[3]) in file;
      effGraphs := effGraphs["EBHighR9" := file[GraphName(effName, "EBHighR9")]];
      effGraphs := effGraphs["EBLowR9" := file[GraphName(effName, "EBLowR9")]];
      effGraphs := effGraphs["EEHighR9" := file[GraphName(effName, "EEHighR9")]];
      effGraphs := effGraphs["EELowR9" := file[GraphName(effName, "EELowR9")]];
      ok := true;
    }

    /** `getWeight`: the scan for the bracketing knots and the interpolation, equal to
        the weight the curves define. */
    method GetWeight(pt: real, cat: string, shift: real) returns (w: Weight)
      requires Valid()
      ensures w == WeightOf(effGraphs, pt, cat, shift)
    {
      if cat !in effGraphs {
        return Finite(1.0);
      }
      var curve := effGraphs[cat];
      var numPoints := |curve|;
      var myBin := -1;
      var bin := 0;
      while bin < numPoints
        invariant 0 <= bin <= numPoints
        invariant myBin == bin - 1
        invariant forall j :: 0 <= j < bin ==> pt > curve[j].x
      {
        if pt > curve[bin].x {
          myBin := bin;
        } else {
          break;
        }
        bin := bin + 1;
      }
      LeadingBelowUnique(curve, pt, bin);
      var binLow, binHigh;
      if myBin == -1 {
        binHigh, binLow := 0, 0;
      } else if myBin == numPoints - 1 {
        binHigh, binLow := numPoints - 1, numPoints - 1;
      } else {
        binLow, binHigh := myBin, myBin + 1;
      }
      assert Bracket(binLow, binHigh) == BracketOf(curve, pt);
      var lo, hi := curve[binLow], curve[binHigh];
      if hi.x - lo.x == 0.0 {
        assert binLow == binHigh;
        // a collapsed bracket: the slope divides zero by zero
        return NaN;
      }
      var errLow, errHigh;
      if shift > 0.0 {
        errLow, errHigh := lo.errUp, hi.errUp;
      } else {
        errLow, errHigh := lo.errDown, hi.errDown;
      }
      var theWeight := lo.y + (hi.y - lo.y) / (hi.x - lo.x) * (pt - lo.x);
      var theError := errLow + (errHigh - errLow) / (hi.x - lo.x) * (pt - lo.x);
      w := Finite(theWeight + theError * shift);
      assert w == Finite(Interpolate(lo, hi, pt, shift));
    }

    // -------------------------------------------------------------------------------
    // smearPhoton

    /** The cache may be read: no forced recompute, no efficiency, correction or
        regression mode, and a nominal shift. */
    predicate CacheUsable(shift: real)
      reads this`forceShift, this`doEfficiencies, this`doCorrections, this`doRegressionSmear
    {
      !forceShift && !doEfficiencies && !doCorrections && !doRegressionSmear && shift == 0.0
    }

    /** The photon lies in the pre-selection domain (all photons when it is empty). */
    predicate InPreselection(m: Numerics, pho: Photon)
      requires m.Valid()
      reads pho`energy
    {
      |presel| == 0 || AnyAccepts(presel, pho.Coord(m))
    }

    /** The call gets past the syst-only exit and the cache before the pre-selection test. */
    predicate PassesCache(pho: Photon, shift: real)
      reads this`systOnly, this`forceShift, this`doEfficiencies, this`doCorrections, this`doRegressionSmear, pho`cache
    {
      !(systOnly && shift == 0.0) && !(CacheUsable(shift) && id in pho.cache)
    }

    /** The tables the selected mode looks the category up in hold it (a missing key is
        undefined behaviour in the source), as does a run range for the run. */
    predicate ModeTablesCover(m: Numerics, pho: Photon, cat: string, run: int)
      requires m.Valid()
      reads this`doCorrections, this`doRegressionSmear, this`scaleOrSmear, this`params, pho`energy
    {
      !doCorrections && !doRegressionSmear ==>
        if scaleOrSmear then
          cat in params.scaleOffsetError && (params.byRun ==> RunCovered(params.scaleOffsetByRun, run))
        else
          SigmaKeys(params, cat) && StochasticEnergy(m, params, pho.energy, pho.eta) != 0.0
    }

    /** The state this engine and `pho` are in now. */
    function StateOf(pho: Photon): SmearState
      reads this`rgen, pho`energy, pho`corrEnergyErr, pho`cache
    {
      SmearState(pho.energy, pho.corrEnergyErr, pho.cache, rgen)
    }

    /** The scale mode: the energy times the scale factor, which a nominal call caches. */
    function ScaledState(pho: Photon, cat: string, run: int, shift: real): SmearState
      requires cat in params.scaleOffsetError && (params.byRun ==> RunCovered(params.scaleOffsetByRun, run))
      reads this`params, this`rgen, pho`energy, pho`corrEnergyErr, pho`cache
    {
      var f := ScaleFactor(params, run, cat, shift);
      SmearState(pho.energy * f, pho.corrEnergyErr, if shift == 0.0 then pho.cache[id := f] else pho.cache, rgen)
    }

    /** The smear mode: the energy times a smear draw, which a nominal call caches. */
    function SmearedState(m: Numerics, pho: Photon, cat: string, shift: real): SmearState
      requires m.Valid() && SigmaKeys(params, cat) && StochasticEnergy(m, params, pho.energy, pho.eta) != 0.0
      reads this`params, this`rgen, pho`energy, pho`corrEnergyErr, pho`cache
    {
      var sigma := SmearingSigma(m, params, cat, pho.energy, pho.eta, shift);
      var d := SmearDraw(m, rgen, sigma, shift, pho.seeds, baseSeed);
      SmearState(pho.energy * d.value, pho.corrEnergyErr, if shift == 0.0 then pho.cache[id := d.value] else pho.cache, d.next)
    }

    /** What the selected mode does: corrections blend in the corrected energy, regression
        rescales the resolution estimate, scale and smear multiply the energy by a factor. */
    function ModeStateOf(m: Numerics, pho: Photon, cat: string, run: int, shift: real): SmearState
      requires m.Valid() && ModeTablesCover(m, pho, cat, run)
      reads this`doCorrections, this`doRegressionSmear, this`scaleOrSmear, this`params, this`rgen
      reads pho`energy, pho`corrEnergyErr, pho`cache
    {
      if doCorrections then
        SmearState(CorrectedEnergy(pho.corrEnergy, pho.energy, params.corrRelErr, shift), pho.corrEnergyErr, pho.cache, rgen)
      else if doRegressionSmear then
        SmearState(pho.energy, RegressionSigma(pho.rawCorrEnergyErr, pho.eta, shift), pho.cache, rgen)
      else if scaleOrSmear then ScaledState(pho, cat, run, shift)
      else SmearedState(m, pho, cat, shift)
    }

    /** The weight a successful call leaves: an efficiency lookup at the new transverse
        energy when efficiencies (and not corrections) are on and curves are loaded. */
    function WeightAfter(m: Numerics, pho: Photon, energy: real, cat: string, shift: real, weight: Weight): Weight
      requires m.Valid() && Valid()
      reads this`params, this`doEfficiencies, this`doCorrections, this`effGraphs
    {
      if doEfficiencies && !doCorrections && |effGraphs| > 0 then
        WeightOf(effGraphs, energy / m.cosh(pho.eta), cat, shift)
      else weight
    }

    /** The smear factor of the smear mode: 1 for a non-positive width, otherwise a
        Gaussian draw of that width around 1, from a generator reseeded with the photon's
        seed for the rounded shift when it has one. */
    method DrawSmearFactor(m: Numerics, sigma: real, shift: real, seeds: seq<int>) returns (smear: real)
      modifies this`rgen
      ensures var d := SmearDraw(m, old(rgen), sigma, shift, seeds, baseSeed);
        smear == d.value && rgen == d.next
    {
      smear := 1.0;
      if sigma > 0.0 {
        // reproducible draws: reseed from the photon's seed for the rounded shift
        var nsigmas := m.round(shift);
        if nsigmas < 0 {
          nsigmas := 1 - nsigmas;
        }
        if nsigmas < |seeds| {
          rgen := Seeded(baseSeed + seeds[nsigmas]);
        }
        var d := Gaus(m, rgen, 1.0, sigma);
        smear, rgen := d.value, d.next;
      }
    }

    /** The scale mode: the energy times the scale factor, cached when nominal. */
    method ScaleEnergy(pho: Photon, cat: string, run: int, shift: real) returns (newEnergy: real)
      requires cat in params.scaleOffsetError && (params.byRun ==> RunCovered(params.scaleOffsetByRun, run))
      modifies pho`cache
      ensures var st := old(ScaledState(pho, cat, run, shift));
        newEnergy == st.energy && pho.cache == st.cache
    {
      var scaleOffset := ScaleOffset(params, run, cat);
      scaleOffset := scaleOffset + shift * params.scaleOffsetError[cat];
      assert scaleOffset == ScaleFactor(params, run, cat, shift);
      newEnergy := pho.energy * scaleOffset;
      if shift == 0.0 {
        pho.cache := pho.cache[id := scaleOffset];
      }
    }

    /** The smear mode: the energy times a smear factor, cached when nominal. */
    method SmearEnergy(m: Numerics, pho: Photon, cat: string, shift: real) returns (newEnergy: real)
      requires m.Valid() && SigmaKeys(params, cat) && StochasticEnergy(m, params, pho.energy, pho.eta) != 0.0
      modifies this`rgen, pho`cache
      ensures var st := old(SmearedState(m, pho, cat, shift));
        newEnergy == st.energy && pho.cache == st.cache && rgen == st.rgen
    {
      var sigma := SmearingSigma(m, params, cat, pho.energy, pho.eta, shift);
      ghost var draw := SmearDraw(m, rgen, sigma, shift, pho.seeds, baseSeed);
      var smear := DrawSmearFactor(m, sigma, shift, pho.seeds);
      assert smear == draw.value;
      if shift == 0.0 {
        pho.cache := pho.cache[id := smear];
      }
      newEnergy := pho.energy * smear;
    }

    /** The mode branch of `smearPhoton`: it returns the new energy and writes the
        resolution estimate, the cache and the generator as the mode does. */
    method ApplyMode(m: Numerics, pho: Photon, cat: string, run: int, shift: real) returns (newEnergy: real)
      requires m.Valid() && ModeTablesCover(m, pho, cat, run)
      modifies this`rgen, pho`corrEnergyErr, pho`cache
      ensures old(ModeStateOf(m, pho, cat, run, shift)) == StateOf(pho).(energy := newEnergy)
    {
      if doCorrections {
        newEnergy := CorrectedEnergy(pho.corrEnergy, pho.energy, params.corrRelErr, shift);
      } else if doRegressionSmear {
        pho.corrEnergyErr := RegressionSigma(pho.rawCorrEnergyErr, pho.eta, shift);
        newEnergy := pho.energy;
      } else if scaleOrSmear {
        newEnergy := ScaleEnergy(pho, cat, run, shift);
      } else {
        newEnergy := SmearEnergy(m, pho, cat, shift);
      }
    }

    /** The category tables reached past the cache hold what the selected mode reads. */
    predicate CategoryTablesCover(m: Numerics, pho: Photon, run: int)
      requires m.Valid()
      reads this`doCorrections, this`doRegressionSmear, this`scaleOrSmear, this`params, pho`energy
    {
      InPreselection(m, pho) ==>
        var c := CategoryName(m, params, pho);
        c.Some? && c.value != "" ==> ModeTablesCover(m, pho, c.value, run)
    }

    /** `smearPhoton` past the cache: outside the pre-selection nothing happens; without an
        automatic category it aborts; an empty name returns false; otherwise the mode acts,
        a zero energy aborts, and the weight is looked up. */
    function UncachedOutcome(m: Numerics, pho: Photon, weight: Weight, run: int, shift: real): (o: Outcome)
      requires m.Valid() && Valid() && CategoryTablesCover(m, pho, run)
      reads this`doCorrections, this`doRegressionSmear, this`scaleOrSmear, this`params, this`rgen
      reads this`doEfficiencies, this`effGraphs, pho`energy, pho`corrEnergyErr, pho`cache
    {
      if !InPreselection(m, pho) then Outcome(Returned(true), StateOf(pho), weight)
      else match CategoryName(m, params, pho)
        case None => Outcome(Aborted, StateOf(pho), weight)
        case Some(cat) =>
          if cat == "" then Outcome(Returned(false), StateOf(pho), weight)
          else
            var st := ModeStateOf(m, pho, cat, run, shift);
            if st.energy == 0.0 then Outcome(Aborted, st, weight)
            else Outcome(Returned(true), st, WeightAfter(m, pho, st.energy, cat, shift, weight))
    }

    /** `smearPhoton`: a nominal call on a syst-only engine does nothing; a usable cached
        factor multiplies the energy; anything else is the uncached outcome. */
    function SmearOutcome(m: Numerics, pho: Photon, weight: Weight, run: int, shift: real): (o: Outcome)
      requires m.Valid() && Valid()
      requires PassesCache(pho, shift) ==> CategoryTablesCover(m, pho, run)
      reads this`systOnly, this`forceShift, this`doCorrections, this`doRegressionSmear, this`scaleOrSmear, this`params
      reads this`rgen, this`doEfficiencies, this`effGraphs, pho`energy, pho`corrEnergyErr, pho`cache
    {
      if systOnly && shift == 0.0 then Outcome(Returned(true), StateOf(pho), weight)
      else if CacheUsable(shift) && id in pho.cache then
        Outcome(Returned(true), StateOf(pho).(energy := pho.energy * pho.cache[id]), weight)
      else UncachedOutcome(m, pho, weight, run, shift)
    }

    /** A call leaves the state and weight its outcome names, unless it aborts. */
    ghost predicate Reached(o: Outcome, pho: Photon, r: SmearResult, w: Weight)
      reads this`rgen, pho`energy, pho`corrEnergyErr, pho`cache
    {
      r == o.result && (r != Aborted ==> w == o.weight && StateOf(pho) == o.state)
    }

    /** A categorised photon: the mode's new energy, the zero-energy abort, and the
        efficiency weight. */
    method SmearCategorised(m: Numerics, pho: Photon, cat: string, weight: Weight, run: int, shift: real) returns (r: SmearResult, w: Weight)
      requires m.Valid() && Valid() && ModeTablesCover(m, pho, cat, run)
      modifies this`rgen, pho`energy, pho`corrEnergyErr, pho`cache
      ensures var st := old(ModeStateOf(m, pho, cat, run, shift));
        Reached(if st.energy == 0.0 then Outcome(Aborted, st, weight)
                else Outcome(Returned(true), st, WeightAfter(m, pho, st.energy, cat, shift, weight)), pho, r, w)
    {
      w := weight;
      var newEnergy := ApplyMode(m, pho, cat, run, shift);
      if newEnergy == 0.0 {
        // a zero energy is a fatal error
        return Aborted, w;
      }
      pho.energy := newEnergy;
      if doEfficiencies && !doCorrections {
        if |effGraphs| > 0 {
          w := GetWeight(pho.energy / m.cosh(pho.eta), cat, shift);
        }
      }
      r := Returned(true);
    }

    /** `smearPhoton` past the cache. */
    method SmearUncached(m: Numerics, pho: Photon, weight: Weight, run: int, shift: real) returns (r: SmearResult, w: Weight)
      requires m.Valid() && Valid() && CategoryTablesCover(m, pho, run)
      modifies this`rgen, pho`energy, pho`corrEnergyErr, pho`cache
      ensures Reached(old(UncachedOutcome(m, pho, weight, run, shift)), pho, r, w)
    {
      w := weight;
      if |presel| > 0 {
        if FirstAccepting(presel, pho.Coord(m)).None? {
          return Returned(true), w;
        }
      }
      var category := CategoryName(m, params, pho);
      if category.None? {
        // the automatic scheme found no category: a fatal error
        return Aborted, w;
      }
      var cat := category.value;
      if cat == "" {
        return Returned(false), w;
      }
      r, w := SmearCategorised(m, pho, cat, weight, run, shift);
    }

    /** `smearPhoton`: the outcome above; the one-shot flag is lowered by every call that
        gets past the syst-only exit, and nothing else of the engine changes. */
    method SmearPhoton(m: Numerics, pho: Photon, weight: Weight, run: int, shift: real) returns (r: SmearResult, w: Weight)
      requires m.Valid() && Valid()
      requires PassesCache(pho, shift) ==> CategoryTablesCover(m, pho, run)
      modifies this`forceShift, this`rgen, pho`energy, pho`corrEnergyErr, pho`cache
      ensures Valid()
      ensures Reached(old(SmearOutcome(m, pho, weight, run, shift)), pho, r, w)
      ensures forceShift == (old(forceShift) && old(systOnly) && shift == 0.0)
    {
      w := weight;
      if systOnly && shift == 0.0 {
        return Returned(true), w;
      }
      if !forceShift && !doEfficiencies && !doCorrections && !doRegressionSmear && shift == 0.0 {
        if id in pho.cache {
          pho.energy := pho.energy * pho.cache[id];
          return Returned(true), w;
        }
      }
      r, w := SmearUncached(m, pho, weight, run, shift);
      // lowered before the pre-selection test in the source; nothing in between reads it
      if forceShift {
        forceShift := false;
      }
    }
  }

  // ---------------------------------------------------------------------------------
  // Properties of the smearPhoton outcome

  /** Past the cache, a pre-selected photon with a non-empty category name ends in the
      state its mode computes. */
  lemma OutcomeStateIsModeState(s: EnergySmearer, m: Numerics, pho: Photon, weight: Weight, run: int, shift: real)
    requires m.Valid() && s.Valid()
    requires s.PassesCache(pho, shift) && s.CategoryTablesCover(m, pho, run) && s.InPreselection(m, pho)
    requires CategoryName(m, s.params, pho).Some? && CategoryName(m, s.params, pho).value != ""
    ensures s.SmearOutcome(m, pho, weight, run, shift).state ==
      s.ModeStateOf(m, pho, CategoryName(m, s.params, pho).value, run, shift)
  {
    assert s.SmearOutcome(m, pho, weight, run, shift) == s.UncachedOutcome(m, pho, weight, run, shift);
  }

  /** The scale and smear modes write the cache exactly on a nominal call, and then only
      the engine's own slot, with the factor the energy was multiplied by: the factors other
      engines stored on the photon stay as they were. */
  lemma ModeStateCache(s: EnergySmearer, m: Numerics, pho: Photon, cat: string, run: int, shift: real)
    requires m.Valid() && s.ModeTablesCover(m, pho, cat, run)
    ensures var st := s.ModeStateOf(m, pho, cat, run, shift);
      && (shift != 0.0 || s.doCorrections || s.doRegressionSmear ==> st.cache == pho.cache)
      && (shift == 0.0 && !s.doCorrections && !s.doRegressionSmear ==>
            && s.id in st.cache && st.energy == pho.energy * st.cache[s.id]
            && st.cache == pho.cache[s.id := st.cache[s.id]])
  {
    if !s.doCorrections && !s.doRegressionSmear {
      if s.scaleOrSmear {
        assert s.ModeStateOf(m, pho, cat, run, shift) == s.ScaledState(pho, cat, run, shift);
      } else {
        assert s.ModeStateOf(m, pho, cat, run, shift) == s.SmearedState(m, pho, cat, shift);
      }
    }
  }

  /** A later nominal call with the cache usable and a factor stored under the engine's
      identity multiplies the energy by that factor and changes nothing else. */
  lemma CacheHitAppliesStoredFactor(s: EnergySmearer, m: Numerics, pho: Photon, weight: Weight, run: int)
    requires m.Valid() && s.Valid()
    requires !s.systOnly && s.CacheUsable(0.0) && s.id in pho.cache
    ensures var o := s.SmearOutcome(m, pho, weight, run, 0.0);
      && o.result == Returned(true) && o.weight == weight
      && o.state == s.StateOf(pho).(energy := pho.energy * pho.cache[s.id])
  {
  }

  /** A shifted call neither reads nor writes the cache: the cache it leaves is the one it
      found. */
  lemma ShiftedCallKeepsCache(s: EnergySmearer, m: Numerics, pho: Photon, weight: Weight, run: int, shift: real)
    requires m.Valid() && s.Valid() && shift != 0.0
    requires s.PassesCache(pho, shift) && s.CategoryTablesCover(m, pho, run)
    ensures s.SmearOutcome(m, pho, weight, run, shift).state.cache == pho.cache
  {
    if s.InPreselection(m, pho) && CategoryName(m, s.params, pho).Some? && CategoryName(m, s.params, pho).value != "" {
      OutcomeStateIsModeState(s, m, pho, weight, run, shift);
      ModeStateCache(s, m, pho, CategoryName(m, s.params, pho).value, run, shift);
    } else {
      assert s.SmearOutcome(m, pho, weight, run, shift) == s.UncachedOutcome(m, pho, weight, run, shift);
    }
  }

  /** The correction and regression modes leave the cache and the generator alone, and
      the correction mode never looks up an efficiency weight. */
  lemma CorrectionModesKeepCache(s: EnergySmearer, m: Numerics, pho: Photon, weight: Weight, run: int, shift: real)
    requires m.Valid() && s.Valid() && (s.doCorrections || s.doRegressionSmear)
    requires s.PassesCache(pho, shift) ==> s.CategoryTablesCover(m, pho, run)
    ensures var o := s.SmearOutcome(m, pho, weight, run, shift);
      o.state.cache == pho.cache && o.state.rgen == s.rgen && (s.doCorrections ==> o.weight == weight)
  {
  }

  /** A raised one-shot flag makes every call but the syst-only nominal exit recompute. */
  lemma ForcedShiftBypassesCache(s: EnergySmearer, pho: Photon, shift: real)
    requires s.forceShift && !(s.systOnly && shift == 0.0)
    ensures s.PassesCache(pho, shift)
  {
  }

  /** A false result leaves the photon, the generator and the weight as found. */
  lemma FalseLeavesStateAlone(s: EnergySmearer, m: Numerics, pho: Photon, weight: Weight, run: int, shift: real)
    requires m.Valid() && s.Valid()
    requires s.PassesCache(pho, shift) ==> s.CategoryTablesCover(m, pho, run)
    ensures var o := s.SmearOutcome(m, pho, weight, run, shift);
      o.result == Returned(false) ==> o.state == s.StateOf(pho) && o.weight == weight
  {
  }

  /** The two true exits that come before the mode, the syst-only nominal call and a photon
      outside the pre-selection, leave the photon, the generator and the weight as found. */
  lemma EarlyExitsLeaveStateAlone(s: EnergySmearer, m: Numerics, pho: Photon, weight: Weight, run: int, shift: real)
    requires m.Valid() && s.Valid()
    requires s.PassesCache(pho, shift) ==> s.CategoryTablesCover(m, pho, run)
    requires (s.systOnly && shift == 0.0) || (s.PassesCache(pho, shift) && !s.InPreselection(m, pho))
    ensures var o := s.SmearOutcome(m, pho, weight, run, shift);
      o.result == Returned(true) && o.state == s.StateOf(pho) && o.weight == weight
  {
  }
}
