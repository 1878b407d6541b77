/**
 * Kinematic categories of photons and the run ranges of run-dependent scale tables
 * (the `PhotonCategory` and `EnergyScaleOffset` classes of EnergySmearer.h).
 */
module Categories {
  import opened Wrappers

  /** Which photons a category admits with respect to the gaps of the calorimeter. */
  datatype GapType = Any | NoGap | Gap

  /** The coordinates a photon is categorised by: transverse energy, |pseudorapidity|,
      shower shape R9, and whether it is away from any gap. */
  datatype PhotonCoord = PhotonCoord(et: real, eta: real, r9: real, isNoGap: bool)

  /** A named box in (et, eta, r9) with a gap requirement; every bound is inclusive. */
  datatype PhotonCategory = PhotonCategory(
    minEt: real, maxEt: real,
    minEta: real, maxEta: real,
    minR9: real, maxR9: real,
    gapType: GapType,
    name: string)

  /** The gap requirement of `c` admits a photon with the given gap flag. */
  predicate GapAccepts(c: PhotonCategory, isNoGap: bool) {
    c.gapType == Any || (c.gapType == NoGap && isNoGap) || (c.gapType == Gap && !isNoGap)
  }

  /** Membership of a photon's coordinates in a category (`operator ==(photon_coord_t)`). */
  predicate Accepts(c: PhotonCategory, x: PhotonCoord) {
    && GapAccepts(c, x.isNoGap)
    && c.minEta <= x.eta <= c.maxEta
    && c.minR9 <= x.r9 <= c.maxR9
    && c.minEt <= x.et <= c.maxEt
  }

  /** Dominance `a > b`: a's gap type is `any` or b's, and each range of b lies in a's. */
  predicate Dominates(a: PhotonCategory, b: PhotonCategory) {
    && (a.gapType == Any || a.gapType == b.gapType)
    && b.minEta >= a.minEta && b.maxEta <= a.maxEta
    && b.minR9 >= a.minR9 && b.maxR9 <= a.maxR9
    && b.minEt >= a.minEt && b.maxEt <= a.maxEt
  }

  /** `operator ==(const PhotonCategory &)`: field-by-field comparison. */
  predicate SameCategory(a: PhotonCategory, b: PhotonCategory) {
    && a.gapType == b.gapType
    && a.minEta == b.minEta && a.maxEta == b.maxEta
    && a.minR9 == b.minR9 && a.maxR9 == b.maxR9
    && a.minEt == b.minEt && a.maxEt == b.maxEt
    && a.name == b.name
  }

  /** `operator ==(const std::string &)`: only the name is compared. */
  predicate HasName(c: PhotonCategory, name: string) {
    c.name == name
  }

  /** The field-by-field comparison is exactly equality of categories. */
  lemma SameCategoryIsEquality(a: PhotonCategory, b: PhotonCategory)
    ensures SameCategory(a, b) <==> a == b
  {
  }

  /** Categories that differ only in their boxes still compare equal to the same name. */
  lemma NameComparisonIgnoresBounds(a: PhotonCategory, b: PhotonCategory, name: string)
    requires a.name == b.name
    ensures HasName(a, name) <==> HasName(b, name)
  {
  }

  lemma DominatesReflexive(a: PhotonCategory)
    ensures Dominates(a, a)
  {
  }

  lemma DominatesTransitive(a: PhotonCategory, b: PhotonCategory, c: PhotonCategory)
    requires Dominates(a, b) && Dominates(b, c)
    ensures Dominates(a, c)
  {
  }

  /** What dominance is used for: a dominating category admits every photon the
      dominated one admits. */
  lemma DominatesSubsumes(a: PhotonCategory, b: PhotonCategory, x: PhotonCoord)
    requires Dominates(a, b) && Accepts(b, x)
    ensures Accepts(a, x)
  {
  }

  /** Index of the first category accepting `x` (`std::find` with the coordinate
      comparison), or None if there is none. */
  function FirstAccepting(cats: seq<PhotonCategory>, x: PhotonCoord): (r: Option<nat>)
    ensures r.Some? ==> r.value < |cats| && Accepts(cats[r.value], x)
    ensures r.Some? ==> forall j :: 0 <= j < r.value ==> !Accepts(cats[j], x)
    ensures r.None? <==> forall j :: 0 <= j < |cats| ==> !Accepts(cats[j], x)
  {
    if |cats| == 0 then None
    else if Accepts(cats[0], x) then Some(0)
    else match FirstAccepting(cats[1..], x)
      case None => None
      case Some(k) => Some(k + 1)
  }

  /** Some category of the list accepts `x` (a non-end `std::find` result). */
  predicate AnyAccepts(cats: seq<PhotonCategory>, x: PhotonCoord) {
    exists j :: 0 <= j < |cats| && Accepts(cats[j], x)
  }

  /** Index of the first category called `name` (`std::find` with the name comparison),
      or None if there is none. */
  function FirstNamed(cats: seq<PhotonCategory>, name: string): (r: Option<nat>)
    ensures r.Some? ==> r.value < |cats| && HasName(cats[r.value], name)
    ensures r.Some? ==> forall j :: 0 <= j < r.value ==> !HasName(cats[j], name)
    ensures r.None? <==> forall j :: 0 <= j < |cats| ==> !HasName(cats[j], name)
  {
    if |cats| == 0 then None
    else if HasName(cats[0], name) then Some(0)
    else match FirstNamed(cats[1..], name)
      case None => None
      case Some(k) => Some(k + 1)
  }

  /** Some category of the list dominates `c` (`operator >`). */
  predicate AnyDominates(cats: seq<PhotonCategory>, c: PhotonCategory) {
    exists j :: 0 <= j < |cats| && Dominates(cats[j], c)
  }

  /** If every category of `narrow` is dominated by one of `wide`, a photon admitted by
      `narrow` is admitted by `wide`. */
  lemma {:induction false} DominatedListSubsumes(wide: seq<PhotonCategory>, narrow: seq<PhotonCategory>, x: PhotonCoord)
    requires forall j :: 0 <= j < |narrow| ==> exists i :: 0 <= i < |wide| && Dominates(wide[i], narrow[j])
    requires AnyAccepts(narrow, x)
    ensures AnyAccepts(wide, x)
  {
    var j :| 0 <= j < |narrow| && Accepts(narrow[j], x);
    var i :| 0 <= i < |wide| && Dominates(wide[i], narrow[j]);
    DominatesSubsumes(wide[i], narrow[j], x);
  }

  // ---------------------------------------------------------------------------------
  // Run ranges

  /** A run range of the run-dependent scale tables, with the per-category tables it
      carries.  A negative `lastRun` leaves the range open at the top. */
  datatype RunRange = RunRange(
    firstRun: int, lastRun: int,
    scaleOffset: map<string, real>,
    scaleOffsetError: map<string, real>,
    scaleStochasticOffset: map<string, real>,
    scaleStochasticOffsetError: map<string, real>,
    scaleStochasticPivot: map<string, real>,
    scaleStochasticPivotError: map<string, real>)

  /** `operator ==(int run)`: the run lies in the range. */
  predicate ContainsRun(r: RunRange, run: int) {
    run >= r.firstRun && (r.lastRun < 0 || run <= r.lastRun)
  }

  /** `operator ==(std::pair<int,int>)`: the range has exactly these bounds. */
  predicate HasBounds(r: RunRange, first: int, last: int) {
    first == r.firstRun && last == r.lastRun
  }

  /** A negative last run makes the range open-ended: every run from the first on matches. */
  lemma OpenEndedRange(r: RunRange, run: int)
    requires r.lastRun < 0
    ensures ContainsRun(r, run) <==> run >= r.firstRun
  {
  }

  /** With a non-negative last run the range is the closed interval [firstRun, lastRun]. */
  lemma ClosedRange(r: RunRange, run: int)
    requires r.lastRun >= 0
    ensures ContainsRun(r, run) <==> r.firstRun <= run <= r.lastRun
  {
  }

  /** Any range contains its own first run unless its last run lies below it. */
  lemma FirstRunContained(r: RunRange)
    ensures ContainsRun(r, r.firstRun) <==> (r.lastRun < 0 || r.firstRun <= r.lastRun)
  {
  }

  /** Two ranges with the same bounds contain the same runs. */
  lemma SameBoundsSameRuns(r: RunRange, s: RunRange, run: int)
    requires HasBounds(r, s.firstRun, s.lastRun)
    ensures ContainsRun(r, run) <==> ContainsRun(s, run)
  {
  }

  predicate RunCovered(ranges: seq<RunRange>, run: int) {
    exists i :: 0 <= i < |ranges| && ContainsRun(ranges[i], run)
  }

  /** Index of the first range containing `run` (`std::find` with the run comparison). */
  function FirstRunRange(ranges: seq<RunRange>, run: int): (k: nat)
    requires RunCovered(ranges, run)
    ensures k < |ranges| && ContainsRun(ranges[k], run)
    ensures forall j :: 0 <= j < k ==> !ContainsRun(ranges[j], run)
  {
    if ContainsRun(ranges[0], run) then 0
    else
      assert RunCovered(ranges[1..], run) by {
        var i :| 0 <= i < |ranges| && ContainsRun(ranges[i], run);
        assert i > 0 && ContainsRun(ranges[1..][i - 1], run);
      }
      FirstRunRange(ranges[1..], run) + 1
  }
}
