/**
 * The efficiency-ratio curves of the re-weighting (`TGraphAsymmErrors` per category) and
 * the weight `getWeight` reads off them: the bracketing knots found by a linear scan,
 * then two-point interpolation of the ratio and of its one-sided error.
 */
module Efficiency {

  /** One knot: abscissa, ratio, and the upper (`GetErrorYhigh`) and lower
      (`GetErrorYlow`) errors of the ratio. */
  datatype EffPoint = EffPoint(x: real, y: real, errUp: real, errDown: real)

  /** A weight as a double: a finite value, or the NaN that 0/0 produces. */
  datatype Weight = Finite(value: real) | NaN

  /** `initEfficiency` loads one curve for each of these categories. */
  const EfficiencyCategories: seq<string> := ["EBHighR9", "EBLowR9", "EEHighR9", "EELowR9"]

  /** The name of the graph of category `cat` in the efficiency file. */
  function GraphName(effName: string, cat: string): string {
    effName + "_" + cat
  }

  /** Every curve has at least one knot. */
  ghost predicate CurvesNonEmpty(curves: map<string, seq<EffPoint>>) {
    forall c :: c in curves ==> |curves[c]| > 0
  }

  /** Knots in strictly increasing x. */
  ghost predicate Increasing(curve: seq<EffPoint>) {
    forall i, j :: 0 <= i < j < |curve| ==> curve[i].x < curve[j].x
  }

  /** How far the scan of `getWeight` gets: the number of leading knots with pt > x,
      i.e. the index of the first knot with pt <= x, or the number of knots. */
  function LeadingBelow(curve: seq<EffPoint>, pt: real): (k: nat)
    ensures k <= |curve|
    ensures forall j :: 0 <= j < k ==> pt > curve[j].x
    ensures k < |curve| ==> pt <= curve[k].x
  {
    if |curve| == 0 || !(pt > curve[0].x) then 0 else 1 + LeadingBelow(curve[1..], pt)
  }

  /** The two properties of LeadingBelow determine it. */
  lemma {:induction false} LeadingBelowUnique(curve: seq<EffPoint>, pt: real, k: nat)
    requires k <= |curve|
    requires forall j :: 0 <= j < k ==> pt > curve[j].x
    requires k < |curve| ==> pt <= curve[k].x
    ensures LeadingBelow(curve, pt) == k
  {
    if k > 0 {
      assert pt > curve[0].x;
      LeadingBelowUnique(curve[1..], pt, k - 1);
    }
  }

  /** The indices of the two knots interpolated between. */
  datatype Bracket = Bracket(low: nat, high: nat)

  /** `myBin` is the last scanned knot below pt; with none, or with every knot below pt,
      both ends collapse onto the first or the last knot. */
  function BracketOf(curve: seq<EffPoint>, pt: real): (b: Bracket)
    requires |curve| > 0
    ensures b.low <= b.high < |curve|
  {
    var k := LeadingBelow(curve, pt);
    if k == 0 then Bracket(0, 0)
    else if k == |curve| then Bracket(|curve| - 1, |curve| - 1)
    else Bracket(k - 1, k)
  }

  /** The one-sided error the shift is applied with: the upper error for a positive
      shift, the lower one otherwise. */
  function OneSidedError(p: EffPoint, shift: real): real {
    if shift > 0.0 then p.errUp else p.errDown
  }

  /** Two-point interpolation of the ratio and of the error, combined as ratio + error x shift. */
  function Interpolate(lo: EffPoint, hi: EffPoint, pt: real, shift: real): real
    requires lo.x != hi.x
  {
    var w := lo.y + (hi.y - lo.y) / (hi.x - lo.x) * (pt - lo.x);
    var eLo := OneSidedError(lo, shift);
    var eHi := OneSidedError(hi, shift);
    var e := eLo + (eHi - eLo) / (hi.x - lo.x) * (pt - lo.x);
    w + e * shift
  }

  /** The weight a curve gives at pt.  A collapsed bracket divides 0 by 0 and gives NaN;
      otherwise the bracketing knots have distinct x (pt lies above the low one and not
      above the high one). */
  function CurveWeight(curve: seq<EffPoint>, pt: real, shift: real): Weight
    requires |curve| > 0
  {
    var b := BracketOf(curve, pt);
    if b.low == b.high then NaN
    else
      assert curve[b.low].x < pt <= curve[b.high].x;
      Finite(Interpolate(curve[b.low], curve[b.high], pt, shift))
  }

  /** `getWeight` on the loaded curves: an unknown category weighs 1. */
  function WeightOf(curves: map<string, seq<EffPoint>>, pt: real, cat: string, shift: real): Weight
    requires cat in curves ==> |curves[cat]| > 0
  {
    if cat in curves then CurveWeight(curves[cat], pt, shift) else Finite(1.0)
  }

  lemma UnknownCategoryWeighsOne(curves: map<string, seq<EffPoint>>, pt: real, cat: string, shift: real)
    requires cat !in curves
    ensures WeightOf(curves, pt, cat, shift) == Finite(1.0)
  {
  }

  /** The weight is undefined exactly when pt is not above the first knot or is above
      every knot: the boundary knot is NOT returned, and neither is the first knot's
      value at the first knot itself. */
  lemma CollapsedBracketIsNaN(curve: seq<EffPoint>, pt: real, shift: real)
    requires |curve| > 0
    ensures CurveWeight(curve, pt, shift) == NaN <==>
      (pt <= curve[0].x || forall j :: 0 <= j < |curve| ==> pt > curve[j].x)
  {
    if forall j :: 0 <= j < |curve| ==> pt > curve[j].x {
      LeadingBelowUnique(curve, pt, |curve|);
    }
  }

  /** Inside the span of the curve the bracket is the pair of neighbouring knots k-1, k
      with x[k-1] < pt <= x[k], and the weight is their interpolation. */
  lemma InteriorWeightInterpolates(curve: seq<EffPoint>, pt: real, shift: real)
    requires |curve| > 0
    requires curve[0].x < pt <= curve[|curve| - 1].x
    ensures exists k :: (1 <= k < |curve| && curve[k - 1].x < pt <= curve[k].x
      && (forall j :: 0 <= j < k ==> pt > curve[j].x)
      && CurveWeight(curve, pt, shift) == Finite(Interpolate(curve[k - 1], curve[k], pt, shift)))
  {
    var k := LeadingBelow(curve, pt);
    assert k != 0;
    assert !(pt > curve[|curve| - 1].x);
    assert k != |curve|;
    assert CurveWeight(curve, pt, shift) == Finite(Interpolate(curve[k - 1], curve[k], pt, shift));
  }

  /** At any knot but the first of an increasing curve the weight is that knot's ratio
      plus shift times its one-sided error. */
  lemma KnotWeight(curve: seq<EffPoint>, k: nat, shift: real)
    requires Increasing(curve) && 1 <= k < |curve|
    ensures CurveWeight(curve, curve[k].x, shift) == Finite(curve[k].y + shift * OneSidedError(curve[k], shift))
  {
    var pt := curve[k].x;
    LeadingBelowUnique(curve, pt, k);
    var lo, hi := curve[k - 1], curve[k];
    var d := hi.x - lo.x;
    assert d > 0.0;
    assert (hi.y - lo.y) / d * d == hi.y - lo.y;
    var eLo, eHi := OneSidedError(lo, shift), OneSidedError(hi, shift);
    assert (eHi - eLo) / d * d == eHi - eLo;
  }

  /** The first knot itself falls in the collapsed case. */
  lemma FirstKnotIsNaN(curve: seq<EffPoint>, shift: real)
    requires |curve| > 0
    ensures CurveWeight(curve, curve[0].x, shift) == NaN
  {
  }

  /** The nominal weight inside the span lies between the ratios of the two neighbouring knots. */
  lemma NominalWeightBetweenNeighbours(curve: seq<EffPoint>, pt: real)
    requires |curve| > 0
    requires curve[0].x < pt <= curve[|curve| - 1].x
    ensures var b := BracketOf(curve, pt);
      var yl, yh := curve[b.low].y, curve[b.high].y;
      && CurveWeight(curve, pt, 0.0).Finite?
      && (yl <= CurveWeight(curve, pt, 0.0).value <= yh || yh <= CurveWeight(curve, pt, 0.0).value <= yl)
  {
    InteriorWeightInterpolates(curve, pt, 0.0);
    var b := BracketOf(curve, pt);
    assert b.low < b.high;
    NominalInterpolationBetween(curve[b.low], curve[b.high], pt);
  }

  /** Nominal two-point interpolation at a point of (x_lo, x_hi] stays between the two ratios. */
  lemma NominalInterpolationBetween(lo: EffPoint, hi: EffPoint, pt: real)
    requires lo.x < pt <= hi.x
    ensures lo.y <= Interpolate(lo, hi, pt, 0.0) <= hi.y || hi.y <= Interpolate(lo, hi, pt, 0.0) <= lo.y
  {
    var a, d, u := hi.y - lo.y, hi.x - lo.x, pt - lo.x;
    FractionOfSpan(u, d);
    var t := u / d;
    assert a / d * u == a * t;
    ScaleByFraction(a, t);
    assert Interpolate(lo, hi, pt, 0.0) == lo.y + a / d * u;
  }

  lemma FractionOfSpan(a: real, d: real)
    requires 0.0 < a <= d
    ensures 0.0 < a / d <= 1.0
  {
  }

  lemma ScaleByFraction(a: real, t: real)
    requires 0.0 < t <= 1.0
    ensures a >= 0.0 ==> 0.0 <= a * t <= a
    ensures a < 0.0 ==> a <= a * t <= 0.0
  {
    assert a - a * t == a * (1.0 - t);
  }

  /** A two-knot curve for EBHighR9 queried halfway between its knots at shift +1:
      ratio 0.96 plus the interpolated upper error 0.015. */
  lemma WeightExample()
    ensures CurveWeight([EffPoint(10.0, 0.95, 0.02, 0.01), EffPoint(50.0, 0.97, 0.01, 0.01)], 30.0, 1.0)
            == Finite(0.975)
  {
    var curve := [EffPoint(10.0, 0.95, 0.02, 0.01), EffPoint(50.0, 0.97, 0.01, 0.01)];
    LeadingBelowUnique(curve, 30.0, 1);
  }

  // ---------------------------------------------------------------------------------
  // Loading guard

  /** What `initEfficiency` does before touching the file. */
  datatype InitDecision = AlreadyLoaded | Refused | Load

  /** The guards of `initEfficiency`, in their order: curves already present succeed;
      then energy smearing being active, efficiencies being off, an empty curve name
      and an empty file name each refuse. */
  function EfficiencyInitDecision(loaded: bool, doEnergy: bool, doEfficiencies: bool,
                                  effName: string, efficiencyFile: string): InitDecision
  {
    if loaded then AlreadyLoaded
    else if doEnergy then Refused
    else if !doEfficiencies then Refused
    else if effName == "" then Refused
    else if efficiencyFile == "" then Refused
    else Load
  }

  /** The file is read exactly when nothing is loaded yet and every check passes; the
      call succeeds exactly when curves were already there or get loaded. */
  lemma InitDecisionCases(loaded: bool, doEnergy: bool, doEfficiencies: bool, effName: string, efficiencyFile: string)
    ensures EfficiencyInitDecision(loaded, doEnergy, doEfficiencies, effName, efficiencyFile) == Load
      <==> !loaded && !doEnergy && doEfficiencies && effName != "" && efficiencyFile != ""
    ensures EfficiencyInitDecision(loaded, doEnergy, doEfficiencies, effName, efficiencyFile) == Refused
      <==> !loaded && (doEnergy || !doEfficiencies || effName == "" || efficiencyFile == "")
  {
  }
}
