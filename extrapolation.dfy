/**
 * The extrapolation wrapper (`EnergySmearerExtrapolation`): it keeps a snapshot of a
 * target smearer's parameters, and on each call overwrites the target's stochastic width
 * for the photon's category with the snapshot's width moved by the shift, zeroes the
 * target's error for it, and forces the target to recompute.
 */
module Extrapolation {
  import opened Wrappers
  import opened Numerics
  import opened Categories
  import opened Parameters
  import opened Photons
  import opened Classification
  import opened Resolution
  import opened Efficiency
  import opened Smearing

  // ---------------------------------------------------------------------------------
  // Key order: `std::map<std::string, float>` visits its keys in increasing
  // lexicographic order of their characters.

  /** `a` sorts strictly before `b`. */
  predicate LexLess(a: string, b: string) {
    if |a| == 0 then |b| > 0
    else if |b| == 0 then false
    else a[0] < b[0] || (a[0] == b[0] && LexLess(a[1..], b[1..]))
  }

  lemma {:induction false} LexIrreflexive(a: string)
    ensures !LexLess(a, a)
  {
    if |a| > 0 {
      LexIrreflexive(a[1..]);
    }
  }

  lemma {:induction false} LexTransitive(a: string, b: string, c: string)
    requires LexLess(a, b) && LexLess(b, c)
    ensures LexLess(a, c)
  {
    if |a| > 0 && |b| > 0 && |c| > 0 && a[0] == b[0] == c[0] {
      LexTransitive(a[1..], b[1..], c[1..]);
    }
  }

  /** Any two distinct strings are ordered one way or the other. */
  lemma {:induction false} LexTotal(a: string, b: string)
    requires a != b
    ensures LexLess(a, b) || LexLess(b, a)
  {
    if |a| > 0 && |b| > 0 && a[0] == b[0] {
      assert a == a[..1] + a[1..] && b == b[..1] + b[1..];
      LexTotal(a[1..], b[1..]);
    }
  }

  /** A non-empty set of keys has a first key in map order. */
  lemma {:induction false} FirstKeyExists(s: set<string>) returns (first: string)
    requires s != {}
    ensures first in s && forall k :: k in s ==> !LexLess(k, first)
  {
    var x :| x in s;
    if s == {x} {
      LexIrreflexive(x);
      first := x;
    } else {
      var rest := FirstKeyExists(s - {x});
      if LexLess(x, rest) {
        forall k | k in s
          ensures !LexLess(k, x)
        {
          if k == x {
            LexIrreflexive(x);
          } else if LexLess(k, x) {
            LexTransitive(k, x, rest);
          }
        }
        first := x;
      } else {
        first := rest;
      }
    }
  }

  /** A pivot entry counts for the pre-selection: no pre-selection, or a pre-selection
      category dominating the first category of that name. */
  predicate Qualifies(snapshot: Parameters, presel: seq<PhotonCategory>, key: string) {
    |presel| == 0 ||
    match FirstNamed(snapshot.photonCategories, key)
    case None => false
    case Some(i) => AnyDominates(presel, snapshot.photonCategories[i])
  }

  /** `needed_`: some qualifying pivot entry is non-zero. */
  predicate ExtrapolationNeeded(snapshot: Parameters, presel: seq<PhotonCategory>) {
    exists key :: key in snapshot.smearingStochasticPivot && snapshot.smearingStochasticPivot[key] != 0.0 &&
      Qualifies(snapshot, presel, key)
  }

  /** The constructor's scan reaches `key`: no key before it in map order is a non-zero
      qualifying entry (the scan stops at the first one). */
  predicate ScanReaches(snapshot: Parameters, presel: seq<PhotonCategory>, key: string) {
    forall k :: k in snapshot.smearingStochasticPivot && LexLess(k, key) ==>
      !(snapshot.smearingStochasticPivot[k] != 0.0 && Qualifies(snapshot, presel, k))
  }

  /** What the constructor asserts: with a pre-selection, every pivot key the scan reaches
      names a category. */
  predicate ReachedKeysNamed(snapshot: Parameters, presel: seq<PhotonCategory>) {
    |presel| > 0 ==>
      forall key :: key in snapshot.smearingStochasticPivot && ScanReaches(snapshot, presel, key) ==>
        FirstNamed(snapshot.photonCategories, key).Some?
  }

  /** The scan stops at the first qualifying non-zero entry, so a key sorting after it
      need not name a category: with "A" named and dominated by the pre-selection, an
      unnamed "Z" is never looked up, and the extrapolation is needed. */
  lemma UnnamedLaterKeyAccepted(p: Parameters, c: PhotonCategory)
    requires c.name == "A" && p.photonCategories == [c]
    requires p.smearingStochasticPivot == map["A" := 1.0, "Z" := 0.0]
    ensures FirstNamed(p.photonCategories, "Z").None?
    ensures ReachedKeysNamed(p, [c])
    ensures ExtrapolationNeeded(p, [c])
  {
    DominatesReflexive(c);
    assert FirstNamed(p.photonCategories, "A") == Some(0);
    assert Qualifies(p, [c], "A");
    assert LexLess("A", "Z");
    assert !ScanReaches(p, [c], "Z");
  }

  /** The target parameters after a call for `cat`: the stochastic error of `cat` is zero
      and its stochastic width is the snapshot's, moved by `shift` snapshot errors. */
  function Overridden(p: Parameters, snapshot: Parameters, cat: string, shift: real): Parameters
    requires cat in snapshot.smearingStochasticSigma && cat in snapshot.smearingStochasticSigmaError
  {
    p.(smearingStochasticSigmaError := p.smearingStochasticSigmaError[cat := 0.0],
       smearingStochasticSigma := p.smearingStochasticSigma[cat :=
         snapshot.smearingStochasticSigma[cat] + shift * snapshot.smearingStochasticSigmaError[cat]])
  }

  /** The override keeps the constructor's checks satisfied. */
  lemma OverrideKeepsValid(p: Parameters, snapshot: Parameters, cat: string, shift: real)
    requires ValidParameters(p)
    requires cat in snapshot.smearingStochasticSigma && cat in snapshot.smearingStochasticSigmaError
    ensures ValidParameters(Overridden(p, snapshot, cat, shift))
  {
    var q := Overridden(p, snapshot, cat, shift);
    assert Normalize(q) == Normalize(p).(smearingStochasticSigmaError := q.smearingStochasticSigmaError,
                                         smearingStochasticSigma := q.smearingStochasticSigma);
  }

  /** Because the override reads only the snapshot, the last call wins: applying it
      again, with any earlier shift, gives the result of the last call alone. */
  lemma LastOverrideWins(p: Parameters, snapshot: Parameters, cat: string, s1: real, s2: real)
    requires cat in snapshot.smearingStochasticSigma && cat in snapshot.smearingStochasticSigmaError
    ensures Overridden(Overridden(p, snapshot, cat, s1), snapshot, cat, s2) == Overridden(p, snapshot, cat, s2)
  {
  }

  /** After the override the target's stochastic component for `cat` no longer moves
      with the target's own shift: it is the snapshot's component at the extrapolation
      shift, and the constant component is untouched. */
  lemma OverrideFreezesStochasticTerm(p: Parameters, snapshot: Parameters, cat: string, shift: real, targetShift: real)
    requires SigmaKeys(p, cat)
    requires cat in snapshot.smearingStochasticSigma && cat in snapshot.smearingStochasticSigmaError
    ensures SigmaKeys(Overridden(p, snapshot, cat, shift), cat)
    ensures ShiftedTerms(Overridden(p, snapshot, cat, shift), cat, targetShift).constant ==
      ShiftedTerms(p, cat, targetShift).constant
    ensures ShiftedTerms(Overridden(p, snapshot, cat, shift), cat, targetShift).stochastic ==
      snapshot.smearingStochasticSigma[cat] + shift * snapshot.smearingStochasticSigmaError[cat]
  {
    var q := Overridden(p, snapshot, cat, shift);
    assert q.smearingStochasticSigmaError[cat] == 0.0;
    assert q.smearingStochasticSigma[cat] == snapshot.smearingStochasticSigma[cat] + shift * snapshot.smearingStochasticSigmaError[cat];
  }

  /** The scan over the pre-selection for a category dominating `c`. */
  method FindDominating(presel: seq<PhotonCategory>, c: PhotonCategory) returns (found: bool)
    ensures found == AnyDominates(presel, c)
  {
    found := false;
    var j := 0;
    while j < |presel|
      invariant 0 <= j <= |presel|
      invariant forall i :: 0 <= i < j ==> !Dominates(presel[i], c)
    {
      if Dominates(presel[j], c) {
        return true;
      }
      j := j + 1;
    }
  }

  class EnergySmearerExtrapolation {
    const target: EnergySmearer
    const name: string
    /** `myParameters_`: the target's parameters when the wrapper was built. */
    const snapshot: Parameters
    const needed: bool

    /** The constructor: the scan over the pivot entries in map order stops at the first
        non-zero entry that qualifies for the target's pre-selection, which makes the
        extrapolation needed.  With a pre-selection each key it reaches must name a
        category (the source asserts this). */
    constructor (smearer: EnergySmearer)
      requires ReachedKeysNamed(smearer.params, smearer.presel)
      ensures target == smearer && name == smearer.name + "_extra" && snapshot == smearer.params
      ensures needed == ExtrapolationNeeded(snapshot, smearer.presel)
    {
      var snap := smearer.params;
      var pivot := snap.smearingStochasticPivot;
      var presel := smearer.presel;
      var remaining := pivot.Keys;
      var found := false;
      while remaining != {}
        invariant remaining <= pivot.Keys
        invariant forall key :: key in pivot && key !in remaining ==>
          !(pivot[key] != 0.0 && Qualifies(snap, presel, key))
        invariant forall k, k2 :: k in pivot && k !in remaining && k2 in remaining ==> LexLess(k, k2)
        decreases |remaining|
      {
        ghost var first := FirstKeyExists(remaining);
        var key :| key in remaining && forall k :: k in remaining ==> !LexLess(k, key);
        assert ScanReaches(snap, presel, key) by {
          forall k | k in pivot && LexLess(k, key)
            ensures !(pivot[k] != 0.0 && Qualifies(snap, presel, k))
          {
            assert k !in remaining;
          }
        }
        var qualifies := true;
        if |presel| > 0 {
          var icat := FirstNamed(snap.photonCategories, key).value;
          qualifies := FindDominating(presel, snap.photonCategories[icat]);
        }
        assert qualifies == Qualifies(snap, presel, key);
        if qualifies && pivot[key] != 0.0 {
          found := true;
          break;
        }
        forall k2 | k2 in remaining - {key}
          ensures LexLess(key, k2)
        {
          LexTotal(key, k2);
        }
        remaining := remaining - {key};
      }
      target := smearer;
      name := smearer.name + "_extra";
      snapshot := smearer.params;
      needed := found;
    }

    /** `smearPhoton`: classify with the snapshot, override the target's stochastic width
        for that category and raise its one-shot flag.  The photon and the weight are left
        as they are.  A missing automatic category aborts; the snapshot must hold the
        category's stochastic width and error. */
    method SmearPhoton(m: Numerics, pho: Photon, weight: Weight, run: int, shift: real) returns (r: SmearResult, w: Weight)
      requires m.Valid() && target.Valid()
      requires match CategoryName(m, snapshot, pho)
        case None => true
        case Some(c) => c in snapshot.smearingStochasticSigma && c in snapshot.smearingStochasticSigmaError
      modifies target`params, target`forceShift
      ensures target.Valid()
      ensures match CategoryName(m, snapshot, pho)
        case None => r == Aborted
        case Some(cat) =>
          && r == Returned(true) && w == weight && target.forceShift
          && target.params == Overridden(old(target.params), snapshot, cat, shift)
    {
      w := weight;
      var category := CategoryName(m, snapshot, pho);
      if category.None? {
        // the automatic scheme found no category: a fatal error
        return Aborted, w;
      }
      var cat := category.value;
      OverrideKeepsValid(target.params, snapshot, cat, shift);
      target.params := Overridden(target.params, snapshot, cat, shift);
      target.forceShift := true;
      r := Returned(true);
    }
  }
}
