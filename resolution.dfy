/**
 * The numeric rules of the smearer: the scale offset (`getScaleOffset`), the effective
 * smearing width (`getSmearingSigma`) with its rho/phi pivot reparameterisation, the
 * deterministic Gaussian draw, and the formulas of the correction and regression modes.
 */
module Resolution {
  import opened Numerics
  import opened Categories
  import opened Parameters

  // ---------------------------------------------------------------------------------
  // Scale

  /** `getScaleOffset`: one plus the category's offset, from the global table or, in
      run-dependent mode, from the table of the first run range containing the run; a
      category missing from that table gives 0 (the source's `return false`).  A run no
      range contains is outside what the source can handle (it dereferences `end()`). */
  function ScaleOffset(p: Parameters, run: int, cat: string): (r: real)
    requires p.byRun ==> RunCovered(p.scaleOffsetByRun, run)
    ensures !p.byRun ==> r == (if cat in p.scaleOffset then 1.0 + p.scaleOffset[cat] else 0.0)
    ensures p.byRun ==>
      exists k :: 0 <= k < |p.scaleOffsetByRun|
        && ContainsRun(p.scaleOffsetByRun[k], run)
        && (forall j :: 0 <= j < k ==> !ContainsRun(p.scaleOffsetByRun[j], run))
        && r == (var t := p.scaleOffsetByRun[k].scaleOffset; if cat in t then 1.0 + t[cat] else 0.0)
  {
    var table := if p.byRun then p.scaleOffsetByRun[FirstRunRange(p.scaleOffsetByRun, run)].scaleOffset
                 else p.scaleOffset;
    if cat in table then 1.0 + table[cat] else 0.0
  }

  /** The factor the scale mode multiplies the energy by: the scale offset moved by
      `shift` errors, where the error always comes from the global table. */
  function ScaleFactor(p: Parameters, run: int, cat: string, shift: real): real
    requires p.byRun ==> RunCovered(p.scaleOffsetByRun, run)
    requires cat in p.scaleOffsetError
  {
    ScaleOffset(p, run, cat) + shift * p.scaleOffsetError[cat]
  }

  /** A shift moves the scale factor by that many global-table errors, whether or not the
      offset itself is run-dependent. */
  lemma ScaleShiftUsesGlobalError(p: Parameters, run: int, cat: string, shift: real)
    requires p.byRun ==> RunCovered(p.scaleOffsetByRun, run)
    requires cat in p.scaleOffsetError
    ensures ScaleFactor(p, run, cat, shift) - ScaleFactor(p, run, cat, 0.0) == shift * p.scaleOffsetError[cat]
    ensures ScaleFactor(p, run, cat, 0.0) == ScaleOffset(p, run, cat)
  {
  }

  /** A category missing from the offset table leaves only the shift: the factor is
      shift times the global error.  A nominal call gets 0, which the smearer then rejects
      as a zero energy; a shifted call with a non-zero error scales by that product. */
  lemma MissingOffsetGivesZeroFactor(p: Parameters, run: int, cat: string, shift: real)
    requires p.byRun ==> RunCovered(p.scaleOffsetByRun, run)
    requires cat in p.scaleOffsetError
    requires cat !in (if p.byRun then p.scaleOffsetByRun[FirstRunRange(p.scaleOffsetByRun, run)].scaleOffset
                      else p.scaleOffset)
    ensures ScaleFactor(p, run, cat, shift) == shift * p.scaleOffsetError[cat]
    ensures ScaleFactor(p, run, cat, 0.0) == 0.0
  {
  }

  /** A global offset of 0.002 with error 0.001 at shift 2 scales by 1.004. */
  lemma ScaleFactorExample(p: Parameters)
    requires !p.byRun
    requires "EB" in p.scaleOffset && p.scaleOffset["EB"] == 0.002
    requires "EB" in p.scaleOffsetError && p.scaleOffsetError["EB"] == 0.001
    ensures ScaleFactor(p, 0, "EB", 2.0) == 1.004
  {
  }

  // ---------------------------------------------------------------------------------
  // Resolution

  /** The constant (sigma) and stochastic components of the resolution. */
  datatype Terms = Terms(constant: real, stochastic: real)

  /** The four sigma tables `getSmearingSigma` reads all hold the category. */
  predicate SigmaKeys(p: Parameters, cat: string) {
    && cat in p.smearingSigma && cat in p.smearingSigmaError
    && cat in p.smearingStochasticSigma && cat in p.smearingStochasticSigmaError
  }

  /** Both components moved by `shift` times their own error. */
  function ShiftedTerms(p: Parameters, cat: string, shift: real): Terms
    requires SigmaKeys(p, cat)
  {
    Terms(p.smearingSigma[cat] + shift * p.smearingSigmaError[cat],
          p.smearingStochasticSigma[cat] + shift * p.smearingStochasticSigmaError[cat])
  }

  /** The angle of the polar encoding: the stochastic component clamped into [0, pi/2]. */
  function PivotAngle(m: Numerics, t: Terms): (phi: real)
    requires m.Valid()
    ensures 0.0 <= phi <= m.halfPi
    ensures 0.0 <= t.stochastic <= m.halfPi ==> phi == t.stochastic
    ensures t.stochastic < 0.0 ==> phi == 0.0
    ensures t.stochastic > m.halfPi ==> phi == m.halfPi
  {
    Clamp(0.0, m.halfPi, t.stochastic)
  }

  /** Reading (constant, stochastic) as (rho, phi) around a pivot. */
  function PivotTerms(m: Numerics, t: Terms, pivot: real): Terms
    requires m.Valid()
  {
    var phi := PivotAngle(m, t);
    var rho := t.constant;
    Terms(rho * m.sin(phi), rho * pivot * m.cos(phi))
  }

  /** The components after the shift and, when the category has a pivot entry, after the
      polar reparameterisation.  The presence of the key decides, not its value. */
  function EffectiveTerms(m: Numerics, p: Parameters, cat: string, shift: real): Terms
    requires m.Valid() && SigmaKeys(p, cat)
  {
    var t := ShiftedTerms(p, cat, shift);
    if cat in p.smearingStochasticPivot then PivotTerms(m, t, p.smearingStochasticPivot[cat]) else t
  }

  /** The energy the stochastic term scales with: transverse energy when `etStochastic`. */
  function StochasticEnergy(m: Numerics, p: Parameters, energy: real, eta: real): (e: real)
    requires m.Valid()
    ensures p.etStochastic ==> e * m.cosh(eta) == energy
    ensures !p.etStochastic ==> e == energy
  {
    if p.etStochastic then energy / m.cosh(eta) else energy
  }

  /** Squared constant term plus squared stochastic term over the energy. */
  function QuadratureSum(t: Terms, e: real): real
    requires e != 0.0
  {
    t.constant * t.constant + t.stochastic * t.stochastic / e
  }

  /** `getSmearingSigma`: the square root of the quadrature sum, clamped at zero.  The
      energy the stochastic term is divided by must not vanish (the source would
      produce an infinite or undefined width). */
  function SmearingSigma(m: Numerics, p: Parameters, cat: string, energy: real, eta: real, shift: real): (r: real)
    requires m.Valid() && SigmaKeys(p, cat)
    requires StochasticEnergy(m, p, energy, eta) != 0.0
    ensures r >= 0.0
  {
    var s := m.sqrt(QuadratureSum(EffectiveTerms(m, p, cat, shift), StochasticEnergy(m, p, energy, eta)));
    if s < 0.0 then 0.0 else s
  }

  /** For a positive energy the width is the quadrature sum of the effective components:
      its square is sigma^2 + stochastic^2 / E. */
  lemma SmearingSigmaIsQuadrature(m: Numerics, p: Parameters, cat: string, energy: real, eta: real, shift: real)
    requires m.Valid() && SigmaKeys(p, cat)
    requires StochasticEnergy(m, p, energy, eta) > 0.0
    ensures var t := EffectiveTerms(m, p, cat, shift);
      var r := SmearingSigma(m, p, cat, energy, eta, shift);
      r * r == t.constant * t.constant + t.stochastic * t.stochastic / StochasticEnergy(m, p, energy, eta)
  {
    var t := EffectiveTerms(m, p, cat, shift);
    var e := StochasticEnergy(m, p, energy, eta);
    assert t.stochastic * t.stochastic >= 0.0;
    assert t.stochastic * t.stochastic / e >= 0.0;
    assert QuadratureSum(t, e) >= 0.0;
  }

  /** Without a pivot entry both components are simply moved by their errors. */
  lemma TermsWithoutPivot(m: Numerics, p: Parameters, cat: string, shift: real)
    requires m.Valid() && SigmaKeys(p, cat) && cat !in p.smearingStochasticPivot
    ensures EffectiveTerms(m, p, cat, shift).constant == p.smearingSigma[cat] + shift * p.smearingSigmaError[cat]
    ensures EffectiveTerms(m, p, cat, shift).stochastic ==
      p.smearingStochasticSigma[cat] + shift * p.smearingStochasticSigmaError[cat]
  {
  }

  /** With a pivot entry p the shifted pair is (rho, phi) with phi clamped into [0, pi/2],
      and the components become rho sin(phi) and rho p cos(phi). */
  lemma TermsWithPivot(m: Numerics, p: Parameters, cat: string, shift: real)
    requires m.Valid() && SigmaKeys(p, cat) && cat in p.smearingStochasticPivot
    ensures
      var rho := p.smearingSigma[cat] + shift * p.smearingSigmaError[cat];
      var phi := Clamp(0.0, m.halfPi, p.smearingStochasticSigma[cat] + shift * p.smearingStochasticSigmaError[cat]);
      && 0.0 <= phi <= m.halfPi
      && EffectiveTerms(m, p, cat, shift).constant == rho * m.sin(phi)
      && EffectiveTerms(m, p, cat, shift).stochastic == rho * p.smearingStochasticPivot[cat] * m.cos(phi)
  {
    var rho := p.smearingSigma[cat] + shift * p.smearingSigmaError[cat];
    var stoch := p.smearingStochasticSigma[cat] + shift * p.smearingStochasticSigmaError[cat];
    var pivot := p.smearingStochasticPivot[cat];
    var t := ShiftedTerms(p, cat, shift);
    assert t == Terms(rho, stoch);
    var phi := Clamp(0.0, m.halfPi, stoch);
    assert PivotAngle(m, t) == phi;
    var e := EffectiveTerms(m, p, cat, shift);
    assert e == PivotTerms(m, t, pivot);
    assert e == Terms(rho * m.sin(phi), rho * pivot * m.cos(phi));
  }

  /** A pivot entry that is zero still switches on the reparameterisation: the stochastic
      component vanishes rather than keeping its table value. */
  lemma ZeroPivotStillReparameterises(m: Numerics, p: Parameters, cat: string, shift: real)
    requires m.Valid() && SigmaKeys(p, cat)
    requires cat in p.smearingStochasticPivot && p.smearingStochasticPivot[cat] == 0.0
    ensures EffectiveTerms(m, p, cat, shift).stochastic == 0.0
  {
  }

  /** When both errors are zero the shift does not change the width. */
  lemma WidthIgnoresShiftWithoutErrors(m: Numerics, p: Parameters, cat: string, energy: real, eta: real, s1: real, s2: real)
    requires m.Valid() && SigmaKeys(p, cat)
    requires StochasticEnergy(m, p, energy, eta) != 0.0
    requires p.smearingSigmaError[cat] == 0.0 && p.smearingStochasticSigmaError[cat] == 0.0
    ensures SmearingSigma(m, p, cat, energy, eta, s1) == SmearingSigma(m, p, cat, energy, eta, s2)
  {
    assert ShiftedTerms(p, cat, s1) == ShiftedTerms(p, cat, s2);
  }

  /** A category without pivot and without stochastic term is smeared by the magnitude of
      its (shifted) constant term. */
  lemma ConstantTermOnlyWidth(m: Numerics, p: Parameters, cat: string, energy: real, eta: real, shift: real)
    requires m.Valid() && SigmaKeys(p, cat) && cat !in p.smearingStochasticPivot
    requires StochasticEnergy(m, p, energy, eta) != 0.0
    requires p.smearingStochasticSigma[cat] == 0.0 && p.smearingStochasticSigmaError[cat] == 0.0
    ensures SmearingSigma(m, p, cat, energy, eta, shift) == Abs(p.smearingSigma[cat] + shift * p.smearingSigmaError[cat])
  {
    var c := p.smearingSigma[cat] + shift * p.smearingSigmaError[cat];
    var e := StochasticEnergy(m, p, energy, eta);
    var t := EffectiveTerms(m, p, cat, shift);
    assert t == Terms(c, 0.0);
    assert QuadratureSum(t, e) == c * c;
    var r := SmearingSigma(m, p, cat, energy, eta, shift);
    assert r == m.sqrt(c * c);
    assert r * r == Abs(c) * Abs(c);
    SquareRootUnique(r, Abs(c));
  }

  /** Two non-negative numbers with equal squares are equal. */
  lemma SquareRootUnique(a: real, b: real)
    requires a >= 0.0 && b >= 0.0 && a * a == b * b
    ensures a == b
  {
    if a < b {
      SquareStrictlyMonotone(a, b);
    } else if b < a {
      SquareStrictlyMonotone(b, a);
    }
  }

  lemma SquareStrictlyMonotone(a: real, b: real)
    requires 0.0 <= a < b
    ensures a * a < b * b
  {
    var d := b - a;
    assert b * b == a * a + 2.0 * a * d + d * d;
    assert d * d > 0.0;
    assert a * d >= 0.0;
  }

  // ---------------------------------------------------------------------------------
  // Deterministic Gaussian smearing

  /** The reflected index: a negative n becomes 1 - n. */
  function ReflectedIndex(n: int): nat {
    if n < 0 then 1 - n else n
  }

  /** The seed index of a shift: its rounded value, reflected. */
  function SeedIndex(m: Numerics, shift: real): nat {
    ReflectedIndex(m.round(shift))
  }

  /** Two rounded shifts share a seed index exactly when they are equal or when they
      are n and 1 - n for some n >= 2. */
  lemma ReflectedIndexCollisions(a: int, b: int)
    ensures ReflectedIndex(a) == ReflectedIndex(b) <==> a == b || (a + b == 1 && (a >= 2 || b >= 2))
  {
  }

  /** Shifts +2 and -1 both smear with seed number 2. */
  lemma PlusTwoAndMinusOneShareSeed(m: Numerics)
    requires m.Valid()
    ensures SeedIndex(m, 2.0) == 2 && SeedIndex(m, -1.0) == 2
  {
    assert 2.0 == (2.0).Floor as real;
    assert -1.0 == (-1.0).Floor as real;
  }

  /** The multiplicative smearing factor and the generator state after it: exactly 1,
      without touching the generator, when the width is not positive; otherwise a draw
      of mean 1 and that width, from a generator reseeded with `baseSeed` plus the
      photon's seed of that index when the photon has one. */
  function SmearDraw(m: Numerics, g: Generator, sigma: real, shift: real, seeds: seq<int>, baseSeed: int): (d: Draw)
    ensures sigma <= 0.0 ==> d == Draw(1.0, g)
    ensures sigma > 0.0 && SeedIndex(m, shift) < |seeds| ==>
      var seed := baseSeed + seeds[SeedIndex(m, shift)];
      d.value - 1.0 == sigma * m.gauss(seed, 0) && d.next == Generator(seed, 1)
    ensures sigma > 0.0 && SeedIndex(m, shift) >= |seeds| ==>
      d.value - 1.0 == sigma * m.gauss(g.seed, g.draws) && d.next == Generator(g.seed, g.draws + 1)
  {
    if sigma > 0.0 then
      var n := SeedIndex(m, shift);
      var g1 := if n < |seeds| then Seeded(baseSeed + seeds[n]) else g;
      Gaus(m, g1, 1.0, sigma)
    else
      Draw(1.0, g)
  }

  /** The draw is reproducible: whatever state the generator was left in, a photon with a
      seed for this shift gets the same factor and leaves the generator in the same state. */
  lemma SmearDrawReproducible(m: Numerics, g1: Generator, g2: Generator, sigma: real, shift: real, seeds: seq<int>, baseSeed: int)
    requires SeedIndex(m, shift) < |seeds| || sigma <= 0.0
    ensures SmearDraw(m, g1, sigma, shift, seeds, baseSeed).value == SmearDraw(m, g2, sigma, shift, seeds, baseSeed).value
    ensures sigma > 0.0 ==> SmearDraw(m, g1, sigma, shift, seeds, baseSeed).next == SmearDraw(m, g2, sigma, shift, seeds, baseSeed).next
  {
  }

  // ---------------------------------------------------------------------------------
  // Correction and regression modes

  /** The MC-corrected energy moved by `shift` times `corrRelErr` of the correction. */
  function CorrectedEnergy(corrEnergy: real, energy: real, corrRelErr: real, shift: real): real {
    corrEnergy + shift * corrRelErr * (corrEnergy - energy)
  }

  /** Nominally the corrected energy is used as is, and opposite shifts move it
      symmetrically by `corrRelErr` times the correction per unit. */
  lemma CorrectedEnergyShift(corrEnergy: real, energy: real, corrRelErr: real, shift: real)
    ensures CorrectedEnergy(corrEnergy, energy, corrRelErr, 0.0) == corrEnergy
    ensures CorrectedEnergy(corrEnergy, energy, corrRelErr, shift) + CorrectedEnergy(corrEnergy, energy, corrRelErr, -shift)
            == 2.0 * corrEnergy
    ensures CorrectedEnergy(corrEnergy, energy, corrRelErr, shift) - corrEnergy
            == shift * corrRelErr * (corrEnergy - energy)
  {
  }

  /** The regression resolution after the +-10% per unit shift; the barrel branch
      (|eta| < 1.5) and the endcap branch are written separately and are identical. */
  function RegressionSigma(rawCorrEnergyErr: real, eta: real, shift: real): real {
    if Abs(eta) < 1.5 then rawCorrEnergyErr * (1.0 + shift * 0.1)
    else rawCorrEnergyErr * (1.0 + shift * 0.1)
  }

  /** Both branches agree: the new resolution does not depend on eta, and is the raw
      estimate scaled by 1 + 0.1 shift. */
  lemma RegressionSigmaIgnoresEta(raw: real, eta1: real, eta2: real, shift: real)
    ensures RegressionSigma(raw, eta1, shift) == RegressionSigma(raw, eta2, shift)
    ensures RegressionSigma(raw, eta1, shift) - raw == 0.1 * shift * raw
  {
  }
}
