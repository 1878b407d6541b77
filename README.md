# Photon energy smearer — a Dafny model

This project models the photon energy-smearing engine of a diphoton analysis.
`EnergySmearer` rescales, smears or corrects the energy of one reconstructed photon,
depending on its configuration:

- **scale mode**: multiplies the energy by a per-category, optionally run-dependent,
  scale factor;
- **smear mode**: multiplies the energy by a Gaussian factor whose width combines a
  constant and a stochastic term;
- **correction mode**: blends in an MC-corrected energy;
- **regression mode**: rescales the photon's resolution estimate.

Systematic variations are requested by a shift, measured in units of the tabulated errors.
A nominal (zero-shift) scale or smear factor is cached on the photon under the engine's
identity, so later nominal calls reuse it.

An optional efficiency re-weighting interpolates per-category efficiency-ratio curves at
the photon's transverse energy. The `EnergySmearerExtrapolation` wrapper takes a snapshot
of a target engine's parameters. On each call it overwrites the target's stochastic width
for the photon's category with the snapshot's width moved by the shift, and forces the
target to recompute.

Modules, one per concern:

| file | module | contents |
|---|---|---|
| `wrappers.dfy` | `Wrappers` | `Option` |
| `numerics.dfy` | `Numerics` | the C library and generator functions as abstract functions with the axioms the engine relies on; `Abs`, `Clamp`; the generator state and its Gaussian draw |
| `categories.dfy` | `Categories` | `PhotonCategory` membership, dominance and equality; `EnergyScaleOffset` run ranges; the `std::find` searches |
| `parameters.dfy` | `Parameters` | `energySmearingParameters` and the constructor's consistency checks |
| `photon.dfy` | `Photons` | the photon the engine reads and writes (a class: energy, resolution estimate and cache change in place) |
| `classification.dfy` | `Classification` | `photonCategory` for each category scheme |
| `resolution.dfy` | `Resolution` | `getScaleOffset`, `getSmearingSigma`, the seeded smear draw, the correction and regression formulas |
| `efficiency.dfy` | `Efficiency` | efficiency curves, the `getWeight` bracket and interpolation, the `initEfficiency` guards |
| `smearer.dfy` | `Smearing` | the `EnergySmearer` class: constructors, setters, `initEfficiency`, `getWeight` as a loop, and `smearPhoton` as a staged method proved against the pure `SmearOutcome` |
| `extrapolation.dfy` | `Extrapolation` | the `EnergySmearerExtrapolation` class |

How the model is built:

- **Numeric library.** `cosh`, `sin`, `cos`, `sqrt`, `round`, pi/2 and the Gaussian
  generator are fields of a `Numerics` value. Its `Valid()` holds only these facts:
  - `cosh > 0`;
  - `sqrt` is non-negative and squares back on non-negative input;
  - `round` is exact on integer values;
  - `pi/2 > 0`.
- **Generator.** A `TRandom3` is modelled by its seed and the number of draws since
  seeding. `gauss(seed, k)` is the k-th standard-normal deviate after seeding.
- **`smearPhoton` contract.** The method states its effect as
  `Reached(old(SmearOutcome(...)), pho, r, w)`: the result, and, unless it aborts, the new
  photon state, generator state and weight are the ones the pure outcome function names.
  The lemmas after the class are proved about that function.
- **Fatal assertions.** The no-automatic-category `assert(0)` and the zero-energy
  `assert(newEnergy != 0.)` become the result `Aborted`. After an abort the model leaves
  the state unspecified.
- **Missing map keys.** Looking up a key a table does not hold, or a run no range
  contains, dereferences `end()` in the source. In the model these become preconditions,
  stated only on the paths that reach the lookup.

Behaviours of the code that its names and comments do not suggest, which the model keeps:

- For a query outside the knots of an efficiency curve, `getWeight` does not return the
  boundary knot's ratio. The collapsed bracket divides 0 by 0, so the weight is NaN
  (`Weight.NaN`; see `Efficiency.CollapsedBracketIsNaN`). The query at the first knot
  itself is NaN too.
- The run-dependent category schemes (`2CatR9_EBEE_ByRun`, `2CatR9_EBEBm4EE_ByRun`) pass
  the constructor's checks, but `photonCategory` gives them the empty name. A call that
  gets past the syst-only exit, the cache and the pre-selection then returns false. A
  photon outside a non-empty pre-selection still returns true, before it is categorised.
- A category missing from the scale offset table makes `getScaleOffset` return `false`,
  which is 0. The scale factor is then only the shift times the global error
  (`Resolution.MissingOffsetGivesZeroFactor`). A nominal call, or one with a zero error,
  gets a new energy of 0 and aborts. A shifted call with a non-zero error scales the
  energy by that product and returns true.
- The header comment on the pivot table (EnergySmearer.h:115-118) says the rho/phi
  reading applies when the pivot is non-zero. The code applies it whenever the category
  has an entry, even a zero one (`Resolution.ZeroPivotStillReparameterises`).

## Model

| member | source | states |
|---|---|---|
| Categories.Accepts | EnergySmearer.h:59-65 | definition: a photon is in a category iff its gap flag suits the gap type and its \|eta\|, r9 and transverse energy lie within the inclusive bounds |
| Categories.Dominates | EnergySmearer.h:53-57 | definition: a dominates b iff a's gap type is any or b's, and each of b's ranges lies inside a's |
| Categories.GapAccepts | EnergySmearer.h:59-65 | definition: gap type any admits every photon, nogap only photons away from a gap, gap only photons at one |
| Categories.SameCategory | EnergySmearer.h:48-52 | definition: the field-by-field comparison of gap type, six bounds and name |
| Categories.HasName | EnergySmearer.h:58 | definition: a category compares equal to a string iff its name is that string |
| Categories.HasBounds | EnergySmearer.h:20 | definition: a range compares equal to a pair iff its first and last runs are the pair's |
| Categories.AnyAccepts | EnergySmearer.cc:188-193 | definition: some category of the list accepts the coordinates |
| Categories.AnyDominates | EnergySmearer.cc:383-389 | definition: some category of the list dominates the given one |
| Categories.ContainsRun | EnergySmearer.h:19 | definition: a run is in a range iff it is at least the first run and, unless the last run is negative, at most the last run |
| Categories.OpenEndedRange | EnergySmearer.h:19 | a negative last run makes a range contain exactly the runs from its first run on |
| Categories.ClosedRange | EnergySmearer.h:19 | a non-negative last run makes a range the closed interval [firstrun, lastrun] |
| Categories.FirstRunContained | EnergySmearer.h:19 | a range contains its first run iff it is open-ended or not inverted |
| Categories.SameBoundsSameRuns | EnergySmearer.h:19-20 | a range whose bounds equal another's (the pair comparison) contains exactly the same runs |
| Categories.SameCategoryIsEquality | EnergySmearer.h:48-52 | the field-by-field category comparison (type, six bounds, name) is exactly equality |
| Categories.NameComparisonIgnoresBounds | EnergySmearer.h:58 | comparing with a string looks only at the name |
| Categories.DominatesReflexive | EnergySmearer.h:53-57 | every category dominates itself |
| Categories.DominatesTransitive | EnergySmearer.h:53-57 | dominance is transitive |
| Categories.DominatesSubsumes | EnergySmearer.h:53-65 | a dominating category accepts every coordinate the dominated one accepts |
| Categories.DominatedListSubsumes | EnergySmearer.h:53-65 | a photon admitted by a list whose members are all dominated by members of another list is admitted by that list |
| Categories.FirstAccepting | EnergySmearer.cc:62-69 | the index of the first category accepting the coordinates, with none before it accepting; None iff no category accepts |
| Categories.FirstNamed | EnergySmearer.cc:379-382 | the index of the first category with the name, with none before it; None iff no category has it |
| Categories.FirstRunRange | EnergySmearer.cc:158 | for a covered run, the first range containing it |
| Parameters.DefaultParameters | EnergySmearer.h:81-87 | a default parameter set has `etStocastic` on, empty scheme, set and file names, and all eleven tables and both lists empty |
| Parameters.DefaultParametersNeedAScheme | EnergySmearer.cc:18-25 | a default parameter set fails the constructor's checks, since its empty scheme name is not accepted |
| Parameters.KnownScheme | EnergySmearer.cc:18-25 | definition: the scheme is one of the six the constructor accepts, with the category count each demands |
| Parameters.ValidParameters | EnergySmearer.cc:16-38 | definition: every constructor check, with the scale tables sized after the Automagic count is adjusted |
| Parameters.Normalize | EnergySmearer.cc:26-28 | the Automagic scheme replaces its category count by the size of its category list; other schemes are unchanged, and nothing else changes |
| Parameters.NormalizeKeepsValid | EnergySmearer.cc:16-38 | parameters that pass the constructor checks still pass them after the count is adjusted, and adjusting is idempotent |
| Parameters.AutomagicSizesAgree | EnergySmearer.cc:16-38 | a valid global-table Automagic set lists as many categories as its sigma and scale tables hold |
| Photons.Photon.Coord | EnergySmearer.cc:189-192 | the category coordinates are (E/cosh\|eta\|, \|eta\|, r9, no-gap), with the transverse energy times cosh\|eta\| equal to E |
| Classification.CategoryName | EnergySmearer.cc:57-116 | definition: the category name under each scheme; None for the Automagic no-match abort, "" for an unknown scheme |
| Classification.AutomagicCategory | EnergySmearer.cc:60-76 | Automagic aborts iff no listed category accepts the photon; otherwise it names the first accepting one |
| Classification.TwoRegionCategory | EnergySmearer.cc:77-88 | `2CatR9_EBEE` gives one of four names, with prefix EB iff iDet == 1 and suffix HighR9 iff r9 >= 0.94 |
| Classification.ThreeRegionCategory | EnergySmearer.cc:89-102 | `2CatR9_EBEBm4EE`: EB below \|eta\| 1 in the barrel, EBm4 above, EE for the endcap and for a barrel photon at exactly 1 |
| Classification.RegionOnlyCategory | EnergySmearer.cc:103-109 | `EBEE` gives EB iff iDet == 1, else EE |
| Classification.UnnamedSchemes | EnergySmearer.cc:110-115 | every other scheme, including the constructor-accepted ByRun schemes, gets the empty name; the fixed schemes never do |
| Resolution.ScaleOffset | EnergySmearer.cc:153-170 | 1 + the category's offset, from the global table or from the first range containing the run when byRun; 0 for a missing category |
| Resolution.ScaleFactor | EnergySmearer.cc:225-227 | definition: the scale offset plus shift times the global-table error |
| Resolution.ScaleShiftUsesGlobalError | EnergySmearer.cc:225-227 | the shift moves the scale factor by shift x the global-table error, even when the offset is run-dependent |
| Resolution.MissingOffsetGivesZeroFactor | EnergySmearer.cc:160-166 | a category missing from the offset table gives the factor shift x global error, so 0 on a nominal call |
| Resolution.ScaleFactorExample | EnergySmearer.cc:225-228 | offset 0.002 with error 0.001 at shift 2 gives factor 1.004 |
| Resolution.ShiftedTerms | EnergySmearer.cc:130-131 | definition: each component is its table value plus shift times its error |
| Resolution.PivotTerms | EnergySmearer.cc:132-137 | definition: with rho the constant component and phi the clamped stochastic one, rho sin(phi) and rho pivot cos(phi) |
| Resolution.PivotAngle | EnergySmearer.cc:133 | phi is the stochastic component clamped into [0, pi/2] |
| Resolution.StochasticEnergy | EnergySmearer.cc:127-129 | the energy is divided by cosh(eta) iff `etStocastic` |
| Resolution.EffectiveTerms | EnergySmearer.cc:125-137 | definition: the shifted components, reparameterised through the pivot when the category has a pivot entry |
| Resolution.SmearingSigma | EnergySmearer.cc:138-143 | the width is never negative |
| Resolution.SmearingSigmaIsQuadrature | EnergySmearer.cc:118-144 | for a positive energy the width squared is constant^2 + stochastic^2 / E of the effective components |
| Resolution.TermsWithoutPivot | EnergySmearer.cc:130-131 | without a pivot entry both components are their table values moved by shift x their errors |
| Resolution.TermsWithPivot | EnergySmearer.cc:132-137 | with a pivot entry the components become rho sin(phi) and rho pivot cos(phi) for the shifted rho and clamped phi |
| Resolution.ZeroPivotStillReparameterises | EnergySmearer.cc:132-137 | a zero pivot entry still applies and zeroes the stochastic component |
| Resolution.WidthIgnoresShiftWithoutErrors | EnergySmearer.cc:130-131 | with both errors zero the width does not depend on the shift |
| Resolution.ConstantTermOnlyWidth | EnergySmearer.cc:127-143 | with no pivot and no stochastic term the width is the magnitude of the shifted constant term |
| Resolution.ReflectedIndex | EnergySmearer.cc:240 | definition: a negative index n becomes 1 - n |
| Resolution.SeedIndex | EnergySmearer.cc:239-240 | definition: the rounded shift, reflected |
| Resolution.ReflectedIndexCollisions | EnergySmearer.cc:239-240 | two rounded shifts share a seed index iff they are equal or n and 1 - n with n >= 2 |
| Resolution.PlusTwoAndMinusOneShareSeed | EnergySmearer.cc:239-240 | shifts +2 and -1 both use seed index 2 |
| Resolution.SmearDraw | EnergySmearer.cc:236-245 | factor exactly 1 with the generator unused when the width is not positive; otherwise 1 + width x the next deviate, after reseeding with baseSeed + the photon's seed iff the index is below the seed count |
| Resolution.SmearDrawReproducible | EnergySmearer.cc:239-244 | with a photon seed for the shift, the factor and the generator state after it do not depend on the generator's previous state |
| Resolution.CorrectedEnergy | EnergySmearer.cc:211-213 | definition: corrE + shift x corrRelErr x (corrE - E) |
| Resolution.RegressionSigma | EnergySmearer.cc:214-222 | definition: both eta branches of the regression resolution, rawCorrEnergyErr x (1 + 0.1 shift) |
| Resolution.CorrectedEnergyShift | EnergySmearer.cc:211-213 | correction mode gives corrE nominally, corrE + shift x corrRelErr x (corrE - E) in general, symmetric in the shift |
| Resolution.RegressionSigmaIgnoresEta | EnergySmearer.cc:214-222 | both eta branches give rawCorrEnergyErr x (1 + 0.1 shift) |
| Efficiency.LeadingBelow | EnergySmearer.cc:328-334 | the scan stops at the first knot with pt <= x: every knot before it is below pt |
| Efficiency.LeadingBelowUnique | EnergySmearer.cc:328-334 | those two properties determine where the scan stops |
| Efficiency.BracketOf | EnergySmearer.cc:335-338 | the bracket indices are ordered and within the curve |
| Efficiency.GraphName | EnergySmearer.cc:299-311 | definition: the file graph of a category is named effName + "_" + category |
| Efficiency.OneSidedError | EnergySmearer.cc:352-354 | definition: the upper error for a positive shift, the lower one otherwise |
| Efficiency.Interpolate | EnergySmearer.cc:357-360 | definition: the two-point interpolated ratio plus shift times the two-point interpolated error |
| Efficiency.CurveWeight | EnergySmearer.cc:335-360 | definition: NaN for a collapsed bracket, else the interpolated ratio plus shift times the interpolated one-sided error |
| Efficiency.WeightOf | EnergySmearer.cc:320-366 | definition: the curve weight of a category with a curve, 1 otherwise |
| Efficiency.UnknownCategoryWeighsOne | EnergySmearer.cc:362-365 | a category without a curve weighs 1 |
| Efficiency.CollapsedBracketIsNaN | EnergySmearer.cc:335-358 | the weight is NaN iff pt is not above the first knot or is above every knot |
| Efficiency.InteriorWeightInterpolates | EnergySmearer.cc:335-360 | inside the span the weight interpolates neighbouring knots k-1, k with x[k-1] < pt <= x[k] |
| Efficiency.KnotWeight | EnergySmearer.cc:352-360 | at knot k >= 1 of an increasing curve the weight is y_k + shift x err_k, with the upper error iff shift > 0 |
| Efficiency.FirstKnotIsNaN | EnergySmearer.cc:336 | the first knot itself gives NaN |
| Efficiency.NominalWeightBetweenNeighbours | EnergySmearer.cc:357 | the nominal interior weight lies between the ratios of the bracketing knots |
| Efficiency.NominalInterpolationBetween | EnergySmearer.cc:357 | nominal two-point interpolation on (x_lo, x_hi] stays between the two ratios |
| Efficiency.WeightExample | EnergySmearer.cc:352-360 | a two-knot curve queried halfway at shift +1 gives 0.975 |
| Efficiency.EfficiencyInitDecision | EnergySmearer.cc:275-291 | definition: the guards in their source order: already loaded, energy smearing on, efficiencies off, empty curve name, empty file name |
| Efficiency.InitDecisionCases | EnergySmearer.cc:275-291 | the file is read iff nothing is loaded and every guard passes; the call is refused iff nothing is loaded and some guard fails |
| Smearing.LoadedCurves | EnergySmearer.cc:298-312 | the loaded map has exactly the four categories, each holding the file graph named effName + "_" + category |
| Smearing.EnergySmearer.constructor | EnergySmearer.cc:5-38 | the initial flags, seed 12345, base seed 0 and name; the stored parameters are the normalised input; the object invariant holds |
| Smearing.EnergySmearer.Copy | EnergySmearer.cc:43-49 | the copy has all fields of the original but the new pre-selection and identity |
| Smearing.EnergySmearer.SetName | EnergySmearer.h:139 | sets the name and nothing else |
| Smearing.EnergySmearer.ScaleOrSmear | EnergySmearer.h:141 | sets its flag and nothing else |
| Smearing.EnergySmearer.DoEnergy | EnergySmearer.h:143 | sets its flag and nothing else |
| Smearing.EnergySmearer.DoRegressionSigma | EnergySmearer.h:145 | sets the regression flag and nothing else |
| Smearing.EnergySmearer.DoCorrections | EnergySmearer.h:147 | sets its flag and nothing else |
| Smearing.EnergySmearer.DoEfficiencies | EnergySmearer.h:149 | sets its flag and nothing else |
| Smearing.EnergySmearer.SetEffName | EnergySmearer.h:151 | sets the efficiency name and nothing else |
| Smearing.EnergySmearer.ResetRandom | EnergySmearer.h:153 | reseeds the generator with 12345 and changes nothing else |
| Smearing.EnergySmearer.SystOnly | EnergySmearer.h:157 | sets its flag and nothing else |
| Smearing.EnergySmearer.InitEfficiency | EnergySmearer.cc:271-317 | the guard decision decides the result, and the curves become the four loaded graphs exactly on a load; the invariant holds |
| Smearing.EnergySmearer.GetWeight | EnergySmearer.cc:320-366 | the loop result is the weight the curves define (`WeightOf`) |
| Smearing.EnergySmearer.DrawSmearFactor | EnergySmearer.cc:236-245 | the factor and the new generator state are the smear draw's |
| Smearing.EnergySmearer.ScaleEnergy | EnergySmearer.cc:224-231 | energy x scale factor; the cache holds the factor under the engine id iff shift == 0 |
| Smearing.EnergySmearer.SmearEnergy | EnergySmearer.cc:232-249 | energy x smear factor; the cache holds the factor iff shift == 0; the generator advances as the draw says |
| Smearing.EnergySmearer.ApplyMode | EnergySmearer.cc:208-251 | the new energy, resolution estimate, cache and generator are those of the selected mode |
| Smearing.EnergySmearer.SmearCategorised | EnergySmearer.cc:252-266 | a zero mode energy aborts; otherwise the mode state is written and the weight is looked up iff efficiencies are on, corrections off and curves loaded |
| Smearing.EnergySmearer.SmearUncached | EnergySmearer.cc:187-266 | it ends in the outcome of the pre-selection, category and mode |
| Smearing.EnergySmearer.CacheUsable | EnergySmearer.cc:176 | definition: the cache is consulted iff no forced recompute, no efficiency, correction or regression mode, and a zero shift |
| Smearing.EnergySmearer.PassesCache | EnergySmearer.cc:174-185 | definition: the call gets past the syst-only nominal exit and does not hit a usable cached factor |
| Smearing.EnergySmearer.InPreselection | EnergySmearer.cc:187-197 | definition: the pre-selection is empty or one of its categories accepts the photon's coordinates |
| Smearing.EnergySmearer.ScaledState | EnergySmearer.cc:224-231 | definition: energy times the scale factor, with the factor stored under the engine id iff the shift is 0 |
| Smearing.EnergySmearer.SmearedState | EnergySmearer.cc:232-249 | definition: energy times the smear draw, the generator after the draw, and the factor stored under the engine id iff the shift is 0 |
| Smearing.EnergySmearer.WeightAfter | EnergySmearer.cc:260-264 | definition: the efficiency weight at the new transverse energy iff efficiencies are on, corrections off and curves loaded; otherwise the weight passed in |
| Smearing.EnergySmearer.ModeStateOf | EnergySmearer.cc:208-251 | definition: the state the selected mode leaves: corrected energy, regression resolution, scaled or smeared energy |
| Smearing.EnergySmearer.UncachedOutcome | EnergySmearer.cc:187-266 | definition: outside the pre-selection true with nothing changed; Automagic no-match aborts; "" gives false with nothing changed; otherwise the mode state, aborting on a zero energy, with the efficiency weight |
| Smearing.EnergySmearer.SmearOutcome | EnergySmearer.cc:172-267 | definition: the syst-only nominal exit changes nothing; a usable cached factor multiplies the energy; otherwise the uncached outcome |
| Smearing.EnergySmearer.SmearPhoton | EnergySmearer.cc:172-267 | it ends in the state, weight and result of `SmearOutcome`; the one-shot flag is false after any call but the syst-only nominal exit, which changes nothing |
| Smearing.OutcomeStateIsModeState | EnergySmearer.cc:199-251 | past the cache and the pre-selection, a named category ends in the selected mode's state |
| Smearing.ModeStateCache | EnergySmearer.cc:224-249 | a nominal scale or smear evaluation stores exactly the factor the energy was multiplied by in the engine's own slot and leaves every other engine's slot as found; other calls and modes leave the cache alone |
| Smearing.CacheHitAppliesStoredFactor | EnergySmearer.cc:176-185 | a later nominal call with the cache usable multiplies the energy by the stored factor, returns true and changes nothing else |
| Smearing.ShiftedCallKeepsCache | EnergySmearer.cc:176-248 | a call with a non-zero shift leaves the cache as it found it |
| Smearing.CorrectionModesKeepCache | EnergySmearer.cc:211-264 | the correction and regression modes leave the cache and generator alone; corrections never set a weight |
| Smearing.ForcedShiftBypassesCache | EnergySmearer.cc:176-186 | a raised one-shot flag makes every call but the syst-only nominal exit skip the cache |
| Smearing.EarlyExitsLeaveStateAlone | EnergySmearer.cc:174-197 | the syst-only nominal exit and a photon outside the pre-selection return true and leave photon, generator and weight as found |
| Smearing.FalseLeavesStateAlone | EnergySmearer.cc:199-205 | a false result leaves the photon, generator and weight as found |
| Extrapolation.LexLess | EnergySmearer.cc:375-376 | definition: the character-wise lexicographic order in which `std::map` visits its string keys |
| Extrapolation.LexIrreflexive | EnergySmearer.cc:375-376 | no key sorts before itself |
| Extrapolation.LexTransitive | EnergySmearer.cc:375-376 | the key order is transitive |
| Extrapolation.LexTotal | EnergySmearer.cc:375-376 | any two distinct keys are ordered one way or the other |
| Extrapolation.FirstKeyExists | EnergySmearer.cc:375-376 | every non-empty set of keys has a first key in map order |
| Extrapolation.Qualifies | EnergySmearer.cc:377-390 | definition: a pivot key counts iff there is no pre-selection, or a pre-selection category dominates the first category of that name |
| Extrapolation.ExtrapolationNeeded | EnergySmearer.cc:375-396 | definition: some pivot entry is non-zero and qualifies |
| Extrapolation.ScanReaches | EnergySmearer.cc:375-396 | definition: the scan reaches a key iff no key before it in map order is a non-zero qualifying entry |
| Extrapolation.ReachedKeysNamed | EnergySmearer.cc:379-382 | definition: with a pre-selection, every key the scan reaches names a category |
| Extrapolation.UnnamedLaterKeyAccepted | EnergySmearer.cc:375-396 | with "A" named and dominated, pivot {"A": 1, "Z": 0} is accepted although "Z" names no category, and the extrapolation is needed |
| Extrapolation.Overridden | EnergySmearer.cc:405-408 | definition: the target parameters with the category's stochastic error 0 and its width the snapshot's plus shift x snapshot error |
| Extrapolation.FindDominating | EnergySmearer.cc:383-389 | the scan finds a dominating pre-selection category iff one exists |
| Extrapolation.EnergySmearerExtrapolation.constructor | EnergySmearer.cc:369-398 | target, "_extra" name and snapshot; the scan in map order, stopping at the first non-zero qualifying entry, sets needed iff such an entry exists; only reached keys must name a category |
| Extrapolation.EnergySmearerExtrapolation.SmearPhoton | EnergySmearer.cc:401-411 | for a named category, sets the target's stochastic error to 0 and its width to snapshot + shift x snapshot error, raises the target's one-shot flag, returns true and leaves weight and photon alone |
| Extrapolation.OverrideKeepsValid | EnergySmearer.cc:406-408 | the override keeps the target's parameters valid |
| Extrapolation.LastOverrideWins | EnergySmearer.cc:372-408 | the override reads only the snapshot, so repeated calls are idempotent for equal shifts and the last shift wins |
| Extrapolation.OverrideFreezesStochasticTerm | EnergySmearer.cc:406-408 | after the override the target's shifted stochastic component is the snapshot's at the extrapolation shift; the constant component is unchanged |

## Left out

- Floating point: all arithmetic is on reals. Single-precision rounding, IEEE infinities and the float/double conversions are not modelled. NaN is modelled only for the 0/0 of the collapsed weight bracket.
- Resolution.SmearingSigma: requires the energy the stochastic term is divided by to be non-zero. The source would divide by zero and produce an infinite or NaN width.
- The numeric library (cosh, sin, cos, sqrt, round, TMath::Pi) is abstract. Only the axioms in `Numerics.Valid` are assumed, so no numeric value of a width is computed.
- The `TRandom3` generator: only its seed and draw count are modelled. The deviates are an abstract function of them. Reseeding with a 0 seed (time-based) is not modelled.
- The reseed argument `baseSeed_ + smearingSeed(i)` is an unbounded integer here. The source converts it to `UInt_t`, with wrap-around.
- Smearing.EnergySmearer.Copy: also copies the generator state. The source copies the generator pointer, so the two engines share one generator and delete it twice.
- The check `cachedVal.first == this` on a cache hit belongs to the photon-cache implementation, which is not part of this model. The cache is a map from engine identity to factor.
- `BaseSmearer`, `registerMe` and `smearerId`: the engine's identity is a constructor argument.
- `PhotonReducedInfo` is reduced to the fields the engine reads and writes. Pseudorapidity and eta are the same value here.
- Smearing.EnergySmearer.constructor: the scale-table size loop and the other `assert`s are a precondition (`ValidParameters`), not a loop.
- Smearing.EnergySmearer.constructor: `doEnergy_` and `doEfficiencies_`, which the source leaves uninitialised, are inputs.
- Smearing.EnergySmearer.InitEfficiency: ROOT file I/O is replaced by a map of named graphs.
- Smearing.EnergySmearer.InitEfficiency: on a load it requires the four graphs to exist and to be non-empty. A missing graph dereferences null in the source, and an empty one makes `getWeight` read past the end.
- Smearing.EnergySmearer.SmearPhoton: lowers the one-shot flag after the rest of the call rather than before the pre-selection test. Nothing in between reads it, so the final state is the same.
- Smearing.EnergySmearer.SmearPhoton: after an abort (a fatal assertion in the source) the state and the weight are left unspecified.
- Smearing.EnergySmearer.SmearPhoton: requires the tables the selected mode reads to hold the category, and a run range to contain the run when byRun. The source dereferences `end()` otherwise.
- Extrapolation.EnergySmearerExtrapolation.constructor: the source's fatal assertion that a reached pivot key names a category is a precondition (`ReachedKeysNamed`), not an abort.
- Extrapolation.LexLess: orders characters by code point. `std::string` compares them as unsigned bytes, which agrees when each character stands for one byte.
- Extrapolation.EnergySmearerExtrapolation.SmearPhoton: requires the snapshot's stochastic tables to hold the category, including the empty name of an unknown scheme. The source would read `end()` otherwise.
- Console logging is not modelled.
- `DiPhoEfficiencySmearer` is not part of this model: only its declarations exist, so it has no bodies to model.
- The fitting programs and the datacard writer are not part of this model. They are I/O and fit orchestration around ROOT.
