# Stormwater sandbox water-balance engine, in Dafny

The stormwater sandbox estimates, for one design storm on a rural road
catchment, how much surface runoff reaches the road. It does this before and
after four optional measures: rooftop rainwater harvesting, vetiver grass
hedgerows, Hügelkultur (buried-wood) beds and permeable pavements. It also
condenses the outcome into a 0–100 road protection score. The engine is the
straight-line computation in `Simulation.py` lines 105–202:

- the SCS curve-number runoff equation;
- an effective curve number lowered by vetiver and pavement and scaled by slope;
- the baseline runoff volume;
- the rooftop yield, tank capture and overflow;
- the bed storage, interception and overflow;
- pavement direct infiltration;
- vetiver extra infiltration;
- their combination into an effective runoff;
- the score.

This project models that engine as one pure function of the sidebar inputs
and proves properties of it.

Modules:

- `Arith` (`arith.dfy`): facts about products and quotients of reals. Every
  product of two variables goes through `Mul`, so the solver treats it as a
  term.
- `Units` (`units.dfy`): the two unit helpers, `liters` and
  `m3_from_mm_over_area`.
- `ScsRunoff` (`scs_runoff.dfy`): the runoff equation `scs_runoff_depth_mm`,
  split into the retention `S(CN)` and the runoff `Q(P, S)`, with its bounds
  and monotonicity.
- `Scenario` (`config.dfy`): the inputs as the engine receives them, in
  `Config`. `ValidConfig` holds the widget ranges of lines 45–100. A disabled
  measure carries the zero defaults of lines 68, 76, 90–91 and 100.
- `WaterBalance` (`engine.dfy`): one function per stage, with the balance each
  stage keeps. `EvaluateWith(c, tankCapacityM3)` chains the stages in source
  order. `Evaluate(c)` is the program as written, and `EvaluateIntended(c)` is
  the same engine with the tank capacity in m³ (see Findings).
- `BalanceProperties` (`properties.dfy`): properties of whole evaluations for
  every valid input. Apart from three exceptions named after the Findings
  table, each is stated for every non-negative tank capacity, so it holds for
  both `Evaluate` and `EvaluateIntended`.

All quantities are `real`. `np.clip`, `min` and `max` become `Clip`, `Min`
and `Max`. The product `hug_on * (...)` becomes an `if`.

## Model

| member | source | states |
|---|---|---|
| Units.Liters | Simulation.py:113-114 | the litre figure divided by 1000 gives back the m³ figure; it is never smaller for a non-negative volume |
| Units.M3FromMmOverArea | Simulation.py:116-117 | the volume is non-negative for non-negative depth and area, positive when both are positive, and zero when either is zero |
| Units.M3DepthRoundTrip | Simulation.py:116-117 | spreading the volume back over a positive area recovers the depth: `1000 v / A == mm` |
| Units.M3AdditiveInDepth | Simulation.py:116-117 | the volume of a sum of depths is the sum of the volumes |
| Units.M3MonotoneInArea | Simulation.py:116-117 | for a non-negative depth, a larger area never gives a smaller volume |
| Units.M3MonotoneInDepth | Simulation.py:116-117 | over a non-negative area, a deeper layer never gives a smaller volume |
| ScsRunoff.Retention | Simulation.py:107 | S ≥ 0 for every CN in (0, 100], and S > 0 below 100 |
| ScsRunoff.RetentionAntitone | Simulation.py:107 | a larger curve number never has a larger retention |
| ScsRunoff.RunoffFromRetention | Simulation.py:108-111 | Q = 0 exactly when P ≤ Ia = 0.2 S; Q ≥ 0 whenever S ≥ 0 |
| ScsRunoff.RunoffDepth | Simulation.py:105-111 | Q = 0 exactly when P ≤ 0.2 S(CN); Q ≥ 0 for CN in (0, 100] |
| ScsRunoff.RunoffDefinedOnRange | Simulation.py:105-111 | neither division can fail for any P ≥ 0 and CN in (0, 100] |
| ScsRunoff.RunoffFromRetentionBelowRainfall | Simulation.py:108-111 | Q ≤ P for P, S ≥ 0, and Q < P when S > 0 and P > 0 |
| ScsRunoff.RunoffBelowRainfall | Simulation.py:105-111 | runoff never exceeds rainfall, and is strictly less for CN < 100 and P > 0 |
| ScsRunoff.RunoffFromRetentionMonotoneInRainfall | Simulation.py:108-111 | a deeper storm never gives less runoff at a fixed retention S ≥ 0 |
| ScsRunoff.RunoffMonotoneInRainfall | Simulation.py:105-111 | a deeper storm never gives less runoff at a fixed curve number |
| ScsRunoff.RunoffFromRetentionAntitoneInRetention | Simulation.py:108-111 | a larger retention never gives more runoff |
| ScsRunoff.RunoffMonotoneInCurveNumber | Simulation.py:105-111 | a larger curve number never gives less runoff |
| ScsRunoff.DesignStormExample | Simulation.py:105-111 | the default 80 mm storm on CN 85 has S = 762/17 mm and 43.55 < Q < 43.56 mm |
| Scenario.SlopeFactor | Simulation.py:52-53 | the slope factor lies in [0.95, 1.05] |
| Scenario.ValidConfig | Simulation.py:45-100 | the widget ranges, and the zero defaults of a disabled measure (lines 68, 76, 90-91, 100); for a valid input, the catchment area is positive, the roof area is non-negative, and every share and fraction lies in [0, 1] |
| Scenario.SidebarDefaults | Simulation.py:45-100 | the sidebar's default values form a valid input, with harvesting, vetiver and beds on and pavement off |
| WaterBalance.PreSlopeCurveNumber | Simulation.py:122-127 | with the sidebar's non-negative reductions and a fraction in [0, 1], the reduced curve number lies in [30, base CN] |
| WaterBalance.BlendBetween | Simulation.py:127 | an area-weighted average of two values in [lo, hi] stays in [lo, hi] |
| WaterBalance.PavementBlendMonotone | Simulation.py:127 | the pavement-weighted curve number is monotone in the curve number it starts from |
| WaterBalance.VetiverLowersPreSlopeCurveNumber | Simulation.py:122-127 | enabling vetiver never raises the pre-slope curve number, with or without pavement |
| WaterBalance.PavementLowersPreSlopeCurveNumber | Simulation.py:122-127 | enabling permeable pavement never raises the pre-slope curve number, with or without vetiver |
| WaterBalance.EffectiveCurveNumber | Simulation.py:122-129 | for every valid input the effective curve number lies in [28.5, 99.75] |
| WaterBalance.TankCapacityM3 | Simulation.py:139 | the capacity as written equals the litre total, storage per unit × units |
| WaterBalance.IntendedTankCapacityM3 | Simulation.py:139 | the corrected capacity converted back to litres is the litre total; it is non-negative for non-negative inputs |
| WaterBalance.TankCapacityOverstated | Simulation.py:139 | for any non-empty set of tanks, the capacity as written is 1000 times, and so strictly more than, the capacity in m³ |
| WaterBalance.HarvestBalance | Simulation.py:137-141 | when on, captured = min(yield, capacity); captured + overflow = yield; captured ≤ yield and overflow ≥ 0; 0 ≤ captured ≤ capacity; no yield when the storm is within the first flush; all zero when disabled |
| WaterBalance.TanksFillBeforeOverflow | Simulation.py:140-141 | when on, overflow = max(0, yield − capacity), so nothing overflows until the tanks are full |
| WaterBalance.HugelStorageM3 | Simulation.py:146-147 | no beds means no storage |
| WaterBalance.HugelStorageNonNegative | Simulation.py:146-147 | bed storage is non-negative for non-negative dimensions and porosity and edge losses of at most 1 |
| WaterBalance.HugelBalance | Simulation.py:149-150 | when on, intercepted = min(routed, storage); routed water is the share of the baseline and lies in [0, baseline]; intercepted ≤ storage and ≤ routed; intercepted + overflow = routed; overflow ≥ 0; nothing is intercepted when disabled |
| WaterBalance.BedsFillBeforeOverflow | Simulation.py:149-150 | when on, overflow = max(0, routed − storage), so nothing overflows until the beds are full |
| WaterBalance.PavementInfiltration | Simulation.py:156-157 | incident rain and infiltration are zero when pavement is disabled |
| WaterBalance.PavementBounds | Simulation.py:156-157 | 0 ≤ direct infiltration ≤ rain on the converted area ≤ rain on the whole catchment |
| WaterBalance.VetiverInfiltration | Simulation.py:163-164 | the remainder after the beds is ≥ 0, ≥ baseline − intercepted and ≤ baseline; 0 ≤ extra infiltration ≤ remainder; no extra infiltration when disabled |
| WaterBalance.CombinedRunoff | Simulation.py:178-186 | effective runoff ≥ rooftop overflow; it is non-negative and at most baseline + bed overflow + rooftop overflow; it equals baseline + rooftop overflow when no other measure contributes |
| WaterBalance.ReductionRatio | Simulation.py:196 | ratio ≤ 1 for non-negative volumes; ratio = 1 when effective runoff is zero; ratio < 0 when effective runoff exceeds baseline + ε |
| WaterBalance.Terms | Simulation.py:197-200 | runoff term in [0, 40] when ratio ≤ 1; vetiver term 20 or 0; pavement term in [0, 20] and 0 without converted area; bed term ≤ 20, non-negative, and 0 when beds are disabled |
| WaterBalance.RawScore | Simulation.py:197-200 | the unclipped weighted sum lies in [0, 100] whenever each term lies within its weight (40, 20, 20, 20) |
| WaterBalance.Clip | Simulation.py:202 | the clipped value lies in [lo, hi] and is unchanged when already inside |
| WaterBalance.ProtectionScore | Simulation.py:197-202 | the score lies in [0, 100] and equals the weighted sum whenever that sum is in range |
| WaterBalance.EvaluateWith | Simulation.py:122-202 | for every valid input: effective CN in [28.5, 99.75]; 0 ≤ runoff depth < P; baseline ≥ 0; the harvest stage uses the given capacity |
| WaterBalance.Evaluate | Simulation.py:122-202 | the program's evaluation reports a tank capacity equal to the litre total |
| WaterBalance.EvaluateIntended | Simulation.py:139 | the corrected evaluation reports a tank capacity whose litre conversion is the litre total |
| BalanceProperties.TanksFillFirst | Simulation.py:137-141 | in every evaluation with harvesting on: rooftop overflow = max(0, yield − capacity) |
| BalanceProperties.BedsFillFirst | Simulation.py:146-150 | in every evaluation with the beds on: bed overflow = max(0, routed − storage) |
| BalanceProperties.BaselineAccounts | Simulation.py:122-132 | 0 ≤ baseline ≤ rain volume on the catchment; baseline = 0 exactly when P ≤ 0.2 S(CN_eff) |
| BalanceProperties.HarvestAccounts | Simulation.py:137-141 | in every evaluation: captured + overflow = yield; 0 ≤ captured ≤ capacity and ≤ yield; overflow ≥ 0; all zero when harvesting is off |
| BalanceProperties.BedsAccount | Simulation.py:146-150 | in every evaluation: 0 ≤ intercepted ≤ storage; intercepted ≤ routed ≤ baseline; intercepted + overflow = routed; storage and all bed volumes zero when beds are off |
| BalanceProperties.PavementAccounts | Simulation.py:156-157 | in every evaluation: 0 ≤ infiltration ≤ incident rain ≤ rain on the catchment; both zero when pavement is off |
| BalanceProperties.PavementInfiltratesAnyStorm | Simulation.py:156-157 | with pavement on and a positive fraction and share, direct infiltration is positive whatever the baseline |
| BalanceProperties.HedgerowsAccount | Simulation.py:163-164 | in every evaluation: 0 ≤ extra ≤ remainder ≤ baseline; remainder ≥ baseline − intercepted; no extra when vetiver is off |
| BalanceProperties.EffectiveRunoffAccounts | Simulation.py:178-186 | in every evaluation: 0 ≤ rooftop overflow ≤ effective ≤ baseline + bed overflow + rooftop overflow; effective = baseline when no measure is on |
| BalanceProperties.ScoreAccounts | Simulation.py:196-202 | in every evaluation: ratio ≤ 1; each term lies within its weight and is zero when its measure is off; the raw sum lies in [0, 100], so the clip never changes it |
| BalanceProperties.ZeroBaselineAccounts | Simulation.py:149-186 | with zero baseline: nothing intercepted, no bed overflow, no vetiver infiltration; effective = rooftop overflow |
| BalanceProperties.ZeroBaselineRatio | Simulation.py:141-196 | with zero baseline: ratio = 1 exactly when the rooftop overflow is 0, and ratio < 0 once that overflow exceeds ε |
| BalanceProperties.BedOverflowAddedToBaseline | Simulation.py:149-186 | with only the beds on: effective = baseline + routed − 2 × intercepted |
| BalanceProperties.EmptyBedsRaiseRunoff | Simulation.py:146-186 | beds with no storage and a positive share raise the effective runoff above a positive baseline |
| BalanceProperties.BaselineMonotone | Simulation.py:122-132 | a deeper storm, a larger catchment or a higher effective CN never gives less baseline runoff |
| BalanceProperties.VetiverNeverRaisesBaseline | Simulation.py:122-132 | turning vetiver off (to its zero defaults) never lowers the baseline runoff |
| BalanceProperties.PavementNeverRaisesBaseline | Simulation.py:122-132 | turning pavement off (to its zero defaults) never lowers the baseline runoff |
| BalanceProperties.SteeperSlopeMoreRunoff | Simulation.py:129-132 | a slope with a larger factor never gives less baseline runoff |
| BalanceProperties.AsWrittenTanksNeverOverflow | Simulation.py:139-141 | as written, five or more tanks never overflow within the sidebar ranges: captured = yield and overflow = 0 |
| BalanceProperties.AsWrittenHarvestExample | Simulation.py:137-141 | ten 1000 L tanks, a 400 m² roof, P = 80 mm, 2 mm first flush: capacity 10000, captured 31.2 m³, overflow 0 |
| BalanceProperties.IntendedHarvestExample | Simulation.py:137-141 | the same tanks with capacity 10 m³: captured 10 m³, overflow 21.2 m³ |

Notes on the model:

- **Design storm.** For the default storm of 80 mm on CN 85,
  S = 25400/85 − 254 = 762/17 ≈ 44.82 mm and Q ≈ 43.55 mm
  (`DesignStormExample`).
- **Strict runoff bound.** Runoff is strictly less than rainfall only for
  CN < 100; at CN = 100, Q = P. The effective curve number never exceeds
  99.75, so every evaluation has Q < P.
- **Zero baseline.** A zero baseline does not zero every volume.
  - Pavement infiltration (line 156) depends on P alone
    (`PavementInfiltratesAnyStorm`).
  - Rooftop overflow (line 141) is still added at line 186. The reduction
    ratio is then 1 only when that overflow is 0, and negative once it
    exceeds ε (`ZeroBaselineRatio`).
- **Hügel overflow.** The routed share of the baseline is already part of the
  baseline. Adding the bed overflow back therefore counts it twice. The model
  keeps this as written and states its effect
  (`BedOverflowAddedToBaseline`, `EmptyBedsRaiseRunoff`).

## Left out

- The Streamlit interface: layout, widgets, the results table and its
  rounding, the chart and the narrative text after line 202.
- Floating point: every quantity is an exact real, so no IEEE rounding is
  modelled.
- Widget step sizes (5 mm, 50 m², …): `ValidConfig` keeps only each widget's
  range.
- Python's mixing of `int` and `float`: integer widgets are converted to
  `real` before use.
- Python's `ZeroDivisionError`: no valid input can reach it. The stage
  functions require their denominators to be non-zero, namely
  `RunoffDefined`, `baseline + ε` and `storage + ε`.
- The Hügel overflow double count described above is not corrected, so that
  the model computes what the program computes.

## Findings

| source | as written | input that shows it | evidently intended | confidence | as-written member | corrected member |
|---|---|---|---|---|---|---|
| Simulation.py:139 | `liters(storage_per_unit_L * n_units) / 1000.0` multiplies by 1000 and then divides by 1000, so the "m³" capacity is the litre count | ten 1000 L tanks give 10000 "m³" instead of 10 m³; with a 400 m² roof, P = 80 mm and a 2 mm first flush, all 31.2 m³ are captured and nothing overflows (`AsWrittenHarvestExample`); with five or more tanks nothing can ever overflow (`AsWrittenTanksNeverOverflow`) | capacity = litres / 1000, giving 10 m³ captured and 21.2 m³ overflow (`IntendedHarvestExample`) | high, not executed | WaterBalance.TankCapacityM3 | WaterBalance.IntendedTankCapacityM3 |

`Evaluate` keeps the capacity as written, so it reproduces the program.
`EvaluateIntended` uses the corrected capacity. Three lemmas in
`BalanceProperties` are about one capacity only:

- `AsWrittenTanksNeverOverflow` is about `Evaluate` only, and it is false for
  `EvaluateIntended`. Take five 200 L tanks under a 5000 m² roof, with a
  200 mm storm and no first flush. The corrected capacity is 1 m³, so 999 m³
  of the 1000 m³ yield overflows.
- `AsWrittenHarvestExample` and `IntendedHarvestExample` are about the
  harvest stage `HarvestBalance`, each with one capacity, not about whole
  evaluations.

Every other lemma in `BalanceProperties` is stated for any non-negative
capacity, so it holds for both evaluations.
