/**
 * Properties of whole evaluations: every figure the engine reports obeys the
 * balance of the stage that produced it, for every input the sidebar allows
 * and every non-negative tank capacity.
 */
module BalanceProperties {
  import opened Arith
  import opened Units
  import opened ScsRunoff
  import opened Scenario
  import opened WaterBalance

  /** The rooftop water balance of an evaluation. */
  lemma HarvestAccounts(c: Config, tankCapacityM3: real)
    requires ValidConfig(c) && tankCapacityM3 >= 0.0
    ensures var h := EvaluateWith(c, tankCapacityM3).harvest;
      && h.capturedM3 + h.overflowM3 == h.yieldM3
      && 0.0 <= h.capturedM3 <= h.capacityM3
      && h.capturedM3 <= h.yieldM3
      && h.overflowM3 >= 0.0
      && (!c.harvOn ==> h.yieldM3 == 0.0 && h.capturedM3 == 0.0 && h.overflowM3 == 0.0)
  {
    var h := HarvestBalance(c.harvOn, c.pMm as real, c.firstFlushMm as real, c.roofAreaM2, tankCapacityM3);
    assert c.roofAreaM2 >= 0.0;
    assert h.capacityM3 == tankCapacityM3;
    assert EvaluateWith(c, tankCapacityM3).harvest == h;
  }

  /** With harvesting on, the tanks fill before anything overflows. */
  lemma TanksFillFirst(c: Config, tankCapacityM3: real)
    requires ValidConfig(c) && tankCapacityM3 >= 0.0 && c.harvOn
    ensures var h := EvaluateWith(c, tankCapacityM3).harvest;
      h.overflowM3 == Max(0.0, h.yieldM3 - h.capacityM3)
  {
    var h := HarvestBalance(c.harvOn, c.pMm as real, c.firstFlushMm as real, c.roofAreaM2, tankCapacityM3);
    TanksFillBeforeOverflow(c.harvOn, c.pMm as real, c.firstFlushMm as real, c.roofAreaM2, tankCapacityM3);
    assert h.overflowM3 == Max(0.0, h.yieldM3 - h.capacityM3);
    assert EvaluateWith(c, tankCapacityM3).harvest == h;
  }

  /** Baseline runoff: never more than the rain on the catchment, and zero exactly below initial abstraction. */
  lemma BaselineAccounts(c: Config, tankCapacityM3: real)
    requires ValidConfig(c) && tankCapacityM3 >= 0.0
    ensures var b := EvaluateWith(c, tankCapacityM3);
      && 0.0 <= b.baselineRunoffM3 <= M3FromMmOverArea(c.pMm as real, c.catchmentAreaM2)
      && (b.baselineRunoffM3 == 0.0 <==> c.pMm as real <= 0.2 * Retention(b.cnEffective))
  {
    var b := EvaluateWith(c, tankCapacityM3);
    var p := c.pMm as real;
    assert b.cnEffective == EffectiveCurveNumber(c);
    assert b.runoffDepthMm == RunoffDepth(p, b.cnEffective);
    assert b.baselineRunoffM3 == M3FromMmOverArea(b.runoffDepthMm, c.catchmentAreaM2);
    M3MonotoneInDepth(b.runoffDepthMm, p, c.catchmentAreaM2);
  }

  /** The Hügel beds: interception bounded by storage and by the routed share, which is part of the baseline. */
  lemma BedsAccount(c: Config, tankCapacityM3: real)
    requires ValidConfig(c) && tankCapacityM3 >= 0.0
    ensures var b := EvaluateWith(c, tankCapacityM3);
      && 0.0 <= b.hugel.interceptedM3 <= b.hugel.storageM3
      && b.hugel.interceptedM3 <= b.hugel.routedM3 <= b.baselineRunoffM3
      && b.hugel.interceptedM3 + b.hugel.overflowM3 == b.hugel.routedM3
      && b.hugel.overflowM3 >= 0.0
      && (!c.hugOn ==> b.hugel.storageM3 == 0.0 && b.hugel.routedM3 == 0.0
                       && b.hugel.interceptedM3 == 0.0 && b.hugel.overflowM3 == 0.0)
  {
    var b := EvaluateWith(c, tankCapacityM3);
    var storage := HugelStorageM3(c.nBeds, c.bedLengthM, c.bedWidthM, c.bedCoreDepthM,
                                  c.corePorosity, c.borderLoss);
    HugelStorageNonNegative(c.nBeds, c.bedLengthM, c.bedWidthM, c.bedCoreDepthM,
                            c.corePorosity, c.borderLoss);
    assert b.hugel == HugelBalance(c.hugOn, storage, c.hugShare, b.baselineRunoffM3);
    MulSign(b.baselineRunoffM3, c.hugShare);
  }

  /** With the beds on, they fill before anything overflows. */
  lemma BedsFillFirst(c: Config, tankCapacityM3: real)
    requires ValidConfig(c) && tankCapacityM3 >= 0.0 && c.hugOn
    ensures var g := EvaluateWith(c, tankCapacityM3).hugel;
      g.overflowM3 == Max(0.0, g.routedM3 - g.storageM3)
  {
    var b := EvaluateWith(c, tankCapacityM3);
    var storage := HugelStorageM3(c.nBeds, c.bedLengthM, c.bedWidthM, c.bedCoreDepthM,
                                  c.corePorosity, c.borderLoss);
    HugelStorageNonNegative(c.nBeds, c.bedLengthM, c.bedWidthM, c.bedCoreDepthM,
                            c.corePorosity, c.borderLoss);
    BedsFillBeforeOverflow(c.hugOn, storage, c.hugShare, b.baselineRunoffM3);
    assert b.hugel == HugelBalance(c.hugOn, storage, c.hugShare, b.baselineRunoffM3);
  }

  /** Permeable pavement: infiltration never exceeds the rain on the converted area, which never exceeds the rain on the catchment. */
  lemma PavementAccounts(c: Config, tankCapacityM3: real)
    requires ValidConfig(c) && tankCapacityM3 >= 0.0
    ensures var v := EvaluateWith(c, tankCapacityM3).pavement;
      && 0.0 <= v.infiltrationM3 <= v.incidentM3 <= M3FromMmOverArea(c.pMm as real, c.catchmentAreaM2)
      && (!c.ppOn ==> v.incidentM3 == 0.0 && v.infiltrationM3 == 0.0)
  {
    var p := c.pMm as real;
    PavementBounds(c.ppOn, p, c.catchmentAreaM2, c.ppFraction, c.ppShare);
    assert EvaluateWith(c, tankCapacityM3).pavement
        == PavementInfiltration(c.ppOn, p, c.catchmentAreaM2, c.ppFraction, c.ppShare);
  }

  /** Vetiver: extra infiltration is a fraction of the runoff left after the beds, which is part of the baseline. */
  lemma HedgerowsAccount(c: Config, tankCapacityM3: real)
    requires ValidConfig(c) && tankCapacityM3 >= 0.0
    ensures var b := EvaluateWith(c, tankCapacityM3);
      && 0.0 <= b.vetiver.extraM3 <= b.vetiver.remainingM3 <= b.baselineRunoffM3
      && b.vetiver.remainingM3 >= b.baselineRunoffM3 - b.hugel.interceptedM3
      && (!c.vetiverOn ==> b.vetiver.extraM3 == 0.0)
  {
    var b := EvaluateWith(c, tankCapacityM3);
    BedsAccount(c, tankCapacityM3);
    assert b.vetiver == VetiverInfiltration(c.vetiverOn, b.baselineRunoffM3, b.hugel.interceptedM3,
                                            c.vetiverBoost);
  }

  /**
   * Effective runoff: never below the rooftop overflow (itself non-negative),
   * never above baseline plus Hügel overflow plus rooftop overflow, and equal
   * to the baseline when no measure is enabled.
   */
  lemma EffectiveRunoffAccounts(c: Config, tankCapacityM3: real)
    requires ValidConfig(c) && tankCapacityM3 >= 0.0
    ensures var b := EvaluateWith(c, tankCapacityM3);
      && 0.0 <= b.harvest.overflowM3 <= b.effectiveRunoffM3
      && b.effectiveRunoffM3 <= b.baselineRunoffM3 + b.hugel.overflowM3 + b.harvest.overflowM3
      && (!c.harvOn && !c.vetiverOn && !c.hugOn && !c.ppOn ==> b.effectiveRunoffM3 == b.baselineRunoffM3)
  {
    var b := EvaluateWith(c, tankCapacityM3);
    HarvestAccounts(c, tankCapacityM3);
    BedsAccount(c, tankCapacityM3);
    PavementAccounts(c, tankCapacityM3);
    HedgerowsAccount(c, tankCapacityM3);
    assert b.effectiveRunoffM3
        == CombinedRunoff(b.baselineRunoffM3, b.hugel.interceptedM3, b.vetiver.extraM3,
                          b.hugel.overflowM3, b.pavement.infiltrationM3, b.harvest.overflowM3);
  }

  /**
   * The score: each weighted signal stays within its weight and is zero when
   * its measure is off, so the unclipped sum already lies in [0, 100] and the
   * clip never changes it.
   */
  lemma ScoreAccounts(c: Config, tankCapacityM3: real)
    requires ValidConfig(c) && tankCapacityM3 >= 0.0
    ensures var b := EvaluateWith(c, tankCapacityM3);
      && b.reductionRatio <= 1.0
      && 0.0 <= b.terms.runoff <= 40.0
      && b.terms.vetiver == (if c.vetiverOn then 20.0 else 0.0)
      && 0.0 <= b.terms.pavement <= 20.0 && (!c.ppOn ==> b.terms.pavement == 0.0)
      && 0.0 <= b.terms.hugel <= 20.0 && (!c.hugOn ==> b.terms.hugel == 0.0)
      && 0.0 <= RawScore(b.terms) <= 100.0
      && b.score == RawScore(b.terms)
  {
    var b := EvaluateWith(c, tankCapacityM3);
    BedsAccount(c, tankCapacityM3);
    EffectiveRunoffAccounts(c, tankCapacityM3);
    assert b.reductionRatio == ReductionRatio(b.baselineRunoffM3, b.effectiveRunoffM3);
    assert b.terms == Terms(b.reductionRatio, c.vetiverOn, c.ppFraction, c.hugOn,
                            b.hugel.interceptedM3, b.hugel.storageM3);
    assert b.score == ProtectionScore(b.terms);
  }

  /**
   * A storm that produces no baseline runoff leaves the beds and hedgerows
   * nothing to act on, and the effective runoff is the rooftop overflow alone.
   */
  lemma ZeroBaselineAccounts(c: Config, tankCapacityM3: real)
    requires ValidConfig(c) && tankCapacityM3 >= 0.0
    requires EvaluateWith(c, tankCapacityM3).baselineRunoffM3 == 0.0
    ensures var b := EvaluateWith(c, tankCapacityM3);
      && b.hugel.interceptedM3 == 0.0 && b.hugel.overflowM3 == 0.0
      && b.vetiver.extraM3 == 0.0
      && b.effectiveRunoffM3 == b.harvest.overflowM3
  {
    var b := EvaluateWith(c, tankCapacityM3);
    BedsAccount(c, tankCapacityM3);
    HedgerowsAccount(c, tankCapacityM3);
    HarvestAccounts(c, tankCapacityM3);
    PavementAccounts(c, tankCapacityM3);
    assert b.effectiveRunoffM3
        == CombinedRunoff(b.baselineRunoffM3, b.hugel.interceptedM3, b.vetiver.extraM3,
                          b.hugel.overflowM3, b.pavement.infiltrationM3, b.harvest.overflowM3);
  }

  /**
   * With no baseline runoff, the reduction ratio is 1 exactly when no rooftop
   * water overflows, and negative once the overflow exceeds the guard Eps.
   */
  lemma ZeroBaselineRatio(c: Config, tankCapacityM3: real)
    requires ValidConfig(c) && tankCapacityM3 >= 0.0
    requires EvaluateWith(c, tankCapacityM3).baselineRunoffM3 == 0.0
    ensures var b := EvaluateWith(c, tankCapacityM3);
      && (b.reductionRatio == 1.0 <==> b.harvest.overflowM3 == 0.0)
      && (b.harvest.overflowM3 > Eps ==> b.reductionRatio < 0.0)
  {
    var b := EvaluateWith(c, tankCapacityM3);
    ZeroBaselineAccounts(c, tankCapacityM3);
    assert b.reductionRatio == ReductionRatio(0.0, b.harvest.overflowM3);
    QuotientSign(b.harvest.overflowM3, 0.0 + Eps);
  }

  /** Pavement infiltration depends on the storm, not on the baseline: it is positive whenever the pavement is. */
  lemma PavementInfiltratesAnyStorm(c: Config, tankCapacityM3: real)
    requires ValidConfig(c) && tankCapacityM3 >= 0.0
    requires c.ppOn && c.ppFraction > 0.0 && c.ppShare > 0.0
    ensures EvaluateWith(c, tankCapacityM3).pavement.infiltrationM3 > 0.0
  {
    var p := c.pMm as real;
    MulPositive(c.catchmentAreaM2, c.ppFraction);
    var incident := M3FromMmOverArea(p, Mul(c.catchmentAreaM2, c.ppFraction));
    MulPositive(incident, c.ppShare);
    assert EvaluateWith(c, tankCapacityM3).pavement
        == PavementInfiltration(c.ppOn, p, c.catchmentAreaM2, c.ppFraction, c.ppShare);
  }

  /**
   * With no other measure enabled, every cubic metre the beds intercept is
   * taken off the road once, but the routed share that overflows is added
   * back on top of the whole baseline.
   */
  lemma BedOverflowAddedToBaseline(c: Config, tankCapacityM3: real)
    requires ValidConfig(c) && tankCapacityM3 >= 0.0
    requires c.hugOn && !c.vetiverOn && !c.ppOn && !c.harvOn
    ensures var b := EvaluateWith(c, tankCapacityM3);
      b.effectiveRunoffM3 == b.baselineRunoffM3 + b.hugel.routedM3 - 2.0 * b.hugel.interceptedM3
  {
    var b := EvaluateWith(c, tankCapacityM3);
    HarvestAccounts(c, tankCapacityM3);
    BedsAccount(c, tankCapacityM3);
    PavementAccounts(c, tankCapacityM3);
    HedgerowsAccount(c, tankCapacityM3);
    assert b.effectiveRunoffM3
        == CombinedRunoff(b.baselineRunoffM3, b.hugel.interceptedM3, b.vetiver.extraM3,
                          b.hugel.overflowM3, b.pavement.infiltrationM3, b.harvest.overflowM3);
  }

  /** Enabling beds with no storage makes the road wetter than no measure at all. */
  lemma EmptyBedsRaiseRunoff(c: Config, tankCapacityM3: real)
    requires ValidConfig(c) && tankCapacityM3 >= 0.0
    requires c.hugOn && c.nBeds == 0 && c.hugShare > 0.0 && !c.vetiverOn && !c.ppOn && !c.harvOn
    requires EvaluateWith(c, tankCapacityM3).baselineRunoffM3 > 0.0
    ensures EvaluateWith(c, tankCapacityM3).effectiveRunoffM3 > EvaluateWith(c, tankCapacityM3).baselineRunoffM3
  {
    var b := EvaluateWith(c, tankCapacityM3);
    BedOverflowAddedToBaseline(c, tankCapacityM3);
    assert b.hugel.storageM3 == 0.0;
    BedsAccount(c, tankCapacityM3);
    assert b.hugel == HugelBalance(c.hugOn, 0.0, c.hugShare, b.baselineRunoffM3);
    MulPositive(b.baselineRunoffM3, c.hugShare);
  }

  /** The baseline runoff of an evaluation, as a function of its storm, area and curve number. */
  lemma BaselineOf(c: Config, tankCapacityM3: real)
    requires ValidConfig(c) && tankCapacityM3 >= 0.0
    ensures RunoffDefined(c.pMm as real, EffectiveCurveNumber(c))
    ensures EvaluateWith(c, tankCapacityM3).baselineRunoffM3
         == M3FromMmOverArea(RunoffDepth(c.pMm as real, EffectiveCurveNumber(c)), c.catchmentAreaM2)
  {
    RunoffDefinedOnRange(c.pMm as real, EffectiveCurveNumber(c));
  }

  /** A deeper storm, a larger catchment or a higher effective curve number never gives less baseline runoff. */
  lemma BaselineMonotone(c1: Config, c2: Config, tankCapacityM3: real)
    requires ValidConfig(c1) && ValidConfig(c2) && tankCapacityM3 >= 0.0
    requires c1.pMm <= c2.pMm && c1.catchmentAreaM2 <= c2.catchmentAreaM2
    requires EffectiveCurveNumber(c1) <= EffectiveCurveNumber(c2)
    ensures EvaluateWith(c1, tankCapacityM3).baselineRunoffM3 <= EvaluateWith(c2, tankCapacityM3).baselineRunoffM3
  {
    var p1, p2 := c1.pMm as real, c2.pMm as real;
    var cn1, cn2 := EffectiveCurveNumber(c1), EffectiveCurveNumber(c2);
    BaselineOf(c1, tankCapacityM3);
    BaselineOf(c2, tankCapacityM3);
    RunoffMonotoneInCurveNumber(p1, cn1, cn2);
    RunoffMonotoneInRainfall(p1, p2, cn2);
    var q1, q2 := RunoffDepth(p1, cn1), RunoffDepth(p2, cn2);
    M3MonotoneInDepth(q1, q2, c1.catchmentAreaM2);
    M3MonotoneInArea(q2, c1.catchmentAreaM2, c2.catchmentAreaM2);
  }

  /** Hedgerows never raise the baseline runoff: their curve-number reduction only lowers it. */
  lemma VetiverNeverRaisesBaseline(c: Config, tankCapacityM3: real)
    requires ValidConfig(c) && c.vetiverOn && tankCapacityM3 >= 0.0
    ensures var off := c.(vetiverOn := false, vetiverCNDelta := 0, vetiverBoost := 0.0);
      && ValidConfig(off)
      && EvaluateWith(c, tankCapacityM3).baselineRunoffM3 <= EvaluateWith(off, tankCapacityM3).baselineRunoffM3
  {
    var off := c.(vetiverOn := false, vetiverCNDelta := 0, vetiverBoost := 0.0);
    var base, ppDelta := c.baseCN as real, c.ppCNDelta as real;
    VetiverLowersPreSlopeCurveNumber(base, c.vetiverCNDelta as real, c.ppOn, ppDelta, c.ppFraction);
    var pre := PreSlopeCurveNumber(base, true, c.vetiverCNDelta as real, c.ppOn, ppDelta, c.ppFraction);
    var preOff := PreSlopeCurveNumber(base, false, 0.0, off.ppOn, ppDelta, off.ppFraction);
    MulMonotone(pre, preOff, SlopeFactor(c.slope));
    BaselineMonotone(c, off, tankCapacityM3);
  }

  /** Permeable pavements never raise the baseline runoff: their curve-number reduction only lowers it. */
  lemma PavementNeverRaisesBaseline(c: Config, tankCapacityM3: real)
    requires ValidConfig(c) && c.ppOn && tankCapacityM3 >= 0.0
    ensures var off := c.(ppOn := false, ppCNDelta := 0, ppShare := 0.0, ppFraction := 0.0);
      && ValidConfig(off)
      && EvaluateWith(c, tankCapacityM3).baselineRunoffM3 <= EvaluateWith(off, tankCapacityM3).baselineRunoffM3
  {
    var off := c.(ppOn := false, ppCNDelta := 0, ppShare := 0.0, ppFraction := 0.0);
    var base, vDelta := c.baseCN as real, c.vetiverCNDelta as real;
    PavementLowersPreSlopeCurveNumber(base, c.vetiverOn, vDelta, c.ppCNDelta as real, c.ppFraction);
    var pre := PreSlopeCurveNumber(base, c.vetiverOn, vDelta, true, c.ppCNDelta as real, c.ppFraction);
    var preOff := PreSlopeCurveNumber(base, c.vetiverOn, vDelta, false, 0.0, 0.0);
    MulMonotone(pre, preOff, SlopeFactor(c.slope));
    BaselineMonotone(c, off, tankCapacityM3);
  }

  /** A steeper slope condition never gives less baseline runoff. */
  lemma SteeperSlopeMoreRunoff(c: Config, steeper: Slope, tankCapacityM3: real)
    requires ValidConfig(c) && tankCapacityM3 >= 0.0
    requires SlopeFactor(c.slope) <= SlopeFactor(steeper)
    ensures ValidConfig(c.(slope := steeper))
    ensures EvaluateWith(c, tankCapacityM3).baselineRunoffM3
         <= EvaluateWith(c.(slope := steeper), tankCapacityM3).baselineRunoffM3
  {
    var pre := PreSlopeCurveNumber(c.baseCN as real, c.vetiverOn, c.vetiverCNDelta as real,
                                   c.ppOn, c.ppCNDelta as real, c.ppFraction);
    MulMonotone(SlopeFactor(c.slope), SlopeFactor(steeper), pre);
    MulCommutes(SlopeFactor(c.slope), pre);
    MulCommutes(SlopeFactor(steeper), pre);
    BaselineMonotone(c, c.(slope := steeper), tankCapacityM3);
  }

  /**
   * As written, five or more tanks never overflow: their "m³" capacity is at
   * least 1000, while no roof and storm the sidebar allows yields more than
   * 1000 m³.
   */
  lemma AsWrittenTanksNeverOverflow(c: Config)
    requires ValidConfig(c) && c.harvOn && c.nUnits >= 5
    ensures Evaluate(c).harvest.overflowM3 == 0.0
    ensures Evaluate(c).harvest.capturedM3 == Evaluate(c).harvest.yieldM3
  {
    var capacity := TankCapacityM3(c.storagePerUnitL, c.nUnits);
    ProductBetween(c.storagePerUnitL, c.nUnits as real, 200.0, 10000.0, 5.0, 500.0);
    var depth := Max(0.0, c.pMm as real - c.firstFlushMm as real);
    ProductBetween(depth / 1000.0, c.roofAreaM2, 0.0, 0.2, 0.0, 5000.0);
    var h := HarvestBalance(c.harvOn, c.pMm as real, c.firstFlushMm as real, c.roofAreaM2, capacity);
    assert h.yieldM3 <= 1000.0 <= capacity;
    MulNonNegative(c.storagePerUnitL, c.nUnits as real);
    assert Evaluate(c).harvest == h;
  }

  /** Ten 1000 L tanks under a 400 m² roof in an 80 mm storm with a 2 mm first flush, as written: nothing overflows. */
  lemma AsWrittenHarvestExample()
    ensures TankCapacityM3(1000.0, 10) == 10000.0
    ensures HarvestBalance(true, 80.0, 2.0, 400.0, TankCapacityM3(1000.0, 10))
         == Harvest(31.2, 10000.0, 31.2, 0.0)
  {
  }

  /** The same tanks with their capacity in m³: 10 m³ is captured and 21.2 m³ overflows. */
  lemma IntendedHarvestExample()
    ensures IntendedTankCapacityM3(1000.0, 10) == 10.0
    ensures HarvestBalance(true, 80.0, 2.0, 400.0, IntendedTankCapacityM3(1000.0, 10))
         == Harvest(31.2, 10.0, 10.0, 21.2)
  {
  }
}
