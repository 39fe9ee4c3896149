/**
 * The water-balance engine: one storm, four optional measures, one balance.
 * Each stage is a function of the quantities the earlier stages produced;
 * Evaluate chains them in the order Simulation.py computes them.
 */
module WaterBalance {
  import opened Arith
  import opened Units
  import opened ScsRunoff
  import opened Scenario

  function Max(a: real, b: real): real { if a >= b then a else b }
  function Min(a: real, b: real): real { if a <= b then a else b }

  /** Guard added to the denominators of the protection score. */
  const Eps: real := 1e-9

  // ---------------------------------------------------------------------
  // Curve number
  // ---------------------------------------------------------------------

  /** Curve number after the vetiver and permeable-pavement reductions, before slope. */
  function PreSlopeCurveNumber(baseCN: real, vetiverOn: bool, vetiverDelta: real,
                               ppOn: bool, ppDelta: real, ppFraction: real): (cn: real)
    ensures 30.0 <= baseCN && vetiverDelta >= 0.0 && ppDelta >= 0.0 && 0.0 <= ppFraction <= 1.0
            ==> 30.0 <= cn <= baseCN
  {
    var afterVetiver := if vetiverOn then Max(30.0, baseCN - vetiverDelta) else baseCN;
    if ppOn then
      var treated := Max(30.0, afterVetiver - ppDelta);
      BlendBetween(afterVetiver, treated, ppFraction, 30.0, baseCN);
      Mul(1.0 - ppFraction, afterVetiver) + Mul(ppFraction, treated)
    else
      afterVetiver
  }

  /** An area-weighted average of two values in [lo, hi] stays in [lo, hi]. */
  lemma BlendBetween(x: real, y: real, f: real, lo: real, hi: real)
    ensures lo <= x <= hi && lo <= y <= hi && 0.0 <= f <= 1.0
            ==> lo <= Mul(1.0 - f, x) + Mul(f, y) <= hi
  {
    if lo <= x <= hi && lo <= y <= hi && 0.0 <= f <= 1.0 {
      MulMonotone(lo, x, 1.0 - f);
      MulMonotone(x, hi, 1.0 - f);
      MulMonotone(lo, y, f);
      MulMonotone(y, hi, f);
      MulCommutes(lo, 1.0 - f);
      MulCommutes(x, 1.0 - f);
      MulCommutes(hi, 1.0 - f);
      MulCommutes(lo, f);
      MulCommutes(y, f);
      MulCommutes(hi, f);
    }
  }

  /** The pavement blend never increases as the curve number it starts from decreases. */
  lemma PavementBlendMonotone(a1: real, a2: real, ppDelta: real, ppFraction: real)
    requires a1 <= a2 && 0.0 <= ppFraction <= 1.0
    ensures Mul(1.0 - ppFraction, a1) + Mul(ppFraction, Max(30.0, a1 - ppDelta))
         <= Mul(1.0 - ppFraction, a2) + Mul(ppFraction, Max(30.0, a2 - ppDelta))
  {
    MulMonotone(a1, a2, 1.0 - ppFraction);
    MulMonotone(Max(30.0, a1 - ppDelta), Max(30.0, a2 - ppDelta), ppFraction);
    MulCommutes(a1, 1.0 - ppFraction);
    MulCommutes(a2, 1.0 - ppFraction);
    MulCommutes(Max(30.0, a1 - ppDelta), ppFraction);
    MulCommutes(Max(30.0, a2 - ppDelta), ppFraction);
  }

  /** Vetiver hedgerows never raise the pre-slope curve number. */
  lemma VetiverLowersPreSlopeCurveNumber(baseCN: real, vetiverDelta: real,
                                         ppOn: bool, ppDelta: real, ppFraction: real)
    requires 30.0 <= baseCN && vetiverDelta >= 0.0 && 0.0 <= ppFraction <= 1.0
    ensures PreSlopeCurveNumber(baseCN, true, vetiverDelta, ppOn, ppDelta, ppFraction)
         <= PreSlopeCurveNumber(baseCN, false, 0.0, ppOn, ppDelta, ppFraction)
  {
    if ppOn {
      PavementBlendMonotone(Max(30.0, baseCN - vetiverDelta), baseCN, ppDelta, ppFraction);
    }
  }

  /** Permeable pavements never raise the pre-slope curve number. */
  lemma PavementLowersPreSlopeCurveNumber(baseCN: real, vetiverOn: bool, vetiverDelta: real,
                                                             ppDelta: real, ppFraction: real)
    requires 30.0 <= baseCN && ppDelta >= 0.0 && 0.0 <= ppFraction <= 1.0
    ensures PreSlopeCurveNumber(baseCN, vetiverOn, vetiverDelta, true, ppDelta, ppFraction)
         <= PreSlopeCurveNumber(baseCN, vetiverOn, vetiverDelta, false, 0.0, 0.0)
  {
    var a := if vetiverOn then Max(30.0, baseCN - vetiverDelta) else baseCN;
    var t := Max(30.0, a - ppDelta);
    assert t <= a;
    MulMonotone(t, a, ppFraction);
    MulCommutes(t, ppFraction);
    MulCommutes(a, ppFraction);
    MulDistributes(1.0 - ppFraction, ppFraction, a);
    MulCommutes(1.0 - ppFraction, a);
  }

  /** The effective curve number: the pre-slope value times the slope factor. */
  function EffectiveCurveNumber(c: Config): (cn: real)
    ensures ValidConfig(c) ==> 28.5 <= cn <= 99.75
  {
    var pre := PreSlopeCurveNumber(c.baseCN as real, c.vetiverOn, c.vetiverCNDelta as real,
                                   c.ppOn, c.ppCNDelta as real, c.ppFraction);
    var f := SlopeFactor(c.slope);
    ProductBetween(pre, f, 30.0, 95.0, 0.95, 1.05);
    Mul(pre, f)
  }

  // ---------------------------------------------------------------------
  // Rooftop rainwater harvesting
  // ---------------------------------------------------------------------

  /**
   * Total tank capacity as Simulation.py computes it: the litre total is passed
   * through Liters (x 1000) and divided by 1000, so the figure labelled m³ is
   * numerically the number of litres.
   */
  function TankCapacityM3(storagePerUnitL: real, nUnits: int): (v: real)
    ensures v == Mul(storagePerUnitL, nUnits as real)
  {
    Liters(Mul(storagePerUnitL, nUnits as real)) / 1000.0
  }

  /** Total tank capacity in m³ as the litre total is meant to be converted: litres / 1000. */
  function IntendedTankCapacityM3(storagePerUnitL: real, nUnits: int): (v: real)
    ensures Liters(v) == Mul(storagePerUnitL, nUnits as real)
    ensures storagePerUnitL >= 0.0 && nUnits >= 0 ==> v >= 0.0
  {
    MulSign(storagePerUnitL, nUnits as real);
    Mul(storagePerUnitL, nUnits as real) / 1000.0
  }

  /** The capacity as written is a thousand times the capacity in m³ of any non-empty set of tanks. */
  lemma TankCapacityOverstated(storagePerUnitL: real, nUnits: int)
    requires storagePerUnitL > 0.0 && nUnits > 0
    ensures TankCapacityM3(storagePerUnitL, nUnits) == 1000.0 * IntendedTankCapacityM3(storagePerUnitL, nUnits)
    ensures TankCapacityM3(storagePerUnitL, nUnits) > IntendedTankCapacityM3(storagePerUnitL, nUnits)
  {
    MulPositive(storagePerUnitL, nUnits as real);
  }

  datatype Harvest = Harvest(yieldM3: real, capacityM3: real, capturedM3: real, overflowM3: real)

  /**
   * Rooftop yield after the first-flush skim, split into captured water and
   * overflow; the tanks fill before anything overflows.
   */
  function HarvestBalance(on: bool, pMm: real, firstFlushMm: real, roofAreaM2: real,
                          capacityM3: real): (h: Harvest)
    ensures h.capacityM3 == capacityM3
    ensures h.capturedM3 + h.overflowM3 == h.yieldM3
    ensures h.capturedM3 <= h.yieldM3 && h.overflowM3 >= 0.0
    ensures roofAreaM2 >= 0.0 ==> h.yieldM3 >= 0.0
    ensures roofAreaM2 >= 0.0 && capacityM3 >= 0.0 ==> 0.0 <= h.capturedM3 <= capacityM3
    ensures on && pMm <= firstFlushMm ==> h.yieldM3 == 0.0
    ensures on ==> h.capturedM3 == Min(h.yieldM3, capacityM3)
    ensures !on ==> h == Harvest(0.0, capacityM3, 0.0, 0.0)
  {
    var depth := if on then Max(0.0, pMm - firstFlushMm) else 0.0;
    var roofYield := M3FromMmOverArea(depth, roofAreaM2);
    var captured := if on then Min(roofYield, capacityM3) else 0.0;
    Harvest(roofYield, capacityM3, captured, Max(0.0, roofYield - captured))
  }

  /** With harvesting on, the overflow is exactly the yield in excess of the capacity. */
  lemma TanksFillBeforeOverflow(on: bool, pMm: real, firstFlushMm: real, roofAreaM2: real, capacityM3: real)
    requires on && roofAreaM2 >= 0.0 && capacityM3 >= 0.0
    ensures var h := HarvestBalance(on, pMm, firstFlushMm, roofAreaM2, capacityM3);
      h.overflowM3 == Max(0.0, h.yieldM3 - capacityM3)
  {
  }

  // ---------------------------------------------------------------------
  // Hügelkultur beds
  // ---------------------------------------------------------------------

  /** Usable water storage of the beds: gross core volume x porosity x (1 - edge losses). */
  function HugelStorageM3(nBeds: int, lengthM: real, widthM: real, coreDepthM: real,
                          porosity: real, borderLoss: real): (v: real)
    ensures nBeds == 0 ==> v == 0.0
  {
    var core := Mul(Mul(Mul(nBeds as real, lengthM), widthM), coreDepthM);
    Mul(Mul(core, porosity), 1.0 - borderLoss)
  }

  lemma HugelStorageNonNegative(nBeds: int, lengthM: real, widthM: real, coreDepthM: real,
                                porosity: real, borderLoss: real)
    requires nBeds >= 0 && lengthM >= 0.0 && widthM >= 0.0 && coreDepthM >= 0.0
    requires porosity >= 0.0 && borderLoss <= 1.0
    ensures HugelStorageM3(nBeds, lengthM, widthM, coreDepthM, porosity, borderLoss) >= 0.0
  {
    var n := nBeds as real;
    MulNonNegative(n, lengthM);
    MulNonNegative(Mul(n, lengthM), widthM);
    MulNonNegative(Mul(Mul(n, lengthM), widthM), coreDepthM);
    var core := Mul(Mul(Mul(n, lengthM), widthM), coreDepthM);
    MulNonNegative(core, porosity);
    MulNonNegative(Mul(core, porosity), 1.0 - borderLoss);
  }

  datatype Hugel = Hugel(routedM3: real, storageM3: real, interceptedM3: real, overflowM3: real)

  /**
   * The share of baseline runoff routed to the beds, split into intercepted
   * water and overflow; the beds fill before anything overflows.
   */
  function HugelBalance(on: bool, storageM3: real, interceptShare: real, baselineM3: real): (g: Hugel)
    ensures g.routedM3 == Mul(baselineM3, interceptShare) && g.storageM3 == storageM3
    ensures baselineM3 >= 0.0 && 0.0 <= interceptShare <= 1.0 ==> 0.0 <= g.routedM3 <= baselineM3
    ensures g.overflowM3 >= 0.0
    ensures on ==> g.interceptedM3 <= storageM3 && g.interceptedM3 <= g.routedM3
    ensures g.routedM3 >= 0.0 ==> g.interceptedM3 + g.overflowM3 == g.routedM3
    ensures g.routedM3 >= 0.0 && storageM3 >= 0.0 ==>
              0.0 <= g.interceptedM3 <= storageM3 && g.interceptedM3 <= g.routedM3
    ensures on ==> g.interceptedM3 == Min(g.routedM3, storageM3)
    ensures !on ==> g.interceptedM3 == 0.0
    ensures !on && interceptShare == 0.0 ==> g.overflowM3 == 0.0
  {
    var routed := Mul(baselineM3, interceptShare);
    FractionBounds(baselineM3, interceptShare);
    var intercepted := if on then Min(routed, storageM3) else 0.0;
    Hugel(routed, storageM3, intercepted, Max(0.0, routed - intercepted))
  }

  /** With the beds on, the overflow is exactly the routed water in excess of the storage. */
  lemma BedsFillBeforeOverflow(on: bool, storageM3: real, interceptShare: real, baselineM3: real)
    requires on && storageM3 >= 0.0 && baselineM3 >= 0.0 && interceptShare >= 0.0
    ensures var g := HugelBalance(on, storageM3, interceptShare, baselineM3);
      g.overflowM3 == Max(0.0, g.routedM3 - storageM3)
  {
    MulSign(baselineM3, interceptShare);
  }

  // ---------------------------------------------------------------------
  // Permeable pavements
  // ---------------------------------------------------------------------

  datatype Pavement = Pavement(incidentM3: real, infiltrationM3: real)

  /** Rain falling on the converted sub-area and the share of it that infiltrates directly. */
  function PavementInfiltration(on: bool, pMm: real, catchmentAreaM2: real, fraction: real,
                                share: real): (v: Pavement)
    ensures !on ==> v == Pavement(0.0, 0.0)
  {
    var incident := if on then M3FromMmOverArea(pMm, Mul(catchmentAreaM2, fraction)) else 0.0;
    Pavement(incident, if on then Mul(incident, share) else 0.0)
  }

  lemma PavementBounds(on: bool, pMm: real, catchmentAreaM2: real, fraction: real, share: real)
    requires pMm >= 0.0 && catchmentAreaM2 >= 0.0
    requires 0.0 <= fraction <= 1.0 && 0.0 <= share <= 1.0
    ensures 0.0 <= PavementInfiltration(on, pMm, catchmentAreaM2, fraction, share).infiltrationM3
                <= PavementInfiltration(on, pMm, catchmentAreaM2, fraction, share).incidentM3
                <= M3FromMmOverArea(pMm, catchmentAreaM2)
  {
    var area := Mul(catchmentAreaM2, fraction);
    FractionBounds(catchmentAreaM2, fraction);
    M3MonotoneInArea(pMm, area, catchmentAreaM2);
    var incident := M3FromMmOverArea(pMm, area);
    assert 0.0 <= incident <= M3FromMmOverArea(pMm, catchmentAreaM2);
    FractionBounds(incident, share);
    var v := PavementInfiltration(on, pMm, catchmentAreaM2, fraction, share);
    if on {
      assert v == Pavement(incident, Mul(incident, share));
    } else {
      assert v == Pavement(0.0, 0.0);
    }
  }

  // ---------------------------------------------------------------------
  // Vetiver hedgerows
  // ---------------------------------------------------------------------

  datatype Vetiver = Vetiver(remainingM3: real, extraM3: real)

  /** Extra infiltration applied to the runoff left after Hügel interception. */
  function VetiverInfiltration(on: bool, baselineM3: real, interceptedM3: real, boost: real): (v: Vetiver)
    ensures v.remainingM3 >= 0.0 && v.remainingM3 >= baselineM3 - interceptedM3
    ensures interceptedM3 >= 0.0 && baselineM3 >= 0.0 ==> v.remainingM3 <= baselineM3
    ensures !on ==> v.extraM3 == 0.0
    ensures 0.0 <= boost <= 1.0 ==> 0.0 <= v.extraM3 <= v.remainingM3
  {
    var remaining := Max(0.0, baselineM3 - interceptedM3);
    var extra := if on then Mul(remaining, boost) else 0.0;
    FractionBounds(remaining, boost);
    assert 0.0 <= boost <= 1.0 ==> 0.0 <= extra <= remaining;
    Vetiver(remaining, extra)
  }

  // ---------------------------------------------------------------------
  // Combination and protection score
  // ---------------------------------------------------------------------

  /**
   * Effective runoff: baseline less interception and vetiver infiltration
   * (floored), plus Hügel overflow, less pavement infiltration (floored),
   * plus rooftop overflow.
   */
  function CombinedRunoff(baselineM3: real, interceptedM3: real, vetiverM3: real,
                          hugelOverflowM3: real, pavementM3: real, roofOverflowM3: real): (r: real)
    ensures r >= roofOverflowM3
    ensures roofOverflowM3 >= 0.0 ==> r >= 0.0
    ensures baselineM3 >= 0.0 && interceptedM3 >= 0.0 && vetiverM3 >= 0.0
            && hugelOverflowM3 >= 0.0 && pavementM3 >= 0.0
            ==> r <= baselineM3 + hugelOverflowM3 + roofOverflowM3
    ensures baselineM3 >= 0.0 && interceptedM3 == 0.0 && vetiverM3 == 0.0
            && hugelOverflowM3 == 0.0 && pavementM3 == 0.0
            ==> r == baselineM3 + roofOverflowM3
  {
    var afterHugel := Max(0.0, baselineM3 - interceptedM3 - vetiverM3) + hugelOverflowM3;
    var afterPavement := Max(0.0, afterHugel - pavementM3);
    afterPavement + roofOverflowM3
  }

  datatype ScoreTerms = ScoreTerms(runoff: real, vetiver: real, pavement: real, hugel: real)

  /** One minus effective over baseline runoff, guarded against a zero baseline. */
  function ReductionRatio(baselineM3: real, effectiveM3: real): (ratio: real)
    requires baselineM3 + Eps != 0.0
    ensures baselineM3 >= 0.0 && effectiveM3 >= 0.0 ==> ratio <= 1.0
    ensures effectiveM3 == 0.0 ==> ratio == 1.0
    ensures baselineM3 >= 0.0 && effectiveM3 > baselineM3 + Eps ==> ratio < 0.0
  {
    QuotientSign(effectiveM3, baselineM3 + Eps);
    QuotientAboveOne(effectiveM3, baselineM3 + Eps);
    1.0 - effectiveM3 / (baselineM3 + Eps)
  }

  /** The four weighted signals of the road protection score. */
  function Terms(ratio: real, vetiverOn: bool, ppFraction: real, hugOn: bool,
                 interceptedM3: real, storageM3: real): (t: ScoreTerms)
    requires storageM3 + Eps != 0.0
    ensures 0.0 <= t.runoff && (ratio <= 1.0 ==> t.runoff <= 40.0)
    ensures t.vetiver == (if vetiverOn then 20.0 else 0.0)
    ensures 0.0 <= ppFraction <= 1.0 ==> 0.0 <= t.pavement <= 20.0
    ensures ppFraction == 0.0 ==> t.pavement == 0.0
    ensures t.hugel <= 20.0
    ensures interceptedM3 >= 0.0 && storageM3 >= 0.0 ==> t.hugel >= 0.0
    ensures !hugOn ==> t.hugel == 0.0
  {
    var utilisation := interceptedM3 / (storageM3 + Eps);
    QuotientSign(interceptedM3, storageM3 + Eps);
    ScoreTerms(40.0 * Max(0.0, ratio),
               20.0 * (if vetiverOn then 1.0 else 0.0),
               20.0 * ppFraction,
               20.0 * Min(1.0, if hugOn then utilisation else 0.0))
  }

  function Clip(x: real, lo: real, hi: real): (r: real)
    requires lo <= hi
    ensures lo <= r <= hi
    ensures lo <= x <= hi ==> r == x
  {
    Min(Max(x, lo), hi)
  }

  /** The weighted sum before clipping: in [0, 100] whenever each term lies within its weight. */
  function RawScore(t: ScoreTerms): (r: real)
    ensures 0.0 <= t.runoff <= 40.0 && 0.0 <= t.vetiver <= 20.0
            && 0.0 <= t.pavement <= 20.0 && 0.0 <= t.hugel <= 20.0
            ==> 0.0 <= r <= 100.0
  {
    t.runoff + t.vetiver + t.pavement + t.hugel
  }

  /** The road protection score, clipped to [0, 100]. */
  function ProtectionScore(t: ScoreTerms): (score: real)
    ensures 0.0 <= score <= 100.0
    ensures 0.0 <= RawScore(t) <= 100.0 ==> score == RawScore(t)
  {
    Clip(RawScore(t), 0.0, 100.0)
  }

  // ---------------------------------------------------------------------
  // The whole engine
  // ---------------------------------------------------------------------

  /** Every derived quantity of one evaluation, volumes in m³. */
  datatype Balance = Balance(
    cnEffective: real,
    runoffDepthMm: real,
    baselineRunoffM3: real,
    harvest: Harvest,
    hugel: Hugel,
    pavement: Pavement,
    vetiver: Vetiver,
    effectiveRunoffM3: real,
    reductionRatio: real,
    terms: ScoreTerms,
    score: real)

  /**
   * The engine for a given total tank capacity: curve number, baseline
   * runoff, the four measures, their combination and the score.
   */
  function EvaluateWith(c: Config, tankCapacityM3: real): (b: Balance)
    requires ValidConfig(c) && tankCapacityM3 >= 0.0
    ensures 28.5 <= b.cnEffective <= 99.75
    ensures 0.0 <= b.runoffDepthMm < c.pMm as real
    ensures b.baselineRunoffM3 >= 0.0
    ensures b.harvest.capacityM3 == tankCapacityM3
  {
    var p := c.pMm as real;
    var cn := EffectiveCurveNumber(c);
    RunoffDefinedOnRange(p, cn);
    RunoffBelowRainfall(p, cn);
    var q := RunoffDepth(p, cn);
    var baseline := M3FromMmOverArea(q, c.catchmentAreaM2);
    var harvest := HarvestBalance(c.harvOn, p, c.firstFlushMm as real, c.roofAreaM2, tankCapacityM3);
    var storage := HugelStorageM3(c.nBeds, c.bedLengthM, c.bedWidthM, c.bedCoreDepthM,
                                  c.corePorosity, c.borderLoss);
    HugelStorageNonNegative(c.nBeds, c.bedLengthM, c.bedWidthM, c.bedCoreDepthM,
                            c.corePorosity, c.borderLoss);
    var hugel := HugelBalance(c.hugOn, storage, c.hugShare, baseline);
    var pavement := PavementInfiltration(c.ppOn, p, c.catchmentAreaM2, c.ppFraction, c.ppShare);
    var vetiver := VetiverInfiltration(c.vetiverOn, baseline, hugel.interceptedM3, c.vetiverBoost);
    var effective := CombinedRunoff(baseline, hugel.interceptedM3, vetiver.extraM3,
                                    hugel.overflowM3, pavement.infiltrationM3, harvest.overflowM3);
    var ratio := ReductionRatio(baseline, effective);
    var terms := Terms(ratio, c.vetiverOn, c.ppFraction, c.hugOn, hugel.interceptedM3, storage);
    Balance(cn, q, baseline, harvest, hugel, pavement, vetiver, effective, ratio, terms,
            ProtectionScore(terms))
  }

  /** The engine as the program runs it: the tank capacity carries the litre total. */
  function Evaluate(c: Config): (b: Balance)
    requires ValidConfig(c)
    ensures b.harvest.capacityM3 == Mul(c.storagePerUnitL, c.nUnits as real)
  {
    var capacity := TankCapacityM3(c.storagePerUnitL, c.nUnits);
    MulNonNegative(c.storagePerUnitL, c.nUnits as real);
    EvaluateWith(c, capacity)
  }

  /** The engine with the tank capacity converted from litres to m³. */
  function EvaluateIntended(c: Config): (b: Balance)
    requires ValidConfig(c)
    ensures Liters(b.harvest.capacityM3) == Mul(c.storagePerUnitL, c.nUnits as real)
  {
    EvaluateWith(c, IntendedTankCapacityM3(c.storagePerUnitL, c.nUnits))
  }
}
