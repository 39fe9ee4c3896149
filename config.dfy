/**
 * The sidebar inputs of the stormwater sandbox, as the engine receives them
 * after each measure's on/off branch, and the ranges the widgets allow.
 */
module Scenario {

  /** Qualitative slope condition of the road catchment. */
  datatype Slope = Low | Moderate | Steep

  /** Multiplicative runoff-amplification factor of a slope condition. */
  function SlopeFactor(slope: Slope): (f: real)
    ensures 0.95 <= f <= 1.05
  {
    match slope
    case Low => 0.95
    case Moderate => 1.00
    case Steep => 1.05
  }

  /**
   * One evaluation request. Integer-valued widgets are ints; the percentage
   * sliders are already divided by 100. A disabled measure carries zeros.
   */
  datatype Config = Config(
    pMm: int,                  // design storm depth P (mm)
    catchmentAreaM2: real,     // road catchment draining to the problem spots
    roofAreaM2: real,          // rooftop catchment available for harvesting
    baseCN: int,               // base curve number of the dirt roads / soils
    slope: Slope,
    harvOn: bool,              // rainwater harvesting
    storagePerUnitL: real,
    nUnits: int,
    firstFlushMm: int,
    vetiverOn: bool,           // vetiver grass hedgerows
    vetiverCNDelta: int,
    vetiverBoost: real,
    hugOn: bool,               // Hügelkultur beds
    nBeds: int,
    bedLengthM: real,
    bedWidthM: real,
    bedCoreDepthM: real,
    corePorosity: real,
    borderLoss: real,
    hugShare: real,
    ppOn: bool,                // permeable pavements
    ppCNDelta: int,
    ppShare: real,
    ppFraction: real)

  predicate HarvestInputs(c: Config)
  {
    if c.harvOn then
      200.0 <= c.storagePerUnitL <= 10000.0 && 0 <= c.nUnits <= 500 && 0 <= c.firstFlushMm <= 5
    else
      c.storagePerUnitL == 0.0 && c.nUnits == 0 && c.firstFlushMm == 0
  }

  predicate VetiverInputs(c: Config)
  {
    if c.vetiverOn then
      0 <= c.vetiverCNDelta <= 10 && 0.0 <= c.vetiverBoost <= 0.30
    else
      c.vetiverCNDelta == 0 && c.vetiverBoost == 0.0
  }

  predicate HugelInputs(c: Config)
  {
    if c.hugOn then
      && 0 <= c.nBeds <= 200
      && 1.0 <= c.bedLengthM <= 50.0
      && 0.5 <= c.bedWidthM <= 5.0
      && 0.1 <= c.bedCoreDepthM <= 2.0
      && 0.20 <= c.corePorosity <= 0.80
      && 0.0 <= c.borderLoss <= 0.5
      && 0.0 <= c.hugShare <= 0.80
    else
      && c.nBeds == 0 && c.bedLengthM == 0.0 && c.bedWidthM == 0.0
      && c.bedCoreDepthM == 0.0 && c.corePorosity == 0.0
      && c.borderLoss == 0.0 && c.hugShare == 0.0
  }

  predicate PavementInputs(c: Config)
  {
    if c.ppOn then
      0 <= c.ppCNDelta <= 20 && 0.0 <= c.ppShare <= 0.90 && 0.0 <= c.ppFraction <= 1.0
    else
      c.ppCNDelta == 0 && c.ppShare == 0.0 && c.ppFraction == 0.0
  }

  /**
   * Everything the sidebar can hand to the engine: each widget within its
   * range, and each disabled measure carrying its zero defaults. Every share
   * and fraction the engine multiplies by then lies in [0, 1].
   */
  predicate ValidConfig(c: Config)
    ensures ValidConfig(c) ==>
      && c.catchmentAreaM2 > 0.0 && c.roofAreaM2 >= 0.0
      && 0.0 <= c.vetiverBoost <= 1.0 && 0.0 <= c.hugShare <= 1.0
      && 0.0 <= c.ppShare <= 1.0 && 0.0 <= c.ppFraction <= 1.0
      && 0.0 <= c.borderLoss <= 1.0
  {
    && 20 <= c.pMm <= 200
    && 100.0 <= c.catchmentAreaM2 <= 20000.0
    && 0.0 <= c.roofAreaM2 <= 5000.0
    && 70 <= c.baseCN <= 95
    && HarvestInputs(c)
    && VetiverInputs(c)
    && HugelInputs(c)
    && PavementInputs(c)
  }

  /** The sidebar as it first appears: every widget at its default value, pavement disabled. */
  function SidebarDefaults(): (c: Config)
    ensures ValidConfig(c)
    ensures c.harvOn && c.vetiverOn && c.hugOn && !c.ppOn
  {
    Config(80, 3000.0, 400.0, 85, Moderate,
           true, 1000.0, 10, 2,
           true, 4, 0.10,
           true, 20, 6.0, 1.2, 0.6, 0.50, 0.15, 0.30,
           false, 0, 0.0, 0.0)
  }
}
