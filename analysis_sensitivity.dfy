/**
 * The `sensitivityAnalysis` stage of the analysis page: a fifteen-year value
 * (`15 x yearly water value - installation cost`) recomputed with the
 * harvest, the installation cost or the water price moved by -20 %, -10 %, 0,
 * +10 % and +20 %, each point also given as a percentage change from the
 * stage's base NPV.
 */
module SensitivityAnalyzer {
  import opened Wrappers
  import opened JsMath
  import opened RainfallEstimator
  import opened CostEstimator
  import opened FinancialAnalyzer

  datatype SensitivityPoint = SensitivityPoint(variation: int, npv: int, change: int)

  datatype SensitivityAnalysis = SensitivityAnalysis(
    rainfall: seq<SensitivityPoint>,
    cost: seq<SensitivityPoint>,
    waterPrice: seq<SensitivityPoint>)

  /** Which input a series moves. */
  datatype Driver = Rainfall | Cost | WaterPrice

  const Variations: seq<int> := [-20, -10, 0, 10, 20]

  /** Years of water value the quick estimate counts. */
  const HorizonYears: real := 15.0

  /** `1 + variation / 100`. */
  function Factor(variation: int): real
  {
    1.0 + variation as real / 100.0
  }

  /** The unrounded fifteen-year value with `driver` moved by `variation` percent. */
  function AdjustedNpv(driver: Driver, effectiveHarvest: int, waterPrice: real, total: int, variation: int): real
  {
    match driver
    case Rainfall =>
      var adjustedHarvest := effectiveHarvest as real * Factor(variation);
      (adjustedHarvest / 1000.0) * waterPrice * HorizonYears - total as real
    case Cost =>
      var adjustedCost := total as real * Factor(variation);
      (effectiveHarvest as real / 1000.0) * waterPrice * HorizonYears - adjustedCost
    case WaterPrice =>
      var adjustedWaterPrice := waterPrice * Factor(variation);
      (effectiveHarvest as real / 1000.0) * adjustedWaterPrice * HorizonYears - total as real
  }

  /** The percentage change of `adjusted` from `base`, rounded; 0 when the base is 0. */
  function Change(adjusted: real, base: int): (c: int)
    ensures base == 0 ==> c == 0
    ensures adjusted >= base as real ==> c >= 0
    ensures adjusted <= base as real ==> c <= 0
  {
    if base != 0 then
      var ratio := (adjusted - base as real) / Abs(base as real);
      assert adjusted >= base as real ==> ratio >= 0.0;
      assert adjusted <= base as real ==> ratio <= 0.0;
      Round(ratio * 100.0)
    else 0
  }

  /** One series: a point per variation, in order. */
  function Series(driver: Driver, effectiveHarvest: int, waterPrice: real, total: int, base: int): (s: seq<SensitivityPoint>)
    ensures |s| == |Variations|
    ensures forall i :: 0 <= i < |s| ==> s[i].variation == Variations[i]
    ensures forall i :: 0 <= i < |s| ==>
      s[i].npv == Round(AdjustedNpv(driver, effectiveHarvest, waterPrice, total, Variations[i]))
      && s[i].change == Change(AdjustedNpv(driver, effectiveHarvest, waterPrice, total, Variations[i]), base)
  {
    seq(|Variations|, i requires 0 <= i < |Variations| =>
      var adjusted := AdjustedNpv(driver, effectiveHarvest, waterPrice, total, Variations[i]);
      SensitivityPoint(Variations[i], Round(adjusted), Change(adjusted, base)))
  }

  /** The `sensitivityAnalysis` memo body; `None` is its `null`. */
  function Analyse(financial: Option<FinancialAnalysis>, rain: Option<RainfallAnalysis>,
                   cost: Option<CostBreakdown>, waterPrice: real): (r: Option<SensitivityAnalysis>)
    ensures r.Some? <==> financial.Some? && rain.Some? && cost.Some?
  {
    if financial.None? || rain.None? || cost.None? then None
    else
      var eh, total, base := rain.value.effectiveHarvest, cost.value.total, financial.value.npv;
      Some(SensitivityAnalysis(
        rainfall := Series(Rainfall, eh, waterPrice, total, base),
        cost := Series(Cost, eh, waterPrice, total, base),
        waterPrice := Series(WaterPrice, eh, waterPrice, total, base)))
  }

  /** Unmoved, every driver gives the same value: fifteen years of water less the installation. */
  lemma AgreeAtZero(effectiveHarvest: int, waterPrice: real, total: int)
    ensures AdjustedNpv(Rainfall, effectiveHarvest, waterPrice, total, 0)
         == AdjustedNpv(Cost, effectiveHarvest, waterPrice, total, 0)
         == AdjustedNpv(WaterPrice, effectiveHarvest, waterPrice, total, 0)
         == WaterValue(effectiveHarvest, waterPrice) * HorizonYears - total as real
  {
  }

  /** Moving the harvest and moving the price by the same percentage change the water value alike. */
  lemma RainfallMatchesWaterPrice(effectiveHarvest: int, waterPrice: real, total: int, variation: int)
    ensures AdjustedNpv(Rainfall, effectiveHarvest, waterPrice, total, variation)
         == AdjustedNpv(WaterPrice, effectiveHarvest, waterPrice, total, variation)
  {
    var h, f := effectiveHarvest as real, Factor(variation);
    assert (h * f / 1000.0) * waterPrice == (h / 1000.0) * (waterPrice * f);
  }

  /** The three series of a reported analysis agree at 0 %, and the harvest and price series are identical. */
  lemma SeriesAgree(financial: Option<FinancialAnalysis>, rain: Option<RainfallAnalysis>,
                    cost: Option<CostBreakdown>, waterPrice: real)
    requires financial.Some? && rain.Some? && cost.Some?
    ensures var r := Analyse(financial, rain, cost, waterPrice).value;
      r.rainfall == r.waterPrice
      && r.rainfall[2] == r.cost[2] == r.waterPrice[2]
      && r.cost[2].npv == Round(WaterValue(rain.value.effectiveHarvest, waterPrice) * HorizonYears - cost.value.total as real)
  {
    var eh, total, base := rain.value.effectiveHarvest, cost.value.total, financial.value.npv;
    var a := Series(Rainfall, eh, waterPrice, total, base);
    var b := Series(WaterPrice, eh, waterPrice, total, base);
    forall i | 0 <= i < |a|
      ensures a[i] == b[i]
    {
      RainfallMatchesWaterPrice(eh, waterPrice, total, Variations[i]);
    }
    AgreeAtZero(eh, waterPrice, total);
  }

  /** Taking at least 1 away lowers the rounded value by at least 1. */
  lemma RoundDropsByOne(x: real, d: real)
    requires d >= 1.0
    ensures Round(x - d) <= Round(x) - 1
  {
    assert Round(x - 1.0) == Round(x) - 1;
    RoundMonotone(x - d, x - 1.0);
  }

  /**
   * The cost series never rises as the cost variation rises, and falls at
   * every step once the installation costs 10 or more.
   */
  lemma CostSeriesDecreasing(effectiveHarvest: int, waterPrice: real, total: int, base: int, i: nat, j: nat)
    requires total >= 0 && i < j < |Variations|
    ensures var s := Series(Cost, effectiveHarvest, waterPrice, total, base);
      s[j].npv <= s[i].npv && (total >= 10 ==> s[j].npv < s[i].npv)
  {
    var x := AdjustedNpv(Cost, effectiveHarvest, waterPrice, total, Variations[i]);
    var y := AdjustedNpv(Cost, effectiveHarvest, waterPrice, total, Variations[j]);
    var t := total as real;
    var step := t * Factor(Variations[j]) - t * Factor(Variations[i]);
    assert step == t * ((Variations[j] - Variations[i]) as real / 100.0);
    assert Variations[j] - Variations[i] >= 10;
    ScaleMonotone(t, 0.1, (Variations[j] - Variations[i]) as real / 100.0);
    assert y == x - step;
    RoundMonotone(y, x);
    if total >= 10 {
      RoundDropsByOne(x, step);
    }
  }
}
