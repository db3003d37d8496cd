/**
 * The `storageOptimization` stage of the analysis page: from the effective
 * harvest and the number of dwellers, the recommended tank volume (30 to 90
 * days of household demand), the structure archetype and complexity band for
 * that volume, and the tank's dimensions.
 */
module StorageSizer {
  import opened Wrappers
  import opened JsMath
  import opened Text
  import opened RainfallEstimator

  datatype Complexity = Basic | Intermediate | Advanced

  datatype StorageOptimization = StorageOptimization(
    recommendedVolume: int,
    actualVolume: int,
    structureType: string,
    dimensions: string,
    complexity: Complexity,
    storageDays: int,
    utilizationRate: real)

  /** Litres of water one dweller uses a day. */
  const LitresPerPersonPerDay: real := 150.0

  /** The complexity band of a recommended volume (m3); a boundary value belongs to the lower band. */
  function ComplexityFor(volume: int): (c: Complexity)
    ensures c == Basic <==> volume <= 5
    ensures c == Advanced <==> volume > 15
  {
    if volume <= 5 then Basic else if volume <= 15 then Intermediate else Advanced
  }

  /** The structure archetype recommended for each band; these are catalog entry names. */
  function StructureType(c: Complexity): string
  {
    match c
    case Basic => "RCC tank with first-flush and filter"
    case Intermediate => "RCC tank with recharge pit and silt trap"
    case Advanced => "Recharge pit + storage tank with advanced filtration"
  }

  /** `s * s`, kept behind a name so that the solver treats it as one term. */
  function Sq(s: nat): nat { s * s }

  /** `s * s * s`. */
  function Cube(s: nat): nat { s * Sq(s) }

  lemma SideBelowCube(s: nat)
    ensures s <= Cube(s)
  {
    if s > 0 {
      assert Sq(s) >= 1;
    }
  }

  lemma SideBelowScaledSquare(s: nat, num: nat)
    requires num >= 1
    ensures s <= num * Sq(s)
  {
    if s > 0 {
      assert Sq(s) >= s;
      assert num * Sq(s) >= Sq(s);
    }
  }

  /** `Math.ceil(Math.cbrt(v))`, searched upwards from `s`: the least whole side whose cube holds `v`. */
  function CeilCbrtFrom(s: nat, v: nat): (r: nat)
    requires s == 0 || Cube(s - 1) < v
    ensures Cube(r) >= v
    ensures r == 0 || Cube(r - 1) < v
    decreases v - s
  {
    if Cube(s) >= v then s
    else
      SideBelowCube(s);
      CeilCbrtFrom(s + 1, v)
  }

  /**
   * The least whole side `s` with `num * s * s >= den * v`: `Math.ceil(Math.sqrt(v / h))`
   * for a fixed height `h = num / den`.
   */
  function CeilSqrtRatioFrom(s: nat, v: nat, num: nat, den: nat): (r: nat)
    requires num >= 1
    requires s == 0 || num * Sq(s - 1) < den * v
    ensures num * Sq(r) >= den * v
    ensures r == 0 || num * Sq(r - 1) < den * v
    decreases den * v - s
  {
    if num * Sq(s) >= den * v then s
    else
      SideBelowScaledSquare(s, num);
      CeilSqrtRatioFrom(s + 1, v, num, den)
  }

  /** Whole-number division rounded up: `Math.ceil(v / k)`. */
  function CeilDiv(v: nat, k: nat): (q: nat)
    requires k >= 1
    ensures q * k >= v
    ensures q == 0 || (q - 1) * k < v
  {
    var q := (v + k - 1) / k;
    assert (v + k - 1) == q * k + (v + k - 1) % k;
    q
  }

  /** A tank's side (m) and height (in tenths of a metre, so 2.5 m is 25). */
  datatype Dimensions = Dimensions(side: nat, heightTenths: nat)

  /** The Basic band's near-cube: the least side whose cube holds the volume, and the least whole height on it. */
  function CubeTank(volume: nat): (d: Dimensions)
    requires volume >= 1
    ensures d.side >= 1
    ensures Sq(d.side) * d.heightTenths >= 10 * volume
    ensures Cube(d.side) >= volume && Cube(d.side - 1) < volume
    ensures d.heightTenths % 10 == 0 && Sq(d.side) * (d.heightTenths / 10 - 1) < volume
  {
    var side := CeilCbrtFrom(0, volume);
    var height := CeilDiv(volume, Sq(side));
    assert Sq(side) * (10 * height) == 10 * (height * Sq(side));
    assert (10 * height) / 10 == height;
    Dimensions(side, 10 * height)
  }

  /**
   * The tank the page lays out for a recommended volume: a near-cube for the
   * Basic band, a 2.5 m tall square tank for Intermediate and a 3 m one for
   * Advanced, the side in each case the least whole metre that holds the volume.
   */
  function TankDimensions(volume: int): (d: Dimensions)
    requires volume >= 1
    ensures d.side >= 1
    ensures Sq(d.side) * d.heightTenths >= 10 * volume
    ensures volume <= 5 ==> Cube(d.side) >= volume && Cube(d.side - 1) < volume
    ensures volume <= 5 ==> d.heightTenths % 10 == 0 && Sq(d.side) * (d.heightTenths / 10 - 1) < volume
    ensures 5 < volume <= 15 ==> d.heightTenths == 25 && 5 * Sq(d.side - 1) < 2 * volume
    ensures volume > 15 ==> d.heightTenths == 30 && 3 * Sq(d.side - 1) < volume
  {
    if volume <= 5 then CubeTank(volume)
    else if volume <= 15 then
      var side := CeilSqrtRatioFrom(0, volume, 5, 2);
      assert Sq(side) * 25 == 5 * (5 * Sq(side));
      Dimensions(side, 25)
    else
      var side := CeilSqrtRatioFrom(0, volume, 3, 1);
      assert Sq(side) * 30 == 10 * (3 * Sq(side));
      Dimensions(side, 30)
  }

  /** A length given in tenths of a metre, as `${x}` prints it ("3", "2.5"). */
  function TenthsText(t: nat): string
  {
    if t % 10 == 0 then NatText(t / 10) else NatText(t / 10) + "." + NatText(t % 10)
  }

  /** The `${side}m x ${side}m x ${height}m` text of a tank. */
  function DimensionsText(d: Dimensions): string
  {
    NatText(d.side) + "m x " + NatText(d.side) + "m x " + TenthsText(d.heightTenths) + "m"
  }

  /** Household demand in m3 a day. */
  function DailyDemand(dwellers: real): real
  {
    (dwellers * LitresPerPersonPerDay) / 1000.0
  }

  /** How many days of demand the yearly effective harvest covers, clamped to 30..90. */
  function StorageDays(effectiveHarvest: real, dailyDemand: real): (days: real)
    requires dailyDemand > 0.0
    ensures 30.0 <= days <= 90.0
  {
    Min(90.0, Max(30.0, effectiveHarvest / (dailyDemand * 365.0 * 1000.0)))
  }

  /** `Math.max(1, Math.round(need))`: a volume in m3 as whole m3, at least 1. */
  function VolumeFor(need: real): (v: int)
    ensures v >= 1
    ensures need - 0.5 < v as real
    ensures v == 1 || v as real <= need + 0.5
  {
    var rounded := Round(need);
    MaxInt(1, rounded)
  }

  /** Between 30 and 90 days, the need lies between 30 and 90 days of demand. */
  lemma DemandBetween(dailyDemand: real, days: real)
    requires dailyDemand > 0.0 && 30.0 <= days <= 90.0
    ensures dailyDemand * 30.0 <= dailyDemand * days <= dailyDemand * 90.0
  {
    ScaleMonotone(dailyDemand, 30.0, days);
    ScaleMonotone(dailyDemand, days, 90.0);
  }

  /** The recommended tank: `days` of demand, rounded, and at least 1 m3. */
  function RecommendedVolume(dailyDemand: real, days: real): (v: int)
    requires dailyDemand > 0.0 && 30.0 <= days <= 90.0
    ensures v >= 1
    ensures dailyDemand * 30.0 - 0.5 < v as real
    ensures v == 1 || v as real <= dailyDemand * 90.0 + 0.5
  {
    var need := dailyDemand * days;
    DemandBetween(dailyDemand, days);
    VolumeFor(need)
  }

  /** The `storageOptimization` memo body; `None` is its `null`. */
  function Size(rain: Option<RainfallAnalysis>, dwellers: real): (r: Option<StorageOptimization>)
    ensures r.None? <==> rain.None? || rain.value.effectiveHarvest <= 0 || dwellers <= 0.0
    ensures r.Some? ==> r.value.recommendedVolume >= 1 && r.value.actualVolume >= 1
    ensures r.Some? ==> 30 <= r.value.storageDays <= 90
    ensures r.Some? ==>
      DailyDemand(dwellers) * 30.0 - 0.5 < r.value.recommendedVolume as real
      && (r.value.recommendedVolume == 1 || r.value.recommendedVolume as real <= DailyDemand(dwellers) * 90.0 + 0.5)
    ensures r.Some? ==>
      var harvest := rain.value.effectiveHarvest as real;
      var demand := DailyDemand(dwellers);
      r.value.actualVolume == VolumeFor(harvest / 1000.0)
      && r.value.storageDays == Round(StorageDays(harvest, demand))
      && r.value.recommendedVolume == RecommendedVolume(demand, StorageDays(harvest, demand))
    ensures r.Some? ==>
      var ratio := r.value.actualVolume as real / r.value.recommendedVolume as real;
      ratio - 0.005 < r.value.utilizationRate <= ratio + 0.005
    ensures r.Some? ==> r.value.complexity == ComplexityFor(r.value.recommendedVolume)
    ensures r.Some? ==> r.value.structureType == StructureType(r.value.complexity)
    ensures r.Some? ==> r.value.dimensions == DimensionsText(TankDimensions(r.value.recommendedVolume))
  {
    if rain.None? || rain.value.effectiveHarvest <= 0 || dwellers <= 0.0 then None
    else
      var effectiveHarvest := rain.value.effectiveHarvest as real;
      var volumeM3 := VolumeFor(effectiveHarvest / 1000.0);
      var dailyDemand := DailyDemand(dwellers);
      var optimalStorageDays := StorageDays(effectiveHarvest, dailyDemand);
      var optimalVolumeM3 := RecommendedVolume(dailyDemand, optimalStorageDays);
      var complexity := ComplexityFor(optimalVolumeM3);
      RoundMonotone(30.0, optimalStorageDays);
      RoundMonotone(optimalStorageDays, 90.0);
      RoundOfInt(30);
      RoundOfInt(90);
      Some(StorageOptimization(
        recommendedVolume := optimalVolumeM3,
        actualVolume := volumeM3,
        structureType := StructureType(complexity),
        dimensions := DimensionsText(TankDimensions(optimalVolumeM3)),
        complexity := complexity,
        storageDays := Round(optimalStorageDays),
        utilizationRate :=
          if optimalVolumeM3 > 0 then Round((volumeM3 as real / optimalVolumeM3 as real) * 100.0) as real / 100.0
          else 0.0))
  }

  /** The harvested volume the stage reports depends on the harvest alone, never on the household. */
  lemma ActualVolumeIgnoresDwellers(rain: Option<RainfallAnalysis>, dwellers1: real, dwellers2: real)
    requires Size(rain, dwellers1).Some? && Size(rain, dwellers2).Some?
    ensures Size(rain, dwellers1).value.actualVolume == Size(rain, dwellers2).value.actualVolume
    ensures Size(rain, dwellers1).value.actualVolume == VolumeFor(rain.value.effectiveHarvest as real / 1000.0)
  {
  }

  /** The worked example's figures: 0.6 m3 a day, 30 days, 18 m3 recommended, 79 m3 harvested. */
  lemma ConcreteRoofFigures()
    ensures DailyDemand(4.0) == 0.6
    ensures StorageDays(78625.0, 0.6) == 30.0
    ensures RecommendedVolume(0.6, 30.0) == 18
    ensures Round(78625.0 / 1000.0) == 79
    ensures Round((79 as real / 18 as real) * 100.0) == 439
  {
    RoundOfInt(18);
    assert 0.6 * 30.0 == 18 as real;
  }

  /** The worked example's tank: an Advanced 3 m cube. */
  lemma ConcreteRoofTank()
    ensures ComplexityFor(18) == Advanced
    ensures DimensionsText(TankDimensions(18)) == "3m x 3m x 3m"
  {
    assert CeilSqrtRatioFrom(0, 18, 3, 1) == 3 by {
      assert Sq(0) == 0 && Sq(1) == 1 && Sq(2) == 4 && Sq(3) == 9;
    }
    assert TankDimensions(18) == Dimensions(3, 30);
    assert NatText(3) == "3";
    assert TenthsText(30) == "3";
  }

  /**
   * The worked example: the 100 m2 concrete roof under 1000 mm (effective
   * harvest 78 625 L) for four dwellers needs 30 days x 0.6 m3 = 18 m3, an
   * Advanced 3 m x 3 m x 3 m tank, while the harvest itself is 79 m3.
   */
  lemma ConcreteRoofStorage()
    ensures Size(Estimate(100.0, 1000.0, "concrete"), 4.0) == Some(StorageOptimization(
      recommendedVolume := 18,
      actualVolume := 79,
      structureType := "Recharge pit + storage tank with advanced filtration",
      dimensions := "3m x 3m x 3m",
      complexity := Advanced,
      storageDays := 30,
      utilizationRate := 4.39))
  {
    ConcreteRoofExample();
    ConcreteRoofFigures();
    ConcreteRoofTank();
    RoundOfInt(30);
  }
}
