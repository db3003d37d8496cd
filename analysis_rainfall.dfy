/**
 * The `rainfallAnalysis` stage of the analysis page: annual rainfall, roof area
 * and roof material give eight seasonal harvest volumes (litres), their total,
 * the peak bucket, a storage-efficiency factor that penalises a peaked profile,
 * and the effective (capturable) annual harvest.
 */
module RainfallEstimator {
  import opened Wrappers
  import opened JsMath

  /** The share of the annual rainfall falling in each of the eight seasonal buckets. */
  const SeasonalDistribution: seq<real> := [0.05, 0.05, 0.10, 0.15, 0.20, 0.25, 0.15, 0.05]

  datatype RainfallAnalysis = RainfallAnalysis(
    totalAnnual: int,
    monthly: seq<int>,
    peakMonth: int,
    peakHarvest: int,
    storageEfficiency: real,
    effectiveHarvest: int)

  /** `runoffCoefficients[roofType] || 0.85`. */
  function RunoffCoefficient(roofType: string): (c: real)
    ensures 0.75 <= c <= 0.90
    ensures roofType != "metal" && roofType != "tile" && roofType != "asphalt" ==> c == 0.85
  {
    if roofType == "concrete" then 0.85
    else if roofType == "metal" then 0.90
    else if roofType == "tile" then 0.80
    else if roofType == "asphalt" then 0.75
    else 0.85
  }

  /** The unrounded harvest, in litres, of seasonal bucket `i`. */
  function BucketHarvest(roofArea: real, baseRainfall: real, coeff: real, i: nat): (v: real)
    requires i < 8
    ensures v >= 0.0
  {
    Max(0.0, roofArea * (baseRainfall * SeasonalDistribution[i] / 1000.0) * coeff * 1000.0)
  }

  /** The unrounded harvest, in litres, of each seasonal bucket. */
  function MonthlyHarvest(roofArea: real, baseRainfall: real, coeff: real): (h: seq<real>)
    ensures |h| == 8
    ensures forall i :: 0 <= i < 8 ==> h[i] == BucketHarvest(roofArea, baseRainfall, coeff, i)
  {
    seq(8, i requires 0 <= i < 8 => BucketHarvest(roofArea, baseRainfall, coeff, i))
  }

  /** The litres a year a roof yields: area (m2) x rainfall (mm) x runoff coefficient. */
  function RoofYield(roofArea: real, baseRainfall: real, coeff: real): real
  {
    roofArea * baseRainfall * coeff
  }

  /** The storage-efficiency factor: 0.95 at most, lowered by 0.3 times the peak's share of the total. */
  function StorageEfficiency(peak: real, total: real): real
  {
    if total > 0.0 then Min(0.95, 1.0 - (peak / total) * 0.3) else 0.0
  }

  /** The analysis of a roof with a positive area and rainfall and runoff coefficient `coeff`. */
  function Analyse(roofArea: real, baseRainfall: real, coeff: real): (r: RainfallAnalysis)
    ensures |r.monthly| == 8 && 1 <= r.peakMonth <= 8
    ensures r.monthly[r.peakMonth - 1] == r.peakHarvest
  {
    var harvest := MonthlyHarvest(roofArea, baseRainfall, coeff);
    var total := Sum(harvest);
    var peak := MaxOf(harvest);
    var efficiency := StorageEfficiency(peak, total);
    RainfallAnalysis(
      totalAnnual := Round(total),
      monthly := seq(8, i requires 0 <= i < 8 => Round(harvest[i])),
      peakMonth := IndexOf(harvest, peak) + 1,
      peakHarvest := Round(peak),
      storageEfficiency := Round(efficiency * 100.0) as real / 100.0,
      effectiveHarvest := Round(total * efficiency))
  }

  /** The `rainfallAnalysis` memo body; `None` is its `null`. */
  function Estimate(roofArea: real, baseRainfall: real, roofType: string): (r: Option<RainfallAnalysis>)
    ensures r.None? <==> roofArea <= 0.0 || baseRainfall <= 0.0
  {
    if roofArea <= 0.0 || baseRainfall <= 0.0 then None
    else Some(Analyse(roofArea, baseRainfall, RunoffCoefficient(roofType)))
  }

  lemma SeasonalDistributionSumsToOne()
    ensures Sum(SeasonalDistribution) == 1.0
  {
    var d := SeasonalDistribution;
    assert Sum(d[..1]) == 0.05 by { assert d[..1][..0] == []; }
    assert Sum(d[..2]) == 0.10 by { assert d[..2][..1] == d[..1]; }
    assert Sum(d[..3]) == 0.20 by { assert d[..3][..2] == d[..2]; }
    assert Sum(d[..4]) == 0.35 by { assert d[..4][..3] == d[..3]; }
    assert Sum(d[..5]) == 0.55 by { assert d[..5][..4] == d[..4]; }
    assert Sum(d[..6]) == 0.80 by { assert d[..6][..5] == d[..5]; }
    assert Sum(d[..7]) == 0.95 by { assert d[..7][..6] == d[..6]; }
    assert d[..8] == d;
  }

  /** Scaling every element scales the sum. */
  lemma {:induction false} SumScaled(xs: seq<real>, k: real, ys: seq<real>)
    requires |ys| == |xs|
    requires forall i :: 0 <= i < |xs| ==> ys[i] == k * xs[i]
    ensures Sum(ys) == k * Sum(xs)
  {
    if xs != [] {
      SumScaled(xs[..|xs| - 1], k, ys[..|ys| - 1]);
    }
  }

  /** With positive inputs, bucket `i` holds the roof's yield times the bucket's share. */
  lemma BucketIsShareOfYield(roofArea: real, baseRainfall: real, coeff: real, i: nat)
    requires roofArea > 0.0 && baseRainfall > 0.0 && coeff > 0.0 && i < 8
    ensures BucketHarvest(roofArea, baseRainfall, coeff, i) == RoofYield(roofArea, baseRainfall, coeff) * SeasonalDistribution[i]
    ensures BucketHarvest(roofArea, baseRainfall, coeff, i) > 0.0
  {
    var d := SeasonalDistribution[i];
    var depth := baseRainfall * d / 1000.0;
    assert depth * 1000.0 == baseRainfall * d;
    var litres := roofArea * depth * coeff * 1000.0;
    assert litres == roofArea * (depth * 1000.0) * coeff;
    assert litres == RoofYield(roofArea, baseRainfall, coeff) * d;
    assert d > 0.0;
    assert RoofYield(roofArea, baseRainfall, coeff) > 0.0;
  }

  lemma HarvestIsShareOfYield(roofArea: real, baseRainfall: real, coeff: real)
    requires roofArea > 0.0 && baseRainfall > 0.0 && coeff > 0.0
    ensures forall i :: 0 <= i < 8 ==>
      MonthlyHarvest(roofArea, baseRainfall, coeff)[i] == RoofYield(roofArea, baseRainfall, coeff) * SeasonalDistribution[i]
  {
    forall i | 0 <= i < 8
      ensures MonthlyHarvest(roofArea, baseRainfall, coeff)[i] == RoofYield(roofArea, baseRainfall, coeff) * SeasonalDistribution[i]
    {
      BucketIsShareOfYield(roofArea, baseRainfall, coeff, i);
    }
  }

  /** The eight unrounded buckets add up to roof area x rainfall x runoff coefficient. */
  lemma HarvestTotal(roofArea: real, baseRainfall: real, coeff: real)
    requires roofArea > 0.0 && baseRainfall > 0.0 && coeff > 0.0
    ensures Sum(MonthlyHarvest(roofArea, baseRainfall, coeff)) == RoofYield(roofArea, baseRainfall, coeff)
  {
    HarvestIsShareOfYield(roofArea, baseRainfall, coeff);
    SumScaled(SeasonalDistribution, RoofYield(roofArea, baseRainfall, coeff), MonthlyHarvest(roofArea, baseRainfall, coeff));
    SeasonalDistributionSumsToOne();
  }

  /** With positive inputs the sixth bucket is the unique largest, so it is the peak. */
  lemma PeakIsSixthBucket(roofArea: real, baseRainfall: real, coeff: real)
    requires roofArea > 0.0 && baseRainfall > 0.0 && coeff > 0.0
    ensures var h := MonthlyHarvest(roofArea, baseRainfall, coeff);
            MaxOf(h) == h[5] && IndexOf(h, MaxOf(h)) == 5
  {
    var h := MonthlyHarvest(roofArea, baseRainfall, coeff);
    var roofYield := RoofYield(roofArea, baseRainfall, coeff);
    HarvestIsShareOfYield(roofArea, baseRainfall, coeff);
    assert roofYield > 0.0;
    forall j | 0 <= j < 8 && j != 5 ensures h[j] < h[5] {
      assert SeasonalDistribution[j] < SeasonalDistribution[5];
    }
  }

  lemma ShareBounds(part: real, whole: real)
    requires 0.0 <= part <= whole && whole > 0.0
    ensures 0.0 <= part / whole <= 1.0
  {
    var q := part / whole;
    assert q * whole == part;
  }

  /** For any non-negative profile with a positive total, the efficiency lies in [0.7, 0.95]. */
  lemma EfficiencyBounds(h: seq<real>)
    requires |h| > 0
    requires forall i :: 0 <= i < |h| ==> h[i] >= 0.0
    requires Sum(h) > 0.0
    ensures 0.7 <= StorageEfficiency(MaxOf(h), Sum(h)) <= 0.95
  {
    var peak := MaxOf(h);
    var k :| 0 <= k < |h| && h[k] == peak;
    ElementAtMostSum(h, k);
    ShareBounds(peak, Sum(h));
  }

  /** A profile whose peak is a quarter of the total has efficiency 0.925. */
  lemma QuarterPeakEfficiency(total: real)
    requires total > 0.0
    ensures StorageEfficiency(total * 0.25, total) == 0.925
  {
    assert (total * 0.25) / total == 0.25;
  }

  /** The buckets, total and peak of a positive-input harvest. */
  lemma HarvestShape(roofArea: real, baseRainfall: real, coeff: real)
    requires roofArea > 0.0 && baseRainfall > 0.0 && coeff > 0.0
    ensures var h := MonthlyHarvest(roofArea, baseRainfall, coeff);
            var roofYield := RoofYield(roofArea, baseRainfall, coeff);
            && Sum(h) == roofYield
            && MaxOf(h) == roofYield * 0.25
            && IndexOf(h, MaxOf(h)) == 5
            && StorageEfficiency(MaxOf(h), Sum(h)) == 0.925
  {
    HarvestTotal(roofArea, baseRainfall, coeff);
    PeakIsSixthBucket(roofArea, baseRainfall, coeff);
    HarvestIsShareOfYield(roofArea, baseRainfall, coeff);
    QuarterPeakEfficiency(RoofYield(roofArea, baseRainfall, coeff));
  }

  /** The scalar fields of an analysis, in terms of the roof yield. */
  lemma AnalyseScalars(roofArea: real, baseRainfall: real, coeff: real)
    requires roofArea > 0.0 && baseRainfall > 0.0 && coeff > 0.0
    ensures var r := Analyse(roofArea, baseRainfall, coeff);
            var roofYield := RoofYield(roofArea, baseRainfall, coeff);
            && r.totalAnnual == Round(roofYield)
            && r.peakMonth == 6
            && r.peakHarvest == Round(roofYield * 0.25)
            && r.storageEfficiency == 0.93
            && r.effectiveHarvest == Round(roofYield * 0.925)
  {
    HarvestShape(roofArea, baseRainfall, coeff);
    assert Round(0.925 * 100.0) == 93;
  }

  /** The buckets of an analysis, in terms of the roof yield. */
  lemma AnalyseMonthly(roofArea: real, baseRainfall: real, coeff: real)
    requires roofArea > 0.0 && baseRainfall > 0.0 && coeff > 0.0
    ensures var r := Analyse(roofArea, baseRainfall, coeff);
            forall i :: 0 <= i < 8 ==> r.monthly[i] == Round(RoofYield(roofArea, baseRainfall, coeff) * SeasonalDistribution[i])
  {
    HarvestIsShareOfYield(roofArea, baseRainfall, coeff);
  }

  /** A positive total rounds to at least the rounding of its 0.925 share, which is not negative. */
  lemma EffectiveShareBounds(total: real)
    requires total > 0.0
    ensures 0 <= Round(total * 0.925) <= Round(total)
  {
    RoundMonotone(total * 0.925, total);
    RoundMonotone(0.0, total * 0.925);
  }

  /**
   * What a computed rainfall analysis holds: the total is the rounded roof
   * yield (area x rainfall x coefficient), the peak is the sixth bucket, the efficiency (0.925 before
   * its two-decimal rounding) is reported as 0.93, and the effective harvest is
   * 0.925 of the yield, rounded, never above the total.
   */
  lemma EstimateFacts(roofArea: real, baseRainfall: real, roofType: string)
    requires roofArea > 0.0 && baseRainfall > 0.0
    ensures var r := Estimate(roofArea, baseRainfall, roofType).value;
            var roofYield := RoofYield(roofArea, baseRainfall, RunoffCoefficient(roofType));
            && r.totalAnnual == Round(roofYield)
            && r.peakMonth == 6
            && r.peakHarvest == Round(roofYield * 0.25)
            && r.storageEfficiency == 0.93
            && r.effectiveHarvest == Round(roofYield * 0.925)
            && 0 <= r.effectiveHarvest <= r.totalAnnual
  {
    var coeff := RunoffCoefficient(roofType);
    AnalyseScalars(roofArea, baseRainfall, coeff);
    EffectiveShareBounds(RoofYield(roofArea, baseRainfall, coeff));
  }

  /** Each computed bucket is the rounded share of the roof yield. */
  lemma EstimateMonthly(roofArea: real, baseRainfall: real, roofType: string)
    requires roofArea > 0.0 && baseRainfall > 0.0
    ensures var r := Estimate(roofArea, baseRainfall, roofType).value;
            var roofYield := RoofYield(roofArea, baseRainfall, RunoffCoefficient(roofType));
            forall i :: 0 <= i < 8 ==> r.monthly[i] == Round(roofYield * SeasonalDistribution[i])
  {
    AnalyseMonthly(roofArea, baseRainfall, RunoffCoefficient(roofType));
  }

  const ConcreteRoofMonthly: seq<int> := [4250, 4250, 8500, 12750, 17000, 21250, 12750, 4250]

  /** 85 000 L spread by the seasonal shares gives the worked example's buckets exactly. */
  lemma ConcreteRoofShare(i: nat)
    requires i < 8
    ensures 85000.0 * SeasonalDistribution[i] == ConcreteRoofMonthly[i] as real
  {
    if i == 0 { } else if i == 1 { } else if i == 2 { } else if i == 3 { }
    else if i == 4 { } else if i == 5 { } else if i == 6 { } else { }
  }

  lemma ConcreteRoofBucket(i: nat)
    requires i < 8
    ensures Estimate(100.0, 1000.0, "concrete").value.monthly[i] == ConcreteRoofMonthly[i]
  {
    var coeff := RunoffCoefficient("concrete");
    assert coeff == 0.85;
    assert RoofYield(100.0, 1000.0, coeff) == 85000.0;
    EstimateMonthly(100.0, 1000.0, "concrete");
    ConcreteRoofShare(i);
    RoundOfInt(ConcreteRoofMonthly[i]);
  }

  /** The buckets of the worked example: 100 m2 of concrete roof under 1000 mm a year. */
  lemma ConcreteRoofBuckets()
    ensures Estimate(100.0, 1000.0, "concrete").value.monthly == ConcreteRoofMonthly
  {
    forall i | 0 <= i < 8
      ensures Estimate(100.0, 1000.0, "concrete").value.monthly[i] == ConcreteRoofMonthly[i]
    {
      ConcreteRoofBucket(i);
    }
  }

  /** The worked example: 100 m2 of concrete roof under 1000 mm a year. */
  lemma ConcreteRoofExample()
    ensures Estimate(100.0, 1000.0, "concrete") ==
      Some(RainfallAnalysis(85000, [4250, 4250, 8500, 12750, 17000, 21250, 12750, 4250], 6, 21250, 0.93, 78625))
  {
    var r := Estimate(100.0, 1000.0, "concrete").value;
    ConcreteRoofBuckets();
    assert RoofYield(100.0, 1000.0, RunoffCoefficient("concrete")) == 85000.0;
    EstimateFacts(100.0, 1000.0, "concrete");
    RoundOfInt(85000);
    RoundOfInt(21250);
    RoundOfInt(78625);
  }
}
