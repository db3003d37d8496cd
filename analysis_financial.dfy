/**
 * The `financialAnalysis` stage of the analysis page: twenty years of
 * inflation-adjusted cash flows after the installation cost, their net present
 * value, a scanned rate of return, ROI, payback period and break-even year.
 * `Analysis` is the specification; `Analyze` is the page's loop code, proved
 * to compute it.
 */
module FinancialAnalyzer {
  import opened Wrappers
  import opened JsMath
  import opened Finance
  import opened RainfallEstimator
  import opened CostEstimator

  datatype FinancialAnalysis = FinancialAnalysis(
    npv: int,
    irr: real,
    roi: real,
    paybackPeriod: int,
    breakEvenYear: int,
    totalSavings: int,
    netBenefit: int)

  /** Years the installation is costed over. */
  const ProjectLifetime: nat := 20

  /** The page's rate-of-return scan stops when the value is within this of zero. */
  const ScanTolerance: real := 0.001

  /** The scan tries the whole percentages 0..99. */
  const ScanSteps: nat := 100

  /** Year `year`'s cash flow: minus the installation cost in year 0, else the inflated water value less the inflated upkeep. */
  function Flow(initialCost: real, waterValue: real, maintenance: real, inflationRate: real, year: nat): real
  {
    if year == 0 then -initialCost
    else
      var growth := Pow(1.0 + inflationRate / 100.0, year - 1);
      waterValue * growth - maintenance * growth
  }

  /** The 21 `annualCashFlows`. */
  function CashFlows(initialCost: real, waterValue: real, maintenance: real, inflationRate: real): (flows: seq<real>)
    ensures |flows| == ProjectLifetime + 1
    ensures flows[0] == -initialCost
    ensures forall y :: 0 <= y < |flows| ==> flows[y] == Flow(initialCost, waterValue, maintenance, inflationRate, y)
  {
    seq(ProjectLifetime + 1, y requires 0 <= y => Flow(initialCost, waterValue, maintenance, inflationRate, y))
  }

  /** With inflation above -100 %, every yearly flow after the first has the sign of water value minus upkeep. */
  lemma FlowSign(initialCost: real, waterValue: real, maintenance: real, inflationRate: real, year: nat)
    requires inflationRate > -100.0 && year >= 1
    ensures var f := Flow(initialCost, waterValue, maintenance, inflationRate, year);
      (waterValue > maintenance ==> f > 0.0)
      && (waterValue == maintenance ==> f == 0.0)
      && (waterValue < maintenance ==> f < 0.0)
  {
    var growth := Pow(1.0 + inflationRate / 100.0, year - 1);
    assert growth > 0.0;
    assert waterValue * growth - maintenance * growth == (waterValue - maintenance) * growth;
  }

  /** Whole percentage `j` brings the value within the scan's tolerance of zero. */
  predicate Hit(flows: seq<real>, j: nat)
  {
    Abs(Npv(flows, j as real * 0.01)) < ScanTolerance
  }

  /** The whole percentage the scan settles on, trying `i`, `i + 1`, ... in turn; 0 when none is close enough. */
  function IrrScan(flows: seq<real>, i: nat): (irr: real)
    ensures irr == 0.0 || (irr == irr.Floor as real && i <= irr.Floor < ScanSteps)
    decreases ScanSteps - i
  {
    if i >= ScanSteps then 0.0
    else
      var testRate := i as real * 0.01;
      if Abs(Npv(flows, testRate)) < ScanTolerance then testRate * 100.0
      else IrrScan(flows, i + 1)
  }

  /** The scan's answer is the first whole percentage within tolerance, and 0 when there is none. */
  lemma {:induction false} IrrScanIsFirst(flows: seq<real>, i: nat)
    requires i <= ScanSteps
    ensures var irr := IrrScan(flows, i);
      (forall j :: i <= j < ScanSteps && j as real < irr ==> !Hit(flows, j))
      && (irr != 0.0 ==> Hit(flows, irr.Floor))
      && ((forall j :: i <= j < ScanSteps ==> !Hit(flows, j)) ==> irr == 0.0)
    decreases ScanSteps - i
  {
    if i < ScanSteps {
      if !Hit(flows, i) {
        IrrScanIsFirst(flows, i + 1);
      } else {
        assert IrrScan(flows, i) == i as real;
      }
    }
  }

  /** The undiscounted running total of flows 1..year has reached the installation cost. */
  predicate PaidBack(flows: seq<real>, initialCost: real, year: nat)
    requires 1 <= year < |flows|
  {
    Sum(flows[1..year + 1]) >= initialCost
  }

  /** The payback loop from `year` on, `cumulative` being the running total before it. */
  function PaybackFrom(flows: seq<real>, initialCost: real, year: nat, cumulative: real): int
    requires |flows| == ProjectLifetime + 1 && year >= 1
    decreases ProjectLifetime + 1 - year
  {
    if year > ProjectLifetime then ProjectLifetime
    else
      var c := cumulative + flows[year];
      if c >= initialCost then year else PaybackFrom(flows, initialCost, year + 1, c)
  }

  /** `paybackPeriod`: the first year whose running total reaches the cost, or 20 when none does. */
  lemma {:induction false} PaybackIsFirstYear(flows: seq<real>, initialCost: real, year: nat)
    requires |flows| == ProjectLifetime + 1 && 1 <= year <= ProjectLifetime + 1
    requires forall y :: 1 <= y < year ==> !PaidBack(flows, initialCost, y)
    ensures var p := PaybackFrom(flows, initialCost, year, Sum(flows[1..year]));
      1 <= p <= ProjectLifetime
      && (forall y :: 1 <= y < p ==> !PaidBack(flows, initialCost, y))
      && (PaidBack(flows, initialCost, p) || p == ProjectLifetime)
    decreases ProjectLifetime + 1 - year
  {
    if year <= ProjectLifetime {
      var cumulative := Sum(flows[1..year]);
      assert flows[1..year + 1][..year - 1] == flows[1..year];
      assert Sum(flows[1..year + 1]) == cumulative + flows[year];
      if cumulative + flows[year] < initialCost {
        PaybackIsFirstYear(flows, initialCost, year + 1);
      }
    }
  }

  /** The discounted value of flows 0..year is no longer negative. */
  predicate BrokeEven(flows: seq<real>, discountRate: real, year: nat)
    requires year < |flows| && discountRate != -1.0
  {
    Npv(flows[..year + 1], discountRate) >= 0.0
  }

  /** The break-even loop from `year` on. */
  function BreakEvenFrom(flows: seq<real>, discountRate: real, year: nat): int
    requires |flows| == ProjectLifetime + 1 && year >= 1 && discountRate != -1.0
    decreases ProjectLifetime + 1 - year
  {
    if year > ProjectLifetime then ProjectLifetime
    else if Npv(flows[..year + 1], discountRate) >= 0.0 then year
    else BreakEvenFrom(flows, discountRate, year + 1)
  }

  /** `breakEvenYear`: the first year whose discounted running value is non-negative, or 20 when none is. */
  lemma {:induction false} BreakEvenIsFirstYear(flows: seq<real>, discountRate: real, year: nat)
    requires |flows| == ProjectLifetime + 1 && 1 <= year <= ProjectLifetime + 1 && discountRate != -1.0
    requires forall y :: 1 <= y < year ==> !BrokeEven(flows, discountRate, y)
    ensures var b := BreakEvenFrom(flows, discountRate, year);
      1 <= b <= ProjectLifetime
      && (forall y :: 1 <= y < b ==> !BrokeEven(flows, discountRate, y))
      && (BrokeEven(flows, discountRate, b) || b == ProjectLifetime)
    decreases ProjectLifetime + 1 - year
  {
    if year <= ProjectLifetime && !BrokeEven(flows, discountRate, year) {
      BreakEvenIsFirstYear(flows, discountRate, year + 1);
    }
  }

  /** `Math.round(x * 100) / 100`: `x` to the nearest hundredth. */
  function Hundredths(x: real): (r: real)
    ensures x - 0.005 < r <= x + 0.005
  {
    Round(x * 100.0) as real / 100.0
  }

  /** A whole number is already in hundredths. */
  lemma HundredthsOfWhole(n: int)
    ensures Hundredths(n as real) == n as real
  {
    assert n as real * 100.0 == (n * 100) as real;
    RoundOfInt(n * 100);
  }

  /** Return on investment in percent: net gain over cost, 0 for a cost that is not positive. */
  function Roi(totalBenefits: real, initialCost: real): (roi: real)
    ensures initialCost > 0.0 ==> (roi >= 0.0 <==> totalBenefits >= initialCost)
  {
    if initialCost > 0.0 then ((totalBenefits - initialCost) / initialCost) * 100.0 else 0.0
  }

  /** The figures of the stage, given its flows and inputs. */
  function Figures(flows: seq<real>, initialCost: real, discountRate: real): FinancialAnalysis
    requires |flows| == ProjectLifetime + 1 && discountRate != -100.0
  {
    var rate := discountRate / 100.0;
    var npv := Npv(flows, rate);
    var irr := IrrScan(flows, 0);
    var totalBenefits := Sum(flows[1..]);
    FinancialAnalysis(
      npv := Round(npv),
      irr := Hundredths(irr),
      roi := Hundredths(Roi(totalBenefits, initialCost)),
      paybackPeriod := PaybackFrom(flows, initialCost, 1, 0.0),
      breakEvenYear := BreakEvenFrom(flows, rate, 1),
      totalSavings := Round(totalBenefits),
      netBenefit := Round(totalBenefits - initialCost))
  }

  /** The stage's null guard: no rainfall, a zero effective harvest, no costs, or a non-positive total. */
  predicate Applies(rain: Option<RainfallAnalysis>, cost: Option<CostBreakdown>)
  {
    rain.Some? && rain.value.effectiveHarvest != 0 && cost.Some? && cost.value.total > 0
  }

  /** The yearly value of the harvested water, `effectiveHarvest / 1000 * waterPrice`. */
  function WaterValue(effectiveHarvest: int, waterPrice: real): real
  {
    (effectiveHarvest as real / 1000.0) * waterPrice
  }

  /** The yearly upkeep counted against the water: annual plus periodic maintenance. */
  function Upkeep(cost: CostBreakdown): real
  {
    (cost.maintenance.annual + cost.maintenance.periodic) as real
  }

  /** The flows the stage builds from its inputs. */
  function StageFlows(rain: RainfallAnalysis, cost: CostBreakdown, waterPrice: real, inflationRate: real): seq<real>
  {
    CashFlows(cost.total as real, WaterValue(rain.effectiveHarvest, waterPrice), Upkeep(cost), inflationRate)
  }

  /** The `financialAnalysis` memo body, as a specification; `None` is its `null`. */
  function Analysis(rain: Option<RainfallAnalysis>, cost: Option<CostBreakdown>,
                    waterPrice: real, discountRate: real, inflationRate: real): (r: Option<FinancialAnalysis>)
    requires discountRate != -100.0
    ensures r.Some? <==> Applies(rain, cost)
  {
    if !Applies(rain, cost) then None
    else Some(Figures(StageFlows(rain.value, cost.value, waterPrice, inflationRate), cost.value.total as real, discountRate))
  }

  /**
   * Whenever the stage reports figures, its payback period and break-even year
   * are each the first year in 1..20 that qualifies, or 20 when none does, and
   * its rate of return is the first whole percentage within tolerance, or 0.
   */
  lemma AnalysisYears(rain: Option<RainfallAnalysis>, cost: Option<CostBreakdown>,
                      waterPrice: real, discountRate: real, inflationRate: real)
    requires discountRate != -100.0
    ensures var r := Analysis(rain, cost, waterPrice, discountRate, inflationRate);
      r.Some? ==>
        var flows := StageFlows(rain.value, cost.value, waterPrice, inflationRate);
        var c := cost.value.total as real;
        var rate := discountRate / 100.0;
        1 <= r.value.paybackPeriod <= ProjectLifetime
        && (forall y :: 1 <= y < r.value.paybackPeriod ==> !PaidBack(flows, c, y))
        && (PaidBack(flows, c, r.value.paybackPeriod) || r.value.paybackPeriod == ProjectLifetime)
        && 1 <= r.value.breakEvenYear <= ProjectLifetime
        && (forall y :: 1 <= y < r.value.breakEvenYear ==> !BrokeEven(flows, rate, y))
        && (BrokeEven(flows, rate, r.value.breakEvenYear) || r.value.breakEvenYear == ProjectLifetime)
        && (forall j :: 0 <= j < ScanSteps && j as real < r.value.irr ==> !Hit(flows, j))
        && (r.value.irr != 0.0 ==> r.value.irr.Floor >= 0 && Hit(flows, r.value.irr.Floor))
        && ((forall j :: 0 <= j < ScanSteps ==> !Hit(flows, j)) ==> r.value.irr == 0.0)
  {
    if Applies(rain, cost) {
      var flows := StageFlows(rain.value, cost.value, waterPrice, inflationRate);
      assert flows[1..1] == [];
      PaybackIsFirstYear(flows, cost.value.total as real, 1);
      BreakEvenIsFirstYear(flows, discountRate / 100.0, 1);
      IrrScanIsFirst(flows, 0);
      HundredthsOfWhole(IrrScan(flows, 0).Floor);
    }
  }

  /**
   * When the water is worth no more than its upkeep, nothing is ever paid back
   * or broken even: both years are 20.
   */
  lemma NoGainNoPayback(rain: Option<RainfallAnalysis>, cost: Option<CostBreakdown>,
                        waterPrice: real, discountRate: real, inflationRate: real)
    requires discountRate > -100.0 && inflationRate > -100.0
    requires Applies(rain, cost)
    requires WaterValue(rain.value.effectiveHarvest, waterPrice) <= Upkeep(cost.value)
    ensures Analysis(rain, cost, waterPrice, discountRate, inflationRate).value.paybackPeriod == ProjectLifetime
    ensures Analysis(rain, cost, waterPrice, discountRate, inflationRate).value.breakEvenYear == ProjectLifetime
  {
    var flows := StageFlows(rain.value, cost.value, waterPrice, inflationRate);
    var c := cost.value.total as real;
    var rate := discountRate / 100.0;
    forall y | 1 <= y < |flows|
      ensures flows[y] <= 0.0
    {
      FlowSign(c, WaterValue(rain.value.effectiveHarvest, waterPrice), Upkeep(cost.value), inflationRate, y);
    }
    forall y | 1 <= y <= ProjectLifetime
      ensures !PaidBack(flows, c, y)
    {
      var part := flows[1..y + 1];
      SumNonPositive(part);
    }
    forall y | 1 <= y <= ProjectLifetime
      ensures !BrokeEven(flows, rate, y)
    {
      NpvAtMostFirst(flows[..y + 1], rate);
    }
    AnalysisYears(rain, cost, waterPrice, discountRate, inflationRate);
  }

  /** The flows, pushed year by year. */
  method BuildCashFlows(initialCost: real, waterValue: real, maintenance: real, inflationRate: real)
    returns (flows: seq<real>)
    ensures flows == CashFlows(initialCost, waterValue, maintenance, inflationRate)
  {
    ghost var spec := CashFlows(initialCost, waterValue, maintenance, inflationRate);
    flows := [];
    var year := 0;
    while year <= ProjectLifetime
      invariant 0 <= year <= ProjectLifetime + 1
      invariant flows == spec[..year]
    {
      assert spec[..year + 1] == spec[..year] + [spec[year]];
      assert spec[year] == Flow(initialCost, waterValue, maintenance, inflationRate, year);
      if year == 0 {
        flows := flows + [-initialCost];
        assert flows == spec[..year + 1];
      } else {
        var growth := Pow(1.0 + inflationRate / 100.0, year - 1);
        assert waterValue * growth - maintenance * growth == spec[year];
        flows := flows + [waterValue * growth - maintenance * growth];
        assert flows == spec[..year + 1];
      }
      year := year + 1;
    }
    assert flows == spec;
  }

  /** The rate-of-return scan, stopping at the first whole percentage within tolerance. */
  method ScanIrr(flows: seq<real>) returns (irr: real)
    ensures irr == IrrScan(flows, 0)
  {
    irr := 0.0;
    var i := 0;
    while i < ScanSteps
      invariant 0 <= i <= ScanSteps
      invariant IrrScan(flows, i) == IrrScan(flows, 0)
      invariant irr == 0.0
    {
      var testRate := i as real * 0.01;
      var testNpv := Npv(flows, testRate);
      if Abs(testNpv) < ScanTolerance {
        irr := testRate * 100.0;
        break;
      }
      i := i + 1;
    }
  }

  /** The payback loop, stopping at the first year whose running total reaches the cost. */
  method Payback(flows: seq<real>, initialCost: real) returns (paybackPeriod: int)
    requires |flows| == ProjectLifetime + 1
    ensures paybackPeriod == PaybackFrom(flows, initialCost, 1, 0.0)
  {
    var cumulativeCashFlow := 0.0;
    paybackPeriod := ProjectLifetime;
    var year := 1;
    while year <= ProjectLifetime
      invariant 1 <= year <= ProjectLifetime + 1
      invariant paybackPeriod == ProjectLifetime
      invariant PaybackFrom(flows, initialCost, year, cumulativeCashFlow) == PaybackFrom(flows, initialCost, 1, 0.0)
    {
      cumulativeCashFlow := cumulativeCashFlow + flows[year];
      if cumulativeCashFlow >= initialCost {
        paybackPeriod := year;
        break;
      }
      year := year + 1;
    }
  }

  /** The break-even loop, stopping at the first year whose discounted running value is non-negative. */
  method BreakEven(flows: seq<real>, rate: real) returns (breakEvenYear: int)
    requires |flows| == ProjectLifetime + 1 && rate != -1.0
    ensures breakEvenYear == BreakEvenFrom(flows, rate, 1)
  {
    breakEvenYear := ProjectLifetime;
    var year := 1;
    while year <= ProjectLifetime
      invariant 1 <= year <= ProjectLifetime + 1
      invariant breakEvenYear == ProjectLifetime
      invariant BreakEvenFrom(flows, rate, year) == BreakEvenFrom(flows, rate, 1)
    {
      var cumulativeNpv := Npv(flows[..year + 1], rate);
      if cumulativeNpv >= 0.0 {
        breakEvenYear := year;
        break;
      }
      year := year + 1;
    }
  }

  /**
   * The page's `financialAnalysis` code: the flows pushed year by year, the
   * scan for a rate of return that stops at the first hit, and the payback and
   * break-even loops that stop at the first qualifying year.
   */
  method Analyze(rain: Option<RainfallAnalysis>, cost: Option<CostBreakdown>,
                 waterPrice: real, discountRate: real, inflationRate: real) returns (r: Option<FinancialAnalysis>)
    requires discountRate != -100.0
    ensures r == Analysis(rain, cost, waterPrice, discountRate, inflationRate)
  {
    if !Applies(rain, cost) {
      return None;
    }
    var initialCost := cost.value.total as real;
    var annualCashFlows := BuildCashFlows(initialCost, WaterValue(rain.value.effectiveHarvest, waterPrice),
                                          Upkeep(cost.value), inflationRate);
    var rate := discountRate / 100.0;
    var npv := Npv(annualCashFlows, rate);
    var irr := ScanIrr(annualCashFlows);
    var totalBenefits := Sum(annualCashFlows[1..]);
    var roi := Roi(totalBenefits, initialCost);
    var paybackPeriod := Payback(annualCashFlows, initialCost);
    var breakEvenYear := BreakEven(annualCashFlows, rate);
    var figures := FinancialAnalysis(
      npv := Round(npv),
      irr := Hundredths(irr),
      roi := Hundredths(roi),
      paybackPeriod := paybackPeriod,
      breakEvenYear := breakEvenYear,
      totalSavings := Round(totalBenefits),
      netBenefit := Round(totalBenefits - initialCost));
    assert annualCashFlows == StageFlows(rain.value, cost.value, waterPrice, inflationRate);
    assert figures == Figures(annualCashFlows, initialCost, discountRate);
    return Some(figures);
  }
}
