/**
 * The analysis page end to end: raw form values are normalised, then the
 * rainfall, storage, cost, financial and sensitivity stages run in turn, each
 * `null` when the one it depends on is, and the page counts how many results
 * it has to show.
 */
module AnalysisPipeline {
  import opened Wrappers
  import opened InputNormalizer
  import RainfallEstimator
  import StorageSizer
  import CostEstimator
  import FinancialAnalyzer
  import SensitivityAnalyzer

  datatype Analyses = Analyses(
    rainfall: Option<RainfallEstimator.RainfallAnalysis>,
    storage: Option<StorageSizer.StorageOptimization>,
    cost: Option<CostEstimator.CostBreakdown>,
    financial: Option<FinancialAnalyzer.FinancialAnalysis>,
    sensitivity: Option<SensitivityAnalyzer.SensitivityAnalysis>)

  /** Each result is present only when the one before it in the page's order is. */
  predicate Chained(a: Analyses)
  {
    (a.storage.Some? ==> a.rainfall.Some?)
    && (a.cost.Some? ==> a.storage.Some?)
    && (a.financial.Some? ==> a.cost.Some?)
    && (a.sensitivity.Some? ==> a.financial.Some?)
  }

  /**
   * Every memo of the page for one state of the form. `roofRoot` is
   * `Math.sqrt(safeInputs.roofArea)`, which the cost stage's pipe run needs.
   */
  function Run(raw: RawInputs, roofRoot: real): (a: Analyses)
    requires roofRoot >= 0.0 && roofRoot * roofRoot == Normalize(raw).roofArea
    ensures a.rainfall.None? <==> Normalize(raw).roofArea <= 0.0 || Normalize(raw).annualRainfall <= 0.0
    ensures a.financial.Some? ==> a.rainfall.Some?
    ensures Chained(a)
  {
    var inputs := Normalize(raw);
    var rainfall := RainfallEstimator.Estimate(inputs.roofArea, inputs.annualRainfall, inputs.roofType);
    var storage := StorageSizer.Size(rainfall, inputs.dwellers);
    var cost := CostEstimator.Estimate(storage, roofRoot);
    var financial := FinancialAnalyzer.Analysis(rainfall, cost, inputs.waterPrice, inputs.discountRate, inputs.inflationRate);
    var sensitivity := SensitivityAnalyzer.Analyse(financial, rainfall, cost, inputs.waterPrice);
    Analyses(rainfall, storage, cost, financial, sensitivity)
  }

  /** Which of the five results are present, in the page's order. */
  function Present(a: Analyses): seq<bool>
  {
    [a.rainfall.Some?, a.storage.Some?, a.cost.Some?, a.financial.Some?, a.sensitivity.Some?]
  }

  /** `flags.filter(Boolean).length`. */
  function CountTrue(flags: seq<bool>): (n: nat)
    ensures n <= |flags|
    ensures n == |flags| <==> forall i :: 0 <= i < |flags| ==> flags[i]
    ensures n == 0 <==> forall i :: 0 <= i < |flags| ==> !flags[i]
  {
    if flags == [] then 0
    else (if flags[0] then 1 else 0) + CountTrue(flags[1..])
  }

  /** `analysisCount`: how many of the five results are non-null. */
  function AnalysisCount(a: Analyses): (n: nat)
    ensures n <= 5
    ensures n == 0 <==> a.rainfall.None? && a.storage.None? && a.cost.None? && a.financial.None? && a.sensitivity.None?
  {
    var p := Present(a);
    assert p[0] == a.rainfall.Some? && p[4] == a.sensitivity.Some?;
    CountTrue(p)
  }

  /**
   * Chained results always form a prefix of rainfall, storage, cost,
   * financial, sensitivity: the first `analysisCount` of them are present and
   * the rest are not.
   */
  lemma PresentIsPrefix(a: Analyses)
    requires Chained(a)
    ensures forall i :: 0 <= i < 5 ==> (Present(a)[i] <==> i < AnalysisCount(a))
  {
    var k := if a.rainfall.None? then 0
             else if a.storage.None? then 1
             else if a.cost.None? then 2
             else if a.financial.None? then 3
             else if a.sensitivity.None? then 4
             else 5;
    CountOfPrefix(Present(a), k);
  }

  /** A list that is `true` exactly on its first `k` entries has `k` of them. */
  lemma {:induction false} CountOfPrefix(flags: seq<bool>, k: nat)
    requires k <= |flags|
    requires forall i :: 0 <= i < |flags| ==> (flags[i] <==> i < k)
    ensures CountTrue(flags) == k
  {
    if flags != [] {
      CountOfPrefix(flags[1..], if k == 0 then 0 else k - 1);
    }
  }

  /** The page's results are always a prefix of the five stages. */
  lemma RunIsPrefix(raw: RawInputs, roofRoot: real)
    requires roofRoot >= 0.0 && roofRoot * roofRoot == Normalize(raw).roofArea
    ensures var a := Run(raw, roofRoot);
      forall i :: 0 <= i < 5 ==> (Present(a)[i] <==> i < AnalysisCount(a))
  {
    PresentIsPrefix(Run(raw, roofRoot));
  }

  /** Valid form values always yield a rainfall result. */
  lemma ValidInputsGiveRainfall(raw: RawInputs, roofRoot: real)
    requires roofRoot >= 0.0 && roofRoot * roofRoot == Normalize(raw).roofArea
    requires HasValidInputs(raw)
    ensures Run(raw, roofRoot).rainfall.Some?
    ensures AnalysisCount(Run(raw, roofRoot)) >= 1
  {
  }
}
