/**
 * `src/lib/rainfall.ts`: the older fixed-rainfall sizing helpers. Rainfall is
 * a fixed 1200 mm a year whatever the location; the tank is 60 % of the
 * harvest and its capital cost is priced per unit of size.
 */
module RainfallLib {
  import opened JsMath

  datatype RainfallInputs = RainfallInputs(
    location: string,
    roofArea: real,
    runoffCoefficient: real,
    dwellers: real,
    dailyConsumption: real)

  datatype RainfallResult = RainfallResult(total: real, effectiveHarvest: real, reliability: real)
  datatype StorageResult = StorageResult(optimalSize: real, reliability: real)
  datatype CostResult = CostResult(capital: real, maintenance: real, projectLife: real, total: real)

  /** The mock annual rainfall (mm) every location gets. */
  const MockAnnualRainfall: real := 1200.0

  /** The household's yearly demand in m3: dwellers x daily litres x 365 / 1000. */
  function YearlyDemand(inputs: RainfallInputs): real
  {
    inputs.dwellers * inputs.dailyConsumption * 365.0 / 1000.0
  }

  /**
   * `calculateRainfall(inputs)`. A household with no demand would make the
   * source divide by zero, so the demand must be non-zero.
   */
  function CalculateRainfall(inputs: RainfallInputs): (r: RainfallResult)
    requires inputs.dwellers * inputs.dailyConsumption != 0.0
    ensures r.total == MockAnnualRainfall
    ensures r.effectiveHarvest == MockAnnualRainfall * inputs.roofArea * inputs.runoffCoefficient / 1000.0
    ensures r.reliability <= 1.0
  {
    var total := MockAnnualRainfall;
    var effectiveHarvest := (total * inputs.roofArea * inputs.runoffCoefficient) / 1000.0;
    var reliability := effectiveHarvest / YearlyDemand(inputs);
    RainfallResult(total, effectiveHarvest, Min(1.0, reliability))
  }

  /** The location plays no part: any two locations give the same result. */
  lemma LocationIgnored(inputs: RainfallInputs, other: string)
    requires inputs.dwellers * inputs.dailyConsumption != 0.0
    ensures CalculateRainfall(inputs.(location := other)) == CalculateRainfall(inputs)
  {
  }

  /**
   * With a positive demand, reliability is the share of the yearly demand the
   * harvest covers, and it is exactly 1 when the harvest covers all of it.
   */
  lemma ReliabilityIsCoverage(inputs: RainfallInputs)
    requires inputs.dwellers * inputs.dailyConsumption > 0.0
    ensures var r := CalculateRainfall(inputs);
      (r.reliability == 1.0 <==> r.effectiveHarvest >= YearlyDemand(inputs))
      && (r.effectiveHarvest < YearlyDemand(inputs) ==> r.reliability * YearlyDemand(inputs) == r.effectiveHarvest)
  {
    var d := YearlyDemand(inputs);
    var h := CalculateRainfall(inputs).effectiveHarvest;
    assert d > 0.0;
    assert h / d >= 1.0 <==> h >= d;
  }

  /** `calculateStorage(rainfallAnalysis, inputs)`: 60 % of the harvest, reliability passed through. */
  function CalculateStorage(rain: RainfallResult): (s: StorageResult)
    ensures s.reliability == rain.reliability
    ensures rain.effectiveHarvest >= 0.0 ==> 0.0 <= s.optimalSize <= rain.effectiveHarvest
    ensures s.optimalSize * 5.0 == rain.effectiveHarvest * 3.0
  {
    StorageResult(rain.effectiveHarvest * 0.6, rain.reliability)
  }

  /**
   * `calculateCosts(storageOptimization, inputs)`: capital is size times unit
   * cost, and the total adds maintenance for every year of the project;
   * maintenance and project life are echoed back.
   */
  function CalculateCosts(storage: StorageResult, storageCost: real, maintenance: real, projectLife: real): (c: CostResult)
    ensures c.maintenance == maintenance && c.projectLife == projectLife
    ensures c.total - c.capital == maintenance * projectLife
    ensures maintenance >= 0.0 && projectLife >= 0.0 ==> c.total >= c.capital
  {
    var capital := storage.optimalSize * storageCost;
    CostResult(capital, maintenance, projectLife, capital + maintenance * projectLife)
  }

  /** End to end, the capital cost is 0.72 x roof area x runoff coefficient x unit cost. */
  lemma CapitalFromRoof(inputs: RainfallInputs, storageCost: real, maintenance: real, projectLife: real)
    requires inputs.dwellers * inputs.dailyConsumption != 0.0
    ensures CalculateCosts(CalculateStorage(CalculateRainfall(inputs)), storageCost, maintenance, projectLife).capital
         == 0.72 * inputs.roofArea * inputs.runoffCoefficient * storageCost
  {
    var h := CalculateRainfall(inputs).effectiveHarvest;
    assert h == 1.2 * (inputs.roofArea * inputs.runoffCoefficient);
    assert h * 0.6 * storageCost == 0.72 * inputs.roofArea * inputs.runoffCoefficient * storageCost;
  }
}
