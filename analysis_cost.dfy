/**
 * The `costBreakdown` stage of the analysis page: material, labour and annual
 * maintenance costs (INR) for the recommended tank, each scaled by the
 * complexity band's multiplier. The installation total is materials plus
 * labour; maintenance is reported beside it and not added in.
 */
module CostEstimator {
  import opened Wrappers
  import opened JsMath
  import opened StorageSizer

  datatype Materials = Materials(tank: int, pipes: int, filters: int, pumps: int, accessories: int)
  datatype Labor = Labor(excavation: int, installation: int, plumbing: int, electrical: int)
  datatype Maintenance = Maintenance(annual: int, periodic: int, replacement: int)
  datatype CostBreakdown = CostBreakdown(materials: Materials, labor: Labor, maintenance: Maintenance, total: int)

  /** The order of the bands, cheapest first. */
  function Rank(c: Complexity): nat
  {
    match c
    case Basic => 0
    case Intermediate => 1
    case Advanced => 2
  }

  function MaterialsMultiplier(c: Complexity): (m: real)
    ensures m >= 1.0
  {
    match c
    case Basic => 1.0
    case Intermediate => 1.2
    case Advanced => 1.5
  }

  function LaborMultiplier(c: Complexity): (m: real)
    ensures m >= 1.0
  {
    match c
    case Basic => 1.0
    case Intermediate => 1.3
    case Advanced => 1.8
  }

  /** A higher band never has a smaller multiplier. */
  lemma MultipliersMonotone(c1: Complexity, c2: Complexity)
    requires Rank(c1) <= Rank(c2)
    ensures MaterialsMultiplier(c1) <= MaterialsMultiplier(c2)
    ensures LaborMultiplier(c1) <= LaborMultiplier(c2)
  {
  }

  /** Metres of pipe for a roof whose area has square root `roofRoot`: at least 20 m. */
  function PipeLength(roofRoot: real): (p: real)
    requires roofRoot >= 0.0
    ensures p >= 20.0
    ensures p == 20.0 || p == roofRoot * 2.0 + 10.0
    ensures roofRoot >= 5.0 ==> p == roofRoot * 2.0 + 10.0
  {
    Max(20.0, roofRoot * 2.0 + 10.0)
  }

  /** `Math.round(quantity * rate * multiplier)`, the shape of every line item. */
  function Priced(quantity: real, rate: real, multiplier: real): int
  {
    Round(quantity * rate * multiplier)
  }

  /** A line item grows with its quantity and its multiplier. */
  lemma PricedMonotone(q1: real, q2: real, rate: real, m1: real, m2: real)
    requires 0.0 <= q1 <= q2 && rate >= 0.0 && 0.0 <= m1 <= m2
    ensures Priced(q1, rate, m1) <= Priced(q2, rate, m2)
  {
    ScaleMonotone(rate, q1, q2);
    assert q1 * rate <= q2 * rate;
    ScaleMonotone(q1 * rate, m1, m2);
    ScaleMonotone(m2, q1 * rate, q2 * rate);
    assert q1 * rate * m1 <= q2 * rate * m2;
    RoundMonotone(q1 * rate * m1, q2 * rate * m2);
  }

  function MaterialsTotal(m: Materials): int
  {
    m.tank + m.pipes + m.filters + m.pumps + m.accessories
  }

  function LaborTotal(l: Labor): int
  {
    l.excavation + l.installation + l.plumbing + l.electrical
  }

  /** The breakdown for a tank of `volume` m3, a band and a pipe run of `pipeLength` m. */
  function Breakdown(volume: int, c: Complexity, pipeLength: real): (r: CostBreakdown)
    requires volume >= 1 && pipeLength >= 20.0
    ensures r.total == MaterialsTotal(r.materials) + LaborTotal(r.labor)
  {
    var v := volume as real;
    var mm := MaterialsMultiplier(c);
    var lm := LaborMultiplier(c);
    var materials := Materials(
      tank := Priced(v, 2500.0, mm),
      pipes := Priced(pipeLength, 150.0, mm),
      filters := Priced(1.0, 8000.0, mm),
      pumps := Priced(1.0, 12000.0, mm),
      accessories := Priced(1.0, 5000.0, mm));
    var labor := Labor(
      excavation := Priced(v, 300.0, lm),
      installation := Priced(v, 800.0, lm),
      plumbing := Priced(pipeLength, 200.0, lm),
      electrical := Priced(1.0, 3000.0, lm));
    var maintenance := Maintenance(
      annual := Round((materials.tank + materials.pumps) as real * 0.02),
      periodic := Round(v * 50.0),
      replacement := Round((materials.filters + materials.accessories) as real * 0.1));
    CostBreakdown(materials, labor, maintenance, MaterialsTotal(materials) + LaborTotal(labor))
  }

  /** The `costBreakdown` memo body; `roofRoot` is `Math.sqrt(safeInputs.roofArea)`. */
  function Estimate(storage: Option<StorageOptimization>, roofRoot: real): (r: Option<CostBreakdown>)
    requires roofRoot >= 0.0
    ensures r.None? <==> storage.None? || storage.value.recommendedVolume <= 0
    ensures r.Some? ==> r.value == Breakdown(storage.value.recommendedVolume, storage.value.complexity, PipeLength(roofRoot))
  {
    if storage.None? || storage.value.recommendedVolume <= 0 then None
    else Some(Breakdown(storage.value.recommendedVolume, storage.value.complexity, PipeLength(roofRoot)))
  }

  /**
   * A bigger tank, a higher band or a longer pipe run never costs less: every
   * line item, the installation total and the yearly upkeep all grow.
   */
  lemma BreakdownMonotone(v1: int, v2: int, c1: Complexity, c2: Complexity, p1: real, p2: real)
    requires 1 <= v1 <= v2 && Rank(c1) <= Rank(c2) && 20.0 <= p1 <= p2
    ensures var a := Breakdown(v1, c1, p1); var b := Breakdown(v2, c2, p2);
      a.total <= b.total
      && a.maintenance.annual <= b.maintenance.annual
      && a.maintenance.periodic <= b.maintenance.periodic
      && a.maintenance.replacement <= b.maintenance.replacement
  {
    var x1, x2 := v1 as real, v2 as real;
    var mm1, mm2 := MaterialsMultiplier(c1), MaterialsMultiplier(c2);
    var lm1, lm2 := LaborMultiplier(c1), LaborMultiplier(c2);
    MultipliersMonotone(c1, c2);
    PricedMonotone(x1, x2, 2500.0, mm1, mm2);
    PricedMonotone(p1, p2, 150.0, mm1, mm2);
    PricedMonotone(1.0, 1.0, 8000.0, mm1, mm2);
    PricedMonotone(1.0, 1.0, 12000.0, mm1, mm2);
    PricedMonotone(1.0, 1.0, 5000.0, mm1, mm2);
    PricedMonotone(x1, x2, 300.0, lm1, lm2);
    PricedMonotone(x1, x2, 800.0, lm1, lm2);
    PricedMonotone(p1, p2, 200.0, lm1, lm2);
    PricedMonotone(1.0, 1.0, 3000.0, lm1, lm2);
    var a := Breakdown(v1, c1, p1);
    var b := Breakdown(v2, c2, p2);
    RoundMonotone((a.materials.tank + a.materials.pumps) as real * 0.02, (b.materials.tank + b.materials.pumps) as real * 0.02);
    RoundMonotone(x1 * 50.0, x2 * 50.0);
    RoundMonotone((a.materials.filters + a.materials.accessories) as real * 0.1,
                  (b.materials.filters + b.materials.accessories) as real * 0.1);
  }

  /** A whole-rupee rate applied to at least one unit at a multiplier of at least 1 costs at least the rate. */
  lemma PricedAtLeastRate(quantity: real, rate: nat, multiplier: real)
    requires quantity >= 1.0 && multiplier >= 1.0
    ensures Priced(quantity, rate as real, multiplier) >= rate
  {
    PricedMonotone(1.0, quantity, rate as real, 1.0, multiplier);
    RoundOfInt(rate);
  }

  /** Every material, labour and upkeep item of a breakdown is a positive amount. */
  lemma BreakdownItemsPositive(volume: int, c: Complexity, pipeLength: real)
    requires volume >= 1 && pipeLength >= 20.0
    ensures var r := Breakdown(volume, c, pipeLength);
      r.materials.tank > 0 && r.materials.pipes > 0 && r.materials.filters > 0
      && r.materials.pumps > 0 && r.materials.accessories > 0
      && r.labor.excavation > 0 && r.labor.installation > 0 && r.labor.plumbing > 0 && r.labor.electrical > 0
      && r.maintenance.annual > 0 && r.maintenance.periodic > 0 && r.maintenance.replacement > 0
  {
    var v := volume as real;
    var mm := MaterialsMultiplier(c);
    var lm := LaborMultiplier(c);
    PricedAtLeastRate(v, 2500, mm);
    PricedAtLeastRate(pipeLength, 150, mm);
    PricedAtLeastRate(1.0, 8000, mm);
    PricedAtLeastRate(1.0, 12000, mm);
    PricedAtLeastRate(1.0, 5000, mm);
    PricedAtLeastRate(v, 300, lm);
    PricedAtLeastRate(v, 800, lm);
    PricedAtLeastRate(pipeLength, 200, lm);
    PricedAtLeastRate(1.0, 3000, lm);
    var r := Breakdown(volume, c, pipeLength);
    RoundMonotone(290.0, (r.materials.tank + r.materials.pumps) as real * 0.02);
    RoundOfInt(290);
    RoundMonotone(50.0, v * 50.0);
    RoundOfInt(50);
    RoundMonotone(1300.0, (r.materials.filters + r.materials.accessories) as real * 0.1);
    RoundOfInt(1300);
  }

  /** The cheapest installation there is: a 1 m3 Basic tank with 20 m of pipe. */
  lemma CheapestBreakdown()
    ensures Breakdown(1, Basic, 20.0) == CostBreakdown(
      Materials(2500, 3000, 8000, 12000, 5000),
      Labor(300, 800, 4000, 3000),
      Maintenance(290, 50, 1300),
      38600)
  {
    RoundOfInt(2500); RoundOfInt(3000); RoundOfInt(8000); RoundOfInt(12000); RoundOfInt(5000);
    RoundOfInt(300); RoundOfInt(800); RoundOfInt(4000); RoundOfInt(290); RoundOfInt(50); RoundOfInt(1300);
  }

  /** Every installation the page prices costs at least INR 38 600. */
  lemma MinimumInstallationCost(storage: Option<StorageOptimization>, roofRoot: real)
    requires roofRoot >= 0.0
    ensures Estimate(storage, roofRoot).Some? ==> Estimate(storage, roofRoot).value.total >= 38600
  {
    if Estimate(storage, roofRoot).Some? {
      CheapestBreakdown();
      BreakdownMonotone(1, storage.value.recommendedVolume, Basic, storage.value.complexity, 20.0, PipeLength(roofRoot));
    }
  }
}
