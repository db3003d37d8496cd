/**
 * The structure guide (`src/components/StructureContent.tsx`): the catalog of
 * rainwater-harvesting structures, the forgiving name lookup behind the search
 * box, the match score, the cost range read out of a cost text, the list
 * filters, the favourites and comparison toggles, and the dimensions line.
 */
module StructureCatalog {
  import opened Wrappers
  import opened Text

  datatype Level = Low | Medium | High

  /** `StructureInfo`, without the picture links and notes, which no logic reads. */
  datatype StructureInfo = StructureInfo(
    name: string,
    description: string,
    suitability: seq<string>,
    typicalDims: string,
    materials: seq<string>,
    estCost: string,
    maintenance: seq<string>,
    maintenanceLevel: Level,
    isHybrid: bool)

  /** `CATALOG`: ten basic structures, then the three archetypes the storage stage recommends. */
  const Catalog: seq<StructureInfo> := [
    StructureInfo(
      name := "RCC tank",
      description := "Reinforced concrete storage tank with first-flush and filtration suitable for rooftop collection.",
      suitability := ["Urban rooftops", "Limited ground space", "Potable with treatment"],
      typicalDims := "2m × 2m × 2.5m (10 m³) or modular per demand",
      materials := ["RCC", "PVC/HDPE pipes", "First-flush valve", "Sand/charcoal filter"],
      estCost := "₹ 60,000 – ₹ 1,80,000 for 5–15 m³ (varies by region)",
      maintenance := ["Quarterly cleaning", "Filter media replacement yearly", "Inspect for cracks/leaks"],
      maintenanceLevel := Medium,
      isHybrid := false),
    StructureInfo(
      name := "Recharge pit",
      description := "Percolation pit to recharge groundwater using filtered rooftop/yard runoff.",
      suitability := ["Areas with permeable soil", "Space available in setback", "Reduce flooding"],
      typicalDims := "1.5m × 1.5m × 2–3m depth with gravel and sand filter",
      materials := ["Bricks/RCC rings", "Gravel & sand", "Geo-textile", "PVC pipes"],
      estCost := "₹ 25,000 – ₹ 70,000 depending on depth & lining",
      maintenance := ["Desilt before monsoon", "Inspect inlets", "Replace clogged media as needed"],
      maintenanceLevel := Low,
      isHybrid := false),
    StructureInfo(
      name := "Percolation trench",
      description := "Linear trench to intercept and recharge runoff along plot periphery.",
      suitability := ["Large plots", "Parking and landscapes", "Reduce surface runoff"],
      typicalDims := "0.6–1m wide × 1.5–2m deep, length as required",
      materials := ["Bricks/stones", "Gravel/sand", "Perforated pipes"],
      estCost := "₹ 1,200 – ₹ 2,500 per running meter",
      maintenance := ["Desilt chambers", "Remove debris", "Maintain vegetative cover"],
      maintenanceLevel := Low,
      isHybrid := false),
    StructureInfo(
      name := "Rain barrel",
      description := "Small capacity HDPE barrel connected to downpipe for basic non-potable reuse.",
      suitability := ["Small homes", "Gardening", "Low cost"],
      typicalDims := "200–500 L drums, elevate on stand with tap",
      materials := ["HDPE barrel", "Tap & overflow pipe", "Leaf screen"],
      estCost := "₹ 3,000 – ₹ 10,000",
      maintenance := ["Clean screen monthly", "Flush after first rains", "Keep covered"],
      maintenanceLevel := High,
      isHybrid := false),
    StructureInfo(
      name := "Recharge well",
      description := "Deep bore with recharge filter to inject treated runoff into aquifer where allowed.",
      suitability := ["High runoff sites", "Regulatory approval", "Deeper water table"],
      typicalDims := "150–300mm dia to 30–60m depth with filter pack",
      materials := ["PVC casing", "Gravel pack", "Silt trap", "Filter media"],
      estCost := "₹ 80,000 – ₹ 2,50,000",
      maintenance := ["Desilt traps", "Test water quality periodically", "Regulatory compliance"],
      maintenanceLevel := Medium,
      isHybrid := false),
    StructureInfo(
      name := "Modular underground tank",
      description := "Subsurface modular PP crate tank wrapped in geotextile for high-volume storage under driveways/yards.",
      suitability := ["Space constraints", "Driveway/parking underlay", "Large storage"],
      typicalDims := "Modular crates assembled to 5–50 m³, burial depth 1–2.5 m",
      materials := ["PP crates", "Geotextile", "HDPE liner (optional)", "Inlet/outlet pipes", "Access chamber"],
      estCost := "₹ 3,500 – ₹ 6,000 per m³ + excavation",
      maintenance := ["Inspect access chamber", "Flush silt trap pre-monsoon", "Check liner integrity"],
      maintenanceLevel := Low,
      isHybrid := false),
    StructureInfo(
      name := "Recharge shaft",
      description := "Vertical shaft with filter media to rapidly recharge deeper strata; used where water table is deep.",
      suitability := ["Large campuses", "High runoff areas", "Deep aquifer recharge"],
      typicalDims := "0.6–1 m dia × 10–20 m depth with gravel/sand filter",
      materials := ["Precast RCC rings", "Gravel/sand", "Silt trap", "PVC pipes"],
      estCost := "₹ 1,20,000 – ₹ 3,00,000 (site dependent)",
      maintenance := ["Desilt silt traps", "Inspect media annually", "Ensure safety cover"],
      maintenanceLevel := Medium,
      isHybrid := false),
    StructureInfo(
      name := "Infiltration gallery",
      description := "Subsurface gravel trench with perforated pipes to distribute and infiltrate filtered runoff.",
      suitability := ["Sandy soils", "Landscape areas", "Distributed recharge"],
      typicalDims := "0.8–1 m wide × 1.5–2 m deep; length as required",
      materials := ["Perforated HDPE pipes", "Gravel", "Geotextile", "Inspection ports"],
      estCost := "₹ 1,800 – ₹ 3,000 per running meter",
      maintenance := ["Vacuum clean inspection ports", "Replace clogged sections", "Maintain pretreatment"],
      maintenanceLevel := Medium,
      isHybrid := false),
    StructureInfo(
      name := "Soak pit",
      description := "Circular percolation pit filled with brick bats/gravel for small plot recharge.",
      suitability := ["Individual houses", "Low budget", "Non-clayey soils"],
      typicalDims := "1–1.2 m dia × 2–3 m depth",
      materials := ["Brick bats", "Gravel", "PVC pipe", "Top slab with cover"],
      estCost := "₹ 15,000 – ₹ 40,000",
      maintenance := ["Remove silt annually", "Prevent direct debris entry", "Cover securely"],
      maintenanceLevel := Low,
      isHybrid := false),
    StructureInfo(
      name := "Filter chamber",
      description := "Two-chamber sand/charcoal filter for pretreatment of rooftop runoff before storage/recharge.",
      suitability := ["All systems as pretreatment", "Roof runoff polishing"],
      typicalDims := "0.6 m × 0.6 m × 0.9 m per chamber (customizable)",
      materials := ["Bricks/RCC", "Sand", "Gravel", "Charcoal", "Mesh screens"],
      estCost := "₹ 8,000 – ₹ 25,000",
      maintenance := ["Replace media yearly", "Clean screens monthly", "Bypass during first flush if needed"],
      maintenanceLevel := High,
      isHybrid := false),
    StructureInfo(
      name := "RCC tank with first-flush and filter",
      description := "Basic reinforced concrete storage tank ideal for small-scale rainwater harvesting with integrated first-flush diversion and basic filtration. Perfect for volumes up to 5 m³.",
      suitability := ["Small urban rooftops", "Residential buildings", "Potable water with treatment", "Volume ≤ 5 m³", "Basic requirements"],
      typicalDims := "Custom dimensions based on required volume (calculated automatically)",
      materials := ["RCC construction", "PVC/HDPE pipes", "First-flush diverter", "Basic sand/charcoal filter", "Inlet/outlet valves", "Overflow pipe"],
      estCost := "₹ 50,000 – ₹ 1,00,000 for 2-5 m³",
      maintenance := ["Quarterly tank cleaning", "Annual filter media replacement", "First-flush device inspection", "Leak detection", "Gutter cleaning"],
      maintenanceLevel := Medium,
      isHybrid := true),
    StructureInfo(
      name := "RCC tank with recharge pit and silt trap",
      description := "Intermediate system combining storage and groundwater recharge with enhanced silt filtration for medium-scale applications. Designed for volumes between 5-15 m³.",
      suitability := ["Medium-sized buildings", "Areas with groundwater recharge potential", "Volume 5-15 m³", "Combined storage-recharge needs", "Moderate water demand"],
      typicalDims := "Custom dimensions based on required volume with integrated recharge pit",
      materials := ["RCC tank", "Recharge pit construction", "Advanced silt trap", "Dual piping system", "Filter media", "Observation well", "Vent pipes"],
      estCost := "₹ 1,00,000 – ₹ 2,50,000 for 5-15 m³",
      maintenance := ["Monthly silt trap cleaning", "Bi-annual recharge pit inspection", "Tank cleaning pre-monsoon", "Filter system maintenance", "Water quality checks"],
      maintenanceLevel := Medium,
      isHybrid := true),
    StructureInfo(
      name := "Recharge pit + storage tank with advanced filtration",
      description := "Advanced integrated system for large-scale rainwater harvesting combining substantial storage capacity with sophisticated filtration and groundwater recharge. Suitable for volumes above 15 m³.",
      suitability := ["Large buildings/complexes", "High rainfall areas", "Volume > 15 m³", "Commercial applications", "High water demand"],
      typicalDims := "Large custom dimensions with separate recharge and storage components",
      materials := ["Large RCC storage tank", "Deep recharge pit/shaft", "Multi-stage filtration", "Automatic first-flush", "Water quality monitoring", "Pump system", "Control panel"],
      estCost := "₹ 2,50,000 – ₹ 10,00,000+ depending on scale",
      maintenance := ["Weekly system checks", "Advanced filter replacement", "Water quality testing", "Professional maintenance quarterly", "Pump maintenance"],
      maintenanceLevel := High,
      isHybrid := true)
  ]

  /** The level as the filter compares it: "low", "medium" or "high". */
  function LevelName(l: Level): string
  {
    match l
    case Low => "low"
    case Medium => "medium"
    case High => "high"
  }

  /** `items.some(x => x.toLowerCase().includes(query))`. */
  predicate SomeContains(items: seq<string>, query: string)
  {
    exists i :: 0 <= i < |items| && Contains(ToLower(items[i]), query)
  }

  /**
   * `calculateMatchScore(structure, query)`: 1 for the name, 0.5 for the
   * description, 0.3 for any material and 0.4 for any suitability entry whose
   * lower-cased text contains `query` (which is not itself lower-cased).
   */
  function MatchScore(s: StructureInfo, query: string): (score: real)
    ensures 0.0 <= score <= 2.2
    ensures score == 0.0 <==>
      (!Contains(ToLower(s.name), query) && !Contains(ToLower(s.description), query)
       && !SomeContains(s.materials, query) && !SomeContains(s.suitability, query))
    ensures score > 0.3 <==>
      (Contains(ToLower(s.name), query) || Contains(ToLower(s.description), query) || SomeContains(s.suitability, query))
  {
    (if Contains(ToLower(s.name), query) then 1.0 else 0.0)
    + (if Contains(ToLower(s.description), query) then 0.5 else 0.0)
    + (if SomeContains(s.materials, query) then 0.3 else 0.0)
    + (if SomeContains(s.suitability, query) then 0.4 else 0.0)
  }

  /** `catalog.find(s => s.name.toLowerCase() === norm)`, searching from entry `i`, as an index. */
  function ExactFrom(catalog: seq<StructureInfo>, norm: string, i: nat): (r: Option<nat>)
    requires i <= |catalog|
    ensures r.Some? ==> i <= r.value < |catalog| && ToLower(catalog[r.value].name) == norm
    ensures r.Some? ==> forall j :: i <= j < r.value ==> ToLower(catalog[j].name) != norm
    ensures r.None? ==> forall j :: i <= j < |catalog| ==> ToLower(catalog[j].name) != norm
    decreases |catalog| - i
  {
    if i == |catalog| then None
    else if ToLower(catalog[i].name) == norm then Some(i)
    else ExactFrom(catalog, norm, i + 1)
  }

  /** `catalog.find(s => s.name.toLowerCase().includes(norm))`, searching from entry `i`, as an index. */
  function PartialFrom(catalog: seq<StructureInfo>, norm: string, i: nat): (r: Option<nat>)
    requires i <= |catalog|
    ensures r.Some? ==> i <= r.value < |catalog| && Contains(ToLower(catalog[r.value].name), norm)
    ensures r.Some? ==> forall j :: i <= j < r.value ==> !Contains(ToLower(catalog[j].name), norm)
    ensures r.None? ==> forall j :: i <= j < |catalog| ==> !Contains(ToLower(catalog[j].name), norm)
    decreases |catalog| - i
  {
    if i == |catalog| then None
    else if Contains(ToLower(catalog[i].name), norm) then Some(i)
    else PartialFrom(catalog, norm, i + 1)
  }

  /** The score of entry `j` against `norm`. */
  function ScoreAt(catalog: seq<StructureInfo>, norm: string, j: nat): real
    requires j < |catalog|
  {
    MatchScore(catalog[j], norm)
  }

  /**
   * The fuzzy fallback: the entries scoring above 0.3, sorted by descending
   * score with a stable sort, and the first of them taken. Scanning in catalog
   * order and replacing the candidate only on a strictly higher score gives
   * that same entry; `best` is the candidate among the entries before `i`.
   */
  function BestFrom(catalog: seq<StructureInfo>, norm: string, i: nat, best: Option<nat>): (r: Option<nat>)
    requires i <= |catalog|
    requires best.Some? ==> best.value < i && ScoreAt(catalog, norm, best.value) > 0.3
    ensures r.Some? ==> r.value < |catalog| && ScoreAt(catalog, norm, r.value) > 0.3
    decreases |catalog| - i
  {
    if i == |catalog| then best
    else if ScoreAt(catalog, norm, i) > 0.3
            && (best.None? || ScoreAt(catalog, norm, i) > ScoreAt(catalog, norm, best.value))
    then BestFrom(catalog, norm, i + 1, Some(i))
    else BestFrom(catalog, norm, i + 1, best)
  }

  /** `best` is the earliest highest-scoring entry above 0.3 before `i`, and `None` when none scores above 0.3 there. */
  predicate EarliestBest(catalog: seq<StructureInfo>, norm: string, i: nat, best: Option<nat>)
    requires i <= |catalog|
  {
    (best.None? ==> forall j :: 0 <= j < i ==> ScoreAt(catalog, norm, j) <= 0.3)
    && (best.Some? ==>
          best.value < i && ScoreAt(catalog, norm, best.value) > 0.3
          && (forall j :: 0 <= j < i ==> ScoreAt(catalog, norm, j) <= ScoreAt(catalog, norm, best.value))
          && (forall j :: 0 <= j < best.value ==> ScoreAt(catalog, norm, j) < ScoreAt(catalog, norm, best.value)))
  }

  lemma {:induction false} BestFromIsEarliestBest(catalog: seq<StructureInfo>, norm: string, i: nat, best: Option<nat>)
    requires i <= |catalog| && EarliestBest(catalog, norm, i, best)
    ensures EarliestBest(catalog, norm, |catalog|, BestFrom(catalog, norm, i, best))
    decreases |catalog| - i
  {
    if i < |catalog| {
      if ScoreAt(catalog, norm, i) > 0.3
         && (best.None? || ScoreAt(catalog, norm, i) > ScoreAt(catalog, norm, best.value)) {
        BestFromIsEarliestBest(catalog, norm, i + 1, Some(i));
      } else {
        BestFromIsEarliestBest(catalog, norm, i + 1, best);
      }
    }
  }

  /** The trimmed, lower-cased query the lookup works with. */
  function Normalized(q: string): (norm: string)
    ensures norm == [] <==> forall i :: 0 <= i < |q| ==> IsSpace(q[i])
  {
    TrimEmptyIffBlank(q);
    ToLower(Trim(q))
  }

  /** `findStructure(q)` over a given catalog; `None` is its `null`. */
  function Lookup(catalog: seq<StructureInfo>, q: string): (r: Option<StructureInfo>)
    ensures (forall i :: 0 <= i < |q| ==> IsSpace(q[i])) ==> r.None?
    ensures r.Some? ==> r.value in catalog
  {
    var norm := Normalized(q);
    if norm == [] then None
    else
      match ExactFrom(catalog, norm, 0)
      case Some(i) => Some(catalog[i])
      case None =>
        match PartialFrom(catalog, norm, 0)
        case Some(i) => Some(catalog[i])
        case None =>
          match BestFrom(catalog, norm, 0, None)
          case Some(i) => Some(catalog[i])
          case None => None
  }

  /** `findStructure(q)`: the lookup over `CATALOG`. */
  function FindStructure(q: string): (r: Option<StructureInfo>)
    ensures (forall i :: 0 <= i < |q| ==> IsSpace(q[i])) ==> r.None?
    ensures r.Some? ==> r.value in Catalog
  {
    Lookup(Catalog, q)
  }

  /** A name equal to the query, ignoring case and surrounding whitespace, wins: the first such entry is returned. */
  lemma ExactMatchFirst(catalog: seq<StructureInfo>, q: string, j: nat)
    requires j < |catalog| && Normalized(q) != []
    requires ToLower(catalog[j].name) == Normalized(q)
    requires forall k :: 0 <= k < j ==> ToLower(catalog[k].name) != Normalized(q)
    ensures Lookup(catalog, q) == Some(catalog[j])
  {
    var r := ExactFrom(catalog, Normalized(q), 0);
    assert r.Some? && r.value == j;
  }

  /** With no exact name, the first entry whose lower-cased name contains the query is returned. */
  lemma PartialMatchFirst(catalog: seq<StructureInfo>, q: string, j: nat)
    requires j < |catalog| && Normalized(q) != []
    requires forall k :: 0 <= k < |catalog| ==> ToLower(catalog[k].name) != Normalized(q)
    requires Contains(ToLower(catalog[j].name), Normalized(q))
    requires forall k :: 0 <= k < j ==> !Contains(ToLower(catalog[k].name), Normalized(q))
    ensures Lookup(catalog, q) == Some(catalog[j])
  {
    var norm := Normalized(q);
    var e := ExactFrom(catalog, norm, 0);
    assert e.None?;
    var r := PartialFrom(catalog, norm, 0);
    assert r.Some? && r.value == j;
  }

  /** With no name containing the query, the lookup falls through to the fuzzy scan. */
  lemma FallsThroughToScan(catalog: seq<StructureInfo>, q: string)
    requires Normalized(q) != []
    requires forall k :: 0 <= k < |catalog| ==> !Contains(ToLower(catalog[k].name), Normalized(q))
    ensures var b := BestFrom(catalog, Normalized(q), 0, None);
      Lookup(catalog, q) == if b.Some? then Some(catalog[b.value]) else None
  {
    var norm := Normalized(q);
    forall k | 0 <= k < |catalog|
      ensures ToLower(catalog[k].name) != norm
    {
      ContainsSelfAndEmpty(norm);
    }
    var e := ExactFrom(catalog, norm, 0);
    assert e.None?;
    var p := PartialFrom(catalog, norm, 0);
    assert p.None?;
  }

  /**
   * With no name containing the query, the result is the highest-scoring
   * entry above 0.3, the earliest one on a tie, and nothing when no entry
   * scores above 0.3 (so a match on materials alone is never returned).
   */
  lemma FuzzyFallback(catalog: seq<StructureInfo>, q: string)
    requires Normalized(q) != []
    requires forall k :: 0 <= k < |catalog| ==> !Contains(ToLower(catalog[k].name), Normalized(q))
    ensures Lookup(catalog, q).None? <==> forall k :: 0 <= k < |catalog| ==> ScoreAt(catalog, Normalized(q), k) <= 0.3
    ensures Lookup(catalog, q).Some? ==>
      exists j :: 0 <= j < |catalog| && Lookup(catalog, q) == Some(catalog[j])
        && ScoreAt(catalog, Normalized(q), j) > 0.3
        && (forall k :: 0 <= k < |catalog| ==> ScoreAt(catalog, Normalized(q), k) <= ScoreAt(catalog, Normalized(q), j))
        && (forall k :: 0 <= k < j ==> ScoreAt(catalog, Normalized(q), k) < ScoreAt(catalog, Normalized(q), j))
  {
    var norm := Normalized(q);
    FallsThroughToScan(catalog, q);
    BestFromIsEarliestBest(catalog, norm, 0, None);
    var b := BestFrom(catalog, norm, 0, None);
    if b.Some? {
      assert Lookup(catalog, q) == Some(catalog[b.value]);
    }
  }

  /** The smallest of a non-empty list. */
  function MinOf(xs: seq<nat>): (m: nat)
    requires |xs| > 0
    ensures m in xs && forall i :: 0 <= i < |xs| ==> m <= xs[i]
  {
    if |xs| == 1 then xs[0]
    else var rest := MinOf(xs[1..]); if xs[0] <= rest then xs[0] else rest
  }

  /** The largest of a non-empty list. */
  function MaxOf(xs: seq<nat>): (m: nat)
    requires |xs| > 0
    ensures m in xs && forall i :: 0 <= i < |xs| ==> xs[i] <= m
  {
    if |xs| == 1 then xs[0]
    else var rest := MaxOf(xs[1..]); if xs[0] >= rest then xs[0] else rest
  }

  /**
   * `getCostRange(structure)`: the smallest and largest run of digits in the
   * cost text, or (0, 0) when it has no digits. Digit groups split at commas,
   * so "1,80,000" reads as the three numbers 1, 80 and 0.
   */
  function CostRange(s: StructureInfo): (r: (nat, nat))
    ensures r.0 <= r.1
    ensures DigitRuns(s.estCost) == [] ==> r == (0, 0)
    ensures DigitRuns(s.estCost) != [] ==>
      var runs := DigitRuns(s.estCost);
      r.0 in runs && r.1 in runs && forall i :: 0 <= i < |runs| ==> r.0 <= runs[i] <= r.1
  {
    var numbers := DigitRuns(s.estCost);
    if numbers == [] then (0, 0) else (MinOf(numbers), MaxOf(numbers))
  }

  /** The filter panel's state. */
  datatype Filters = Filters(
    costMin: int,
    costMax: int,
    suitability: seq<string>,
    maintenanceLevel: seq<string>,
    searchText: string,
    showHybrid: bool)

  const DefaultFilters: Filters := Filters(0, 300000, [], [], "", true)

  /** Whether the filter panel lets `s` through: every one of its tests passes. */
  predicate Keep(s: StructureInfo, f: Filters)
  {
    (f.showHybrid || !s.isHybrid)
    && CostRange(s).0 <= f.costMax && CostRange(s).1 >= f.costMin
    && (f.suitability == [] ||
        exists k :: 0 <= k < |f.suitability| && SomeContains(s.suitability, ToLower(f.suitability[k])))
    && (f.maintenanceLevel == [] || LevelName(s.maintenanceLevel) in f.maintenanceLevel)
    && (f.searchText == [] || MatchScore(s, f.searchText) != 0.0)
  }

  /** `a` is `b` with some entries left out and the rest in their order. */
  predicate IsSubsequence<T(==)>(a: seq<T>, b: seq<T>)
    decreases |b|
  {
    a == [] || (b != [] && ((a[0] == b[0] && IsSubsequence(a[1..], b[1..])) || IsSubsequence(a, b[1..])))
  }

  /** The entries of `xs` that pass the filters, in order. */
  function FilterStructures(xs: seq<StructureInfo>, f: Filters): (r: seq<StructureInfo>)
    ensures forall s :: s in r <==> s in xs && Keep(s, f)
    ensures forall s :: multiset(r)[s] == if Keep(s, f) then multiset(xs)[s] else 0
    ensures IsSubsequence(r, xs)
  {
    if xs == [] then []
    else
      assert xs == [xs[0]] + xs[1..];
      if Keep(xs[0], f) then [xs[0]] + FilterStructures(xs[1..], f)
      else FilterStructures(xs[1..], f)
  }

  /** `filteredStructures`: the catalog entries the filter panel lets through. */
  function FilteredStructures(f: Filters): (r: seq<StructureInfo>)
    ensures forall s :: s in r <==> s in Catalog && Keep(s, f)
    ensures IsSubsequence(r, Catalog)
  {
    FilterStructures(Catalog, f)
  }

  /** `xs.filter(x => key(x) !== k)`. */
  function Without<T(==,!new)>(xs: seq<T>, key: T -> string, k: string): (r: seq<T>)
    ensures forall x :: x in r <==> x in xs && key(x) != k
    ensures forall x :: multiset(r)[x] == if key(x) != k then multiset(xs)[x] else 0
    ensures IsSubsequence(r, xs)
  {
    if xs == [] then []
    else
      assert xs == [xs[0]] + xs[1..];
      if key(xs[0]) != k then [xs[0]] + Without(xs[1..], key, k)
      else Without(xs[1..], key, k)
  }

  /** Some entry of `xs` has key `k`. */
  predicate HasKey<T(==,!new)>(xs: seq<T>, key: T -> string, k: string)
  {
    exists i :: 0 <= i < |xs| && key(xs[i]) == k
  }

  /** The updater the toggles share: drop every entry with `x`'s key if there is one, else append `x`. */
  function Toggle<T(==,!new)>(xs: seq<T>, key: T -> string, x: T): (r: seq<T>)
    ensures HasKey(r, key, key(x)) <==> !HasKey(xs, key, key(x))
    ensures forall y :: key(y) != key(x) ==> (y in r <==> y in xs)
    ensures HasKey(xs, key, key(x)) ==> IsSubsequence(r, xs)
    ensures HasKey(xs, key, key(x)) ==>
      forall y :: multiset(r)[y] == if key(y) != key(x) then multiset(xs)[y] else 0
    ensures !HasKey(xs, key, key(x)) ==> r == xs + [x]
  {
    if HasKey(xs, key, key(x)) then Without(xs, key, key(x))
    else
      assert key((xs + [x])[|xs|]) == key(x);
      xs + [x]
  }

  /** An entry absent from a list is absent from its tail. */
  lemma NoKeyInTail<T(!new)>(xs: seq<T>, key: T -> string, k: string)
    requires xs != [] && !HasKey(xs, key, k)
    ensures key(xs[0]) != k && !HasKey(xs[1..], key, k)
  {
    forall i | 0 <= i < |xs[1..]|
      ensures key(xs[1..][i]) != k
    {
      assert xs[1..][i] == xs[i + 1];
    }
  }

  lemma {:induction false} WithoutAppended<T(!new)>(xs: seq<T>, key: T -> string, x: T)
    requires !HasKey(xs, key, key(x))
    ensures Without(xs + [x], key, key(x)) == xs
  {
    if xs == [] {
      assert [x][1..] == [];
    } else {
      var ys := xs + [x];
      assert ys[0] == xs[0] && ys[1..] == xs[1..] + [x];
      NoKeyInTail(xs, key, key(x));
      calc {
        Without(ys, key, key(x));
        [xs[0]] + Without(xs[1..] + [x], key, key(x));
        { WithoutAppended(xs[1..], key, x); }
        [xs[0]] + xs[1..];
        xs;
      }
    }
  }

  /** Toggling an entry that is not there, and then toggling it again, gives back the list unchanged. */
  lemma ToggleTwiceRestores<T(!new)>(xs: seq<T>, key: T -> string, x: T)
    requires !HasKey(xs, key, key(x))
    ensures Toggle(Toggle(xs, key, x), key, x) == xs
  {
    WithoutAppended(xs, key, x);
  }

  /** `toggleFavorite(structureName)`: the favourites list with the name removed if present, else appended. */
  function ToggleFavorite(prev: seq<string>, structureName: string): (r: seq<string>)
    ensures structureName in r <==> structureName !in prev
    ensures forall f :: f != structureName ==> (f in r <==> f in prev)
    ensures structureName in prev ==> IsSubsequence(r, prev)
    ensures structureName in prev ==>
      forall f :: multiset(r)[f] == if f != structureName then multiset(prev)[f] else 0
    ensures structureName !in prev ==> r == prev + [structureName]
  {
    var id := (f: string) => f;
    assert HasKey(prev, id, structureName) <==> structureName in prev;
    var r := Toggle(prev, id, structureName);
    assert HasKey(r, id, structureName) <==> structureName in r;
    r
  }

  /** Some entry of `xs` is named `name`: `xs.find(s => s.name === name)` succeeds. */
  predicate HasName(xs: seq<StructureInfo>, name: string)
  {
    exists i :: 0 <= i < |xs| && xs[i].name == name
  }

  /** `toggleComparison(structure)`: every entry of that name removed if there is one, else the structure appended. */
  function ToggleComparison(prev: seq<StructureInfo>, structure: StructureInfo): (r: seq<StructureInfo>)
    ensures HasName(r, structure.name) <==> !HasName(prev, structure.name)
    ensures forall t: StructureInfo :: t.name != structure.name ==> (t in r <==> t in prev)
    ensures HasName(prev, structure.name) ==> IsSubsequence(r, prev)
    ensures HasName(prev, structure.name) ==>
      forall t: StructureInfo :: multiset(r)[t] == if t.name != structure.name then multiset(prev)[t] else 0
    ensures !HasName(prev, structure.name) ==> r == prev + [structure]
  {
    var name := (t: StructureInfo) => t.name;
    assert HasKey(prev, name, structure.name) <==> HasName(prev, structure.name);
    var r := Toggle(prev, name, structure);
    assert HasKey(r, name, structure.name) <==> HasName(r, structure.name);
    r
  }

  /** The maintenance-level buttons: the level's name leaves the filter if it is there, else joins it; nothing else changes. */
  function ToggleLevel(f: Filters, level: Level): (r: Filters)
    ensures LevelName(level) in r.maintenanceLevel <==> LevelName(level) !in f.maintenanceLevel
    ensures forall l :: l != LevelName(level) ==> (l in r.maintenanceLevel <==> l in f.maintenanceLevel)
    ensures r.costMin == f.costMin && r.costMax == f.costMax && r.suitability == f.suitability
    ensures r.searchText == f.searchText && r.showHybrid == f.showHybrid
  {
    f.(maintenanceLevel := ToggleFavorite(f.maintenanceLevel, LevelName(level)))
  }

  /** The em dash shown when nothing was found. */
  const NoDimensions: string := "\U{2014}"

  /**
   * `displayDimensions(info)`: the dimensions and volume handed over in the
   * page address when the found entry's name is exactly the query text, else
   * the entry's typical dimensions, else a dash.
   */
  function DisplayDimensions(info: Option<StructureInfo>, customDimensions: string, customVolume: string, query: string): (r: string)
    ensures customDimensions != [] && info.Some? && info.value.name == query ==>
      customDimensions + " " <= r
      && (customVolume == [] ==> r == customDimensions + " ")
      && (customVolume != [] ==> r == customDimensions + " (" + customVolume + ")")
    ensures !(customDimensions != [] && info.Some? && info.value.name == query) ==>
      r == if info.Some? then info.value.typicalDims else NoDimensions
  {
    if customDimensions != [] && info.Some? && info.value.name == query then
      customDimensions + " " + (if customVolume != [] then "(" + customVolume + ")" else "")
    else if info.Some? then info.value.typicalDims
    else NoDimensions
  }
}
