# JalRakshak 2.0 — a Dafny model of the feasibility core

JalRakshak helps a household decide whether and how to harvest rainwater.
This project models the deterministic parts of it and proves properties of
the model.

- **The analysis page** turns a form into five chained analyses:
  1. the rainfall harvest;
  2. the storage tank size and its dimensions;
  3. the cost breakdown;
  4. a 20-year cash-flow analysis (NPV, a scanned rate of return, ROI, payback and break-even years);
  5. a ±20 % sensitivity table.

  Each stage is absent (`null`) when the stage it depends on is absent.
- **The structure guide** holds a catalog of 13 structures. It has:
  - a three-tier lookup: exact name, then substring, then a weighted fuzzy score;
  - the list filters;
  - the favourites and comparison toggles.
- **Two helper libraries:**
  - `finance.ts`: NPV, a bisection rate of return and a fixed-saving appraisal;
  - `rainfall.ts`: fixed-rainfall sizing.
- **The archive aggregation** folds a year of daily precipitation into an annual total and twelve monthly buckets.
- **The chat bot** has two parts:
  - the service turns the client's history into a "Role: text" transcript and answers an end-of-conversation request itself;
  - the generator formats the retrieved passages and fills a prompt template with the context, conversation and query, each cut to its limit.

Files, one module each:

| file | module | models |
|---|---|---|
| `wrappers.dfy` | `Wrappers` | `Option`, for `null` / `undefined` / `None` |
| `jsmath.dfy` | `JsMath` | `Math.round`, `Math.pow`, `Math.max`/`min`/`abs`, `reduce` sums, `indexOf` |
| `text.dfy` | `Text` | `trim`/`strip`, `toLowerCase`, `includes`, slicing, `join`, digit runs |
| `analysis_inputs.dfy` | `InputNormalizer` | `safeNumber`, `safeArraySum`, `safeInputs`, `hasValidInputs` |
| `analysis_rainfall.dfy` | `RainfallEstimator` | the rainfall stage |
| `analysis_storage.dfy` | `StorageSizer` | the storage stage |
| `analysis_cost.dfy` | `CostEstimator` | the cost stage |
| `analysis_financial.dfy` | `FinancialAnalyzer` | the financial stage: loops in methods, proved equal to a specification function |
| `analysis_sensitivity.dfy` | `SensitivityAnalyzer` | the sensitivity stage |
| `analysis_pipeline.dfy` | `AnalysisPipeline` | the chain of stages and `analysisCount` |
| `catalog.dfy` | `StructureCatalog` | the structure guide |
| `finance.dfy` | `Finance` | `src/lib/finance.ts` |
| `rainfall_lib.dfy` | `RainfallLib` | `src/lib/rainfall.ts` |
| `rainfall_archive.dfy` | `RainfallArchive` | the aggregation in `fetchAnnualRainfall` (an array updated in place) |
| `chat_history.dfy` | `ChatServer` | `format_conversation_history` (an accumulator loop) and the `/chat` end branch |
| `rag_prompt.dfy` | `RagGenerator` | `format_docs`, the end branch and the prompt arguments of `generate` |

Modelling conventions:

- **Numbers:**
  - JavaScript numbers are Dafny `real`.
  - `Math.round(x)` is `Floor(x + 0.5)`.
  - `Math.pow` with a whole exponent is a recursive power.
  - `Math.ceil(Math.cbrt(v))` and `Math.ceil(Math.sqrt(v / k))` are the least whole side with side³ ≥ v and k·side² ≥ v.
- **Inputs and strings:**
  - A raw form value is classified as `safeNumber` sees it: null, undefined, empty text, not a number, or a number.
  - Strings are `seq<char>`.

## Model

| member | source | states |
|---|---|---|
| InputNormalizer.SafeNumber | src/app/analysis/page.tsx:80-85 | null, undefined, "" and non-numbers give the default; a number gives max(0, n); so the result is non-negative or the default |
| InputNormalizer.SafeArraySum | src/app/analysis/page.tsx:87-90 | the sum is non-negative, and 0 for a non-array or an empty array |
| InputNormalizer.Normalize | src/app/analysis/page.tsx:127-136 | every safe input is non-negative; water price, discount and inflation default to 50, 5 and 3; missing rainfall is 0; an empty roof type becomes "concrete" |
| InputNormalizer.ExplicitZeroIsKept | src/app/analysis/page.tsx:886-897 | the 0 an emptied NumberInput emits stays 0 in the safe inputs rather than taking the default |
| InputNormalizer.HasValidInputs | src/app/analysis/page.tsx:117-124 | valid iff roof area, dwellers and rainfall are positive numbers and the location has a non-space character |
| RainfallEstimator.RunoffCoefficient | src/app/analysis/page.tsx:149-157 | the coefficient is from the four-roof table, in [0.75, 0.90], and 0.85 for any other roof type |
| RainfallEstimator.Estimate | src/app/analysis/page.tsx:144-146 | the stage is absent iff roof area ≤ 0 or rainfall ≤ 0 |
| RainfallEstimator.Analyse | src/app/analysis/page.tsx:159-183 | eight buckets, peak month in 1..8, and the peak harvest is the bucket at the peak month |
| RainfallEstimator.SeasonalDistributionSumsToOne | src/app/analysis/page.tsx:160 | the eight seasonal shares add up to 1 |
| RainfallEstimator.HarvestTotal | src/app/analysis/page.tsx:163-168 | the unrounded buckets add up to roof area × rainfall × runoff coefficient |
| RainfallEstimator.PeakIsSixthBucket | src/app/analysis/page.tsx:171-172 | with positive inputs the maximum is the sixth bucket, and indexOf finds it there first |
| RainfallEstimator.EfficiencyBounds | src/app/analysis/page.tsx:176-178 | for any non-negative profile with a positive total, min(0.95, 1 − 0.3·peak/total) lies in [0.7, 0.95] |
| RainfallEstimator.EstimateFacts | src/app/analysis/page.tsx:180-187 | total, peak month 6, peak, efficiency 0.93 and effective harvest in terms of the roof yield; 0 ≤ effective harvest ≤ total |
| RainfallEstimator.EstimateMonthly | src/app/analysis/page.tsx:163-166 | each reported bucket is the rounded seasonal share of the roof yield |
| RainfallEstimator.ConcreteRoofExample | src/app/analysis/page.tsx:139-189 | 100 m² of concrete roof under 1000 mm gives a total of 85000 L, peak month 6, 21250 L peak, efficiency 0.93 and 78625 L effective |
| StorageSizer.ComplexityFor | src/app/analysis/page.tsx:210-225 | Basic iff the volume is ≤ 5, Advanced iff it is > 15, Intermediate otherwise |
| StorageSizer.CeilCbrtFrom | src/app/analysis/page.tsx:212 | the least side whose cube holds the volume |
| StorageSizer.CeilSqrtRatioFrom | src/app/analysis/page.tsx:217-222 | the least side with num·side² ≥ den·volume |
| StorageSizer.CeilDiv | src/app/analysis/page.tsx:213 | the least quotient q with q·k ≥ v |
| StorageSizer.TankDimensions | src/app/analysis/page.tsx:210-225 | the tank encloses the volume (side² × height ≥ v); each band's side is the least that does, with heights ceil(v/side²), 2.5 m and 3 m |
| StorageSizer.StorageDays | src/app/analysis/page.tsx:202 | the optimal storage days are clamped to [30, 90] |
| StorageSizer.RecommendedVolume | src/app/analysis/page.tsx:203 | the volume is ≥ 1 and lies between 30 and 90 days of demand, within rounding |
| StorageSizer.Size | src/app/analysis/page.tsx:192-238 | absent iff no rainfall, effective harvest ≤ 0 or dwellers ≤ 0; the actual volume is the harvest in whole m³ (at least 1); the recommended volume is the clamped storage days of demand, rounded (at least 1); the storage days are those days rounded, in [30, 90]; the utilisation rate is within 0.005 of actual / recommended; band, structure type and dimensions follow the recommended volume |
| StorageSizer.ActualVolumeIgnoresDwellers | src/app/analysis/page.tsx:197-198 | the actual volume depends on the effective harvest alone, never on the number of dwellers |
| StorageSizer.ConcreteRoofStorage | src/app/analysis/page.tsx:192-238 | the worked roof with four dwellers gets 18 m³ recommended, 79 m³ actual, an Advanced 3m x 3m x 3m structure, 30 days and utilisation 4.39 |
| CostEstimator.MaterialsMultiplier | src/app/analysis/page.tsx:267-273 | the materials multiplier is at least 1 |
| CostEstimator.LaborMultiplier | src/app/analysis/page.tsx:267-273 | the labour multiplier is at least 1 |
| CostEstimator.MultipliersMonotone | src/app/analysis/page.tsx:267-271 | a higher band never has a smaller multiplier |
| CostEstimator.PipeLength | src/app/analysis/page.tsx:276 | the pipe run is at least 20 m, and 2·√area + 10 from a 25 m² roof up |
| CostEstimator.PricedMonotone | src/app/analysis/page.tsx:280-292 | a line item grows with its quantity and its multiplier |
| CostEstimator.Breakdown | src/app/analysis/page.tsx:279-311 | the total is materials plus labour, without maintenance |
| CostEstimator.Estimate | src/app/analysis/page.tsx:241-314 | absent iff there is no storage or its recommended volume is ≤ 0; otherwise it is the breakdown at that volume, band and pipe run |
| CostEstimator.BreakdownMonotone | src/app/analysis/page.tsx:279-310 | a larger volume, a higher band or a longer pipe run never lowers the total or any upkeep item |
| CostEstimator.BreakdownItemsPositive | src/app/analysis/page.tsx:279-300 | every material, labour and maintenance item is positive |
| CostEstimator.CheapestBreakdown | src/app/analysis/page.tsx:279-311 | a 1 m³ Basic tank with 20 m of pipe costs INR 38600, item by item |
| CostEstimator.MinimumInstallationCost | src/app/analysis/page.tsx:241-314 | every priced installation costs at least INR 38600 |
| FinancialAnalyzer.CashFlows | src/app/analysis/page.tsx:331-340 | 21 flows; flow 0 is minus the installation cost; flow y is the inflated water value less the inflated upkeep |
| FinancialAnalyzer.FlowSign | src/app/analysis/page.tsx:336-338 | every flow after year 0 has the sign of water value minus upkeep |
| FinancialAnalyzer.IrrScan | src/app/analysis/page.tsx:349-363 | the rate of return is 0 or a whole percentage in 0..99 |
| FinancialAnalyzer.IrrScanIsFirst | src/app/analysis/page.tsx:353-363 | it is the first whole percentage whose NPV is within 0.001 of 0, and 0 when there is none |
| FinancialAnalyzer.PaybackIsFirstYear | src/app/analysis/page.tsx:370-378 | the payback year is the first year in 1..20 whose running total reaches the cost, else 20 |
| FinancialAnalyzer.BreakEvenIsFirstYear | src/app/analysis/page.tsx:381-390 | the break-even year is the first year in 1..20 whose discounted running value is ≥ 0, else 20 |
| FinancialAnalyzer.Hundredths | src/app/analysis/page.tsx:394-395 | rounding to hundredths moves a value by at most 0.005 |
| FinancialAnalyzer.Roi | src/app/analysis/page.tsx:366-367 | for a positive cost, the ROI is ≥ 0 iff total benefits reach the cost |
| FinancialAnalyzer.Analysis | src/app/analysis/page.tsx:317-403 | reported iff there is a rainfall analysis with a non-zero effective harvest and a cost breakdown with a positive total |
| FinancialAnalyzer.AnalysisYears | src/app/analysis/page.tsx:348-394 | payback and break-even are each the first qualifying year in 1..20, or 20; the reported rate of return is the first whole percentage whose NPV is within tolerance of 0, or 0 when there is none |
| FinancialAnalyzer.HundredthsOfWhole | src/app/analysis/page.tsx:394 | rounding a whole number to hundredths leaves it unchanged |
| FinancialAnalyzer.NoGainNoPayback | src/app/analysis/page.tsx:323-390 | when the water value is at most the upkeep, payback and break-even are both 20 |
| FinancialAnalyzer.BuildCashFlows | src/app/analysis/page.tsx:331-340 | the push loop builds exactly the 21 flows |
| FinancialAnalyzer.ScanIrr | src/app/analysis/page.tsx:349-363 | the loop with break returns the scan's whole percentage |
| FinancialAnalyzer.Payback | src/app/analysis/page.tsx:370-378 | the running-total loop returns the first payback year, or 20 |
| FinancialAnalyzer.BreakEven | src/app/analysis/page.tsx:381-390 | the loop returns the first break-even year, or 20 |
| FinancialAnalyzer.Analyze | src/app/analysis/page.tsx:317-403 | the stage's loops compute exactly the specified analysis |
| SensitivityAnalyzer.Change | src/app/analysis/page.tsx:425 | 0 when the base NPV is 0; otherwise its sign is that of adjusted minus base |
| SensitivityAnalyzer.Series | src/app/analysis/page.tsx:414-448 | five points at −20, −10, 0, 10, 20 in order, with the rounded adjusted NPV and change |
| SensitivityAnalyzer.Analyse | src/app/analysis/page.tsx:406-409 | present iff the financial, rainfall and cost analyses all are |
| SensitivityAnalyzer.AgreeAtZero | src/app/analysis/page.tsx:416-448 | unmoved, all three drivers give 15 × the annual water value − the total |
| SensitivityAnalyzer.RainfallMatchesWaterPrice | src/app/analysis/page.tsx:416-448 | moving the harvest or the price by the same percentage gives the same value |
| SensitivityAnalyzer.SeriesAgree | src/app/analysis/page.tsx:450-454 | the rainfall and water-price series are identical, and all three agree at 0 % |
| SensitivityAnalyzer.CostSeriesDecreasing | src/app/analysis/page.tsx:429-437 | the cost series never rises with the variation, and strictly falls once the total is ≥ 10 |
| AnalysisPipeline.Run | src/app/analysis/page.tsx:139-457 | rainfall is absent iff roof area ≤ 0 or rainfall ≤ 0; each stage is absent when its predecessor is |
| AnalysisPipeline.CountTrue | src/app/analysis/page.tsx:460-466 | the count of true flags is at most their number; it equals that number iff all are true, and is 0 iff none is |
| AnalysisPipeline.AnalysisCount | src/app/analysis/page.tsx:460-466 | analysisCount is in 0..5, and 0 iff every stage is absent |
| AnalysisPipeline.PresentIsPrefix | src/app/analysis/page.tsx:460-466 | the present stages are exactly the first analysisCount of the chain |
| AnalysisPipeline.RunIsPrefix | src/app/analysis/page.tsx:139-466 | for every form, the present analyses form a prefix of rainfall → storage → cost → financial → sensitivity |
| AnalysisPipeline.ValidInputsGiveRainfall | src/app/analysis/page.tsx:117-146 | valid inputs always give a rainfall analysis, so analysisCount ≥ 1 |
| StructureCatalog.MatchScore | src/components/StructureContent.tsx:218-225 | the score lies in [0, 2.2]; it is 0 iff no field contains the query; it exceeds 0.3 iff the name, description or a suitability entry does |
| StructureCatalog.ExactFrom | src/components/StructureContent.tsx:200-201 | finds the first entry whose lower-cased name equals the query, or reports that none does |
| StructureCatalog.PartialFrom | src/components/StructureContent.tsx:205-206 | finds the first entry whose lower-cased name contains the query, or reports that none does |
| StructureCatalog.BestFromIsEarliestBest | src/components/StructureContent.tsx:209-215 | the scan yields the earliest highest-scoring entry above 0.3, as the stable sort's first element would |
| StructureCatalog.Normalized | src/components/StructureContent.tsx:196-197 | the trimmed, lower-cased query is empty iff the query is all whitespace |
| StructureCatalog.FindStructure | src/components/StructureContent.tsx:195-216 | null for a blank query; any result is a catalog entry |
| StructureCatalog.Lookup | src/components/StructureContent.tsx:195-216 | the same lookup over any catalog: null for a blank query, and any result is an entry |
| StructureCatalog.ExactMatchFirst | src/components/StructureContent.tsx:200-201 | an exact case-insensitive name match wins, and the first such entry is returned |
| StructureCatalog.PartialMatchFirst | src/components/StructureContent.tsx:204-206 | with no exact match, the first entry whose name contains the query is returned |
| StructureCatalog.FallsThroughToScan | src/components/StructureContent.tsx:199-215 | with no name containing the query, the lookup is decided by the fuzzy scan |
| StructureCatalog.FuzzyFallback | src/components/StructureContent.tsx:208-215 | the result is the top-scoring entry above 0.3, the earliest on a tie; it is null iff none scores above 0.3 |
| StructureCatalog.MinOf | src/components/StructureContent.tsx:231 | Math.min of the runs: an element no larger than any other |
| StructureCatalog.MaxOf | src/components/StructureContent.tsx:231 | Math.max of the runs: an element no smaller than any other |
| StructureCatalog.CostRange | src/components/StructureContent.tsx:228-232 | (min, max) of the digit runs, so low ≤ high; (0, 0) when the text has no digits |
| StructureCatalog.FilterStructures | src/components/StructureContent.tsx:315-348 | an entry is kept iff it passes every filter test, with as many copies as the input holds; the result is a subsequence of the input |
| StructureCatalog.FilteredStructures | src/components/StructureContent.tsx:314-349 | the kept catalog entries, in catalog order |
| StructureCatalog.Without | src/components/StructureContent.tsx:354-355 | drops every entry with the key and keeps every copy of every other entry, in order |
| StructureCatalog.Toggle | src/components/StructureContent.tsx:351-365 | the key is present afterwards iff it was absent before; other entries are unaffected; removal drops every entry with the key and keeps every copy of the others in order; an absent entry is appended |
| StructureCatalog.ToggleTwiceRestores | src/components/StructureContent.tsx:351-365 | toggling an absent entry twice gives back the original list |
| StructureCatalog.ToggleFavorite | src/components/StructureContent.tsx:351-357 | the name is a favourite afterwards iff it was not before; other favourites are unaffected; removal keeps every copy of the other names, even when a reloaded list repeats one, in order; a new name is appended |
| StructureCatalog.ToggleComparison | src/components/StructureContent.tsx:359-365 | a structure of that name is selected afterwards iff none was before; other structures are unaffected; removal keeps every copy of the others in order; a new structure is appended |
| StructureCatalog.ToggleLevel | src/components/StructureContent.tsx:582-587 | the level is selected afterwards iff it was not before; other levels and filters are unchanged |
| StructureCatalog.DisplayDimensions | src/components/StructureContent.tsx:394-399 | the handed-over dimensions (and volume) are shown only when the found entry's name equals the query; otherwise the typical dimensions, or a dash |
| Finance.NpvAtZeroIsSum | src/lib/finance.ts:1-3 | at rate 0 the NPV is the plain sum of the flows (0 for none) |
| Finance.NpvAtMostFirst | src/lib/finance.ts:1-3 | with every later flow non-positive, the NPV is at most the first flow |
| Finance.Bisect | src/lib/finance.ts:6-14 | a returned guess lies strictly inside the bracket and has an NPV within 1e-6 of 0 |
| Finance.Irr | src/lib/finance.ts:5-15 | a returned rate lies in (−0.9, 1.0) and has an NPV within 1e-6 of 0 |
| Finance.HalvedWidth | src/lib/finance.ts:11-12 | each iteration halves the bracket width 1.9 / 2^k |
| Finance.CalculateIrr | src/lib/finance.ts:5-15 | the loop returns exactly the specified search: a guess within tolerance after at most 100 halvings, or null |
| Finance.SavingsFlows | src/lib/finance.ts:19 | projectLife + 1 flows: minus the capital, then the yearly net saving repeated |
| Finance.CalculateFinancials | src/lib/finance.ts:17-28 | annual savings = price × size × 365; NPV at discountRate/100 and IRR over the same flows |
| RainfallLib.CalculateRainfall | src/lib/rainfall.ts:1-6 | the total is always 1200 mm; effective harvest = 1200 × area × coefficient / 1000; reliability ≤ 1 |
| RainfallLib.LocationIgnored | src/lib/rainfall.ts:1-6 | the location plays no part in the result |
| RainfallLib.ReliabilityIsCoverage | src/lib/rainfall.ts:4-5 | reliability is min(1, harvest / yearly demand) |
| RainfallLib.CalculateStorage | src/lib/rainfall.ts:8-12 | the optimal size is 0.6 × the harvest, and the reliability is passed through |
| RainfallLib.CalculateCosts | src/lib/rainfall.ts:13-24 | the total less capital is maintenance × projectLife; the inputs are echoed |
| RainfallLib.CapitalFromRoof | src/lib/rainfall.ts:1-24 | chained together, capital = 0.72 × area × coefficient × storage cost |
| RainfallArchive.BucketsSumToTotal | src/features/index.ts:50-67 | every day lands in exactly one bucket, so the twelve unrounded buckets add up to the annual total |
| RainfallArchive.Failure | src/features/index.ts:80-85 | an error result carries a non-empty message (default "Failed to fetch rainfall data"), loading false and no figures |
| RainfallArchive.Aggregate | src/features/index.ts:47-85 | no error iff the answer arrived and every day has a month; then the total and the twelve buckets, labelled Jan..Dec, are rounded sums |
| RainfallArchive.FetchAnnualRainfall | src/features/index.ts:47-85 | the in-place bucket and rounding loops compute exactly the aggregate |
| ChatServer.RoleName | jalRakshak-bot/app.py:54 | "User" iff the role is "user"; "Assistant" for any other role or none |
| ChatServer.Clip | jalRakshak-bot/app.py:55-58 | text over 200 characters becomes its first 200 plus "..."; shorter text is unchanged |
| ChatServer.LastWindow | jalRakshak-bot/app.py:53 | the last six messages in order, or all of them when there are fewer |
| ChatServer.FormatHistory | jalRakshak-bot/app.py:47-61 | "" for no history; the transcript neither starts nor ends with whitespace |
| ChatServer.FormatConversationHistory | jalRakshak-bot/app.py:47-61 | the accumulator loop produces exactly the specified transcript |
| ChatServer.OnlyLastSixCount | jalRakshak-bot/app.py:53 | messages before the last six never affect the transcript |
| ChatServer.TranscriptOpensWithRole | jalRakshak-bot/app.py:53-61 | a non-empty history's transcript starts with the oldest windowed message's role and a colon |
| ChatServer.Chat | jalRakshak-bot/app.py:77-101 | an is_end request gets the fixed farewell with no conversation id and no generation; otherwise generate receives the query and the transcript |
| RagGenerator.FormatDocs | jalRakshak-bot/main.py:17-24 | the fixed no-knowledge text for none or an empty list |
| RagGenerator.OneDoc | jalRakshak-bot/main.py:22 | one passage gives one bullet, "- " and its text |
| RagGenerator.FormatDocsSnoc | jalRakshak-bot/main.py:22 | a further passage adds a newline and its bullet at the end, so the order is kept |
| RagGenerator.ConversationArgument | jalRakshak-bot/main.py:113 | an empty conversation becomes the placeholder; otherwise its prefix of at most 1000 characters |
| RagGenerator.Generate | jalRakshak-bot/main.py:39-115 | isEnd gives the farewell and nothing else; otherwise the prompt is the template filled with the context cut to 2000, the conversation argument and the query |
| RagGenerator.PromptBounded | jalRakshak-bot/main.py:108-115 | the prompt is at most the template plus 2000 + 1000 characters plus the query |
| RagGenerator.PromptCarriesContextAndQuery | jalRakshak-bot/main.py:89-115 | the prompt holds the cut context right after the template head, and contains the query |
| Text.TrimEmptyIffBlank | jalRakshak-bot/app.py:61 | a string strips to nothing iff it is all whitespace |
| Text.NatTextRoundTrip | src/app/analysis/page.tsx:213 | reading back the decimal text of a whole number gives the number |
| Text.NoDigitsNoRuns | src/components/StructureContent.tsx:230 | a text has no digit runs iff it has no digits |

## Left out

- Network and I/O are not modelled:
  - the archive, geocoding and alert requests;
  - the language-model, embedding and vector-store calls;
  - `fetchRelatedLinks`, `localStorage`, router/URL updates, export, share and clipboard.
- For the archive, the parsed answer is a parameter. Each date comes already turned into its month index, and an unparseable date is `None`.
- For the generator, the retrieved passages are a parameter.
- `run_generate_with_timeout`, the thread pool, the timeout and apology replies, logging, and `context-builder.py` are concurrency and foreign calls. They are not modelled.
- `src/components/Chatbot.tsx` is fetch and `localStorage` glue. It is not part of this model.
- The rest of the repository is not modelled: navigation, sign-in and UI components, all JSX rendering, `toLocaleString`, and the catalog's picture links and notes, which no logic reads.
- Floating point is not reproduced. Arithmetic is exact over `real`, so float artefacts are not modelled: NaN, Infinity, the two-decimal display rounding, and the exact behaviour at the 0.3 score threshold.
- `RainfallEstimator.RunoffCoefficient`: the lookup in a plain object also hits inherited keys such as "constructor"; only the four table keys and the 0.85 fallback are modelled.
- `Math.sqrt(roofArea)` in the pipe length is given as a parameter `roofRoot` with `roofRoot ≥ 0` and `roofRoot² = roofArea`. It cannot be computed over `real`.
- `Math.ceil(Math.cbrt(..))` and `Math.ceil(Math.sqrt(..))` are characterised by their whole-number results.
- The V8 message for an unreadable month bucket is a constant. The source gets it by reading a field of `undefined` when a date does not parse.
- `Finance.Npv` is undefined at rate −1, where the source divides by zero.
- `FinancialAnalyzer.Analysis`: the same applies to the page's NPV, so it requires a discount rate other than −100 %.
- `Finance.CalculateFinancials` takes `projectLife` as a whole number. `Array(n)` rejects anything else.
- `RainfallLib.CalculateRainfall` requires dwellers × daily consumption ≠ 0. The source divides by it, giving Infinity or NaN.
- `CostEstimator.Estimate`: the `|| complexityMultipliers.Basic` fallback cannot be reached, because the storage stage only produces the three bands.
- `StructureCatalog.CostRange` is modelled as written. The digit runs split at commas, so "₹ 60,000 – ₹ 1,80,000 for 5–15 m³" reads as 60, 0, 1, 80, 0, 5, 15 and gives (0, 80). The intended rupee range is unclear, since the volumes in the same text are read too.
- `Text.ToLower` and `Text.Trim` cover ASCII letters and ASCII whitespace only. JavaScript and Python also fold and strip Unicode.
- `ChatServer.FormatHistory`: a `content` key that is present but `null` makes the service fail with a 500 response. The model treats every missing content as "".
- `SensitivityAnalyzer.CostSeriesDecreasing` proves strict decrease only for totals of at least 10. Below that, two rounded points can coincide. The cost stage never prices below INR 38600.
