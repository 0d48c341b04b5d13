# GHG emissions calculator: a verified model of its arithmetic and selection rules

This project models the computing core of a Streamlit application that estimates a
company's greenhouse-gas footprint under the GHG Protocol, then puts the figure in
context. The application has three stages.

- **Calculation.** It multiplies the quantities of each Scope 1, 2 and 3 source by a
  fixed emission factor. It adds the products into per-scope subtotals and a grand
  total, and lists a labelled breakdown of the non-zero terms.
- **Planning.** It derives reduction targets: a geometric trajectory in the
  data-processing helpers, and a separate linear trajectory on the targets page.
  It also sorts the scopes by the reduction they need and compares the 2030 target
  with industry benchmarks.
- **Context.** It ranks the company's intensity within its industry and notes where
  its scope mix departs from the industry's. It finds the country whose national
  total is closest, and recommends reduction strategies for the largest scope. It
  also checks external URLs before embedding them and builds a copyable iframe
  snippet.

Each source file is one Dafny module:

| module | file | source |
|---|---|---|
| `Common` | common.dfy | Python dictionaries as ordered `(key, value)` lists, `dict.get` as `Lookup`, and an `Option` type |
| `Constants` | constants.dfy | utils/constants.py: factor, benchmark, scope-share, framework and credit-price tables |
| `Calculations` | calculations.dfy | utils/calculations.py: `calculate_emissions` |
| `DataProcessing` | data_processing.dfy | utils/data_processing.py |
| `ReductionTargets` | reduction_targets.dfy | the rules in pages/2_Reduction_Targets.py |
| `GlobalComparison` | global_comparison.dfy | the rules in pages/4_Global_Comparison.py |
| `ReductionStrategies` | reduction_strategies.dfy | the rules in pages/5_Reduction_Strategies.py |
| `Embed` | embed.dfy | utils/embed.py: `is_url_safe` and `get_embed_code` |

Some source code updates state step by step, and the model keeps that form:

- **`calculate_emissions`.** It is a run of `if key in data:` blocks that add to a
  running subtotal and insert into a breakdown dictionary. The model keeps it as
  methods that replay the blocks one by one. The methods are proved to build
  exactly the breakdown that a rule table (`Checks`) specifies.
- **Loops that append to a list.** This covers `validate_input_data`,
  `calculate_targets`, `generate_sample_strategies`, the linear trajectory and the
  closest-country search. Each becomes a method with a loop and invariants, tied to
  a specification function.
- **`priority_scopes.sort`.** This is an in-place sort, modelled on an array. It is
  proved to produce a stable insertion sort.

The rest of the source is pure and is modelled as functions and lemmas.

Dictionaries keep insertion order, as Python's do. Quantities are `real`.

## Model

| member | source | states |
|---|---|---|
| Common.LookupFound | utils/data_processing.py:41-44 | `dict.get` finds a value exactly when the key is present, and the value found is stored under that key |
| Common.LookupEntry | utils/data_processing.py:41-42 | in a dictionary with distinct keys, looking up an entry's key returns that entry's value |
| Constants.ScopeSharesSumTo100 | utils/constants.py:75-96 | every scope-distribution row adds up to 100 percent |
| Constants.BenchmarksOrdered | utils/constants.py:51-72 | in every benchmark row, best performer < average intensity < worst performer |
| Constants.CreditPricesOrdered | utils/constants.py:137-143 | every carbon-credit type has min price ≤ average price ≤ max price |
| Constants.ReductionTargetsConsistent | utils/constants.py:99-115 | each framework's annual cut is a tenth of its 2030 cut; a larger 2030 cut means an earlier net-zero year |
| Constants.ElectricityTableShape | utils/constants.py:17-27 | nine distinct grid regions, all with positive factors, with North America at 0.000429 |
| Constants.IndustryTablesAgree | utils/constants.py:51-96 | the benchmark and scope-distribution tables list the same 20 industries in the same order, "Other" included |
| Calculations.Accumulate | utils/calculations.py:81-84 | one `if key in data` block adds its term to the subtotal and its labelled entry to the breakdown, keeping the subtotal equal to the breakdown's sum |
| Calculations.ComputeScope1 | utils/calculations.py:76-146 | the Scope 1 blocks build exactly the Scope 1 rule table's terms, and the subtotal is their sum |
| Calculations.ComputeScope2 | utils/calculations.py:148-184 | electricity (location-based or market-based), then steam, cooling and heating, build exactly the Scope 2 terms; the subtotal is their sum |
| Calculations.ComputeScope3 | utils/calculations.py:186-269 | the fifteen Scope 3 category blocks build exactly the Scope 3 terms; the subtotal is their sum |
| Calculations.CalculateEmissions | utils/calculations.py:54-282 | each scope total is the sum of its terms; `total` is the sum of the three scope totals; each breakdown keeps the positive terms |
| Calculations.Positive | utils/calculations.py:277-280 | the breakdown comprehension keeps exactly the entries whose value is above zero |
| Calculations.PositiveConcat | utils/calculations.py:277-280 | filtering keeps the entries in breakdown order |
| Calculations.PositiveSum | utils/calculations.py:277-280 | when no term is negative, dropping the non-positive ones leaves the sum unchanged |
| Calculations.SumConcat | utils/calculations.py:272-275 | a subtotal accumulated over two runs of blocks is the sum of the two partial subtotals |
| Calculations.CaptionEntry | utils/calculations.py:81-84 | a block's label is in the breakdown exactly when its keys are present, and then it carries that block's contribution |
| Calculations.Scope1Entry | utils/calculations.py:81-146 | a Scope 1 label appears exactly when its key is present, carrying quantity × factor |
| Calculations.Scope2Entry | utils/calculations.py:171-184 | a steam, cooling or heating label appears exactly when its key is present, carrying quantity × factor |
| Calculations.Scope3Entry | utils/calculations.py:191-269 | a Scope 3 label appears exactly when its key is present, carrying quantity × factor |
| Calculations.DirectEmissionsPassThrough | utils/calculations.py:138-146 | process emissions and other direct emissions are added unmultiplied |
| Calculations.UseOfSoldProducts | utils/calculations.py:242-249 | use of sold products counts only when both the unit count and the lifetime are present, is units × 0.23 × lifetime, and doubles when the lifetime doubles |
| Calculations.TermsNonNegative | utils/calculations.py:81-269 | with non-negative quantities and factors, every term is non-negative |
| Calculations.Scope1CaptionsDistinct | utils/calculations.py:81-146 | no two Scope 1 blocks write the same label |
| Calculations.Scope1FactorsNonNegative | utils/calculations.py:81-146 | every Scope 1 factor is non-negative |
| Calculations.Scope2CaptionsDistinct | utils/calculations.py:169-184 | no two Scope 2 blocks write the same label, and none reuses "Purchased Electricity" |
| Calculations.Scope2FactorsNonNegative | utils/calculations.py:171-184 | every steam, cooling and heating factor is non-negative |
| Calculations.Scope3CaptionsDistinct | utils/calculations.py:191-269 | no two Scope 3 blocks write the same label |
| Calculations.Scope3FactorsNonNegative | utils/calculations.py:191-269 | every Scope 3 factor is non-negative |
| Calculations.FactorNamesDistinct | utils/calculations.py:6-52 | no two rows of the factor table share a name |
| Calculations.FactorOfEntry | utils/calculations.py:6-52 | a block whose name and factor are a row of the table multiplies by `EMISSION_FACTORS[name]` |
| Calculations.Scope1FactorsFromTable | utils/calculations.py:8-136 | every Scope 1 block multiplies by `EMISSION_FACTORS` of its own key |
| Calculations.Scope2FactorsFromTable | utils/calculations.py:32-182 | the steam, cooling and heating blocks multiply by `EMISSION_FACTORS` of their factor name |
| Calculations.Scope3FactorsFromTable | utils/calculations.py:37-269 | every Scope 3 block multiplies by `EMISSION_FACTORS` of its factor name, the use-phase block by that of its own key |
| Calculations.FactorTablesIdentical | utils/calculations.py:6-52 | the factor table in calculations.py equals the one in constants.py entry for entry |
| Calculations.RegionFactorOfEntry | utils/calculations.py:155-158 | a grid region listed in the table gets its own factor |
| Calculations.RegionFactorOfUnknown | utils/calculations.py:157 | an unlisted grid region silently gets North America's 0.000429 |
| Calculations.RegionFactorPositive | utils/calculations.py:157 | every region, listed or not, gets a positive factor |
| Calculations.LocationBasedKnownRegion | utils/calculations.py:155-158 | location-based electricity with a listed region is kWh × that region's factor |
| Calculations.LocationBasedUnknownRegion | utils/calculations.py:155-158 | location-based electricity with an unlisted region is kWh × 0.000429 |
| Calculations.LocationBasedIgnoresRenewables | utils/calculations.py:155-158 | the location-based figure does not depend on the renewable settings |
| Calculations.MarketBasedElectricity | utils/calculations.py:159-166 | every other case charges kWh × (1 − pct/100) × 0.000429; pct counts only with a renewable PPA; 100% renewable gives 0 |
| Calculations.ElectricityEmissions | utils/calculations.py:152-169 | with non-negative kWh and a renewable share of at most 100%, electricity emissions are non-negative |
| Calculations.Scope1BreakdownAddsUp | utils/calculations.py:272-280 | with non-negative quantities, the Scope 1 breakdown adds up to the Scope 1 total |
| Calculations.Scope2BreakdownAddsUp | utils/calculations.py:272-280 | with non-negative quantities and a renewable share of at most 100%, the Scope 2 breakdown adds up to the Scope 2 total |
| Calculations.Scope3BreakdownAddsUp | utils/calculations.py:272-280 | with non-negative quantities, the Scope 3 breakdown adds up to the Scope 3 total |
| Calculations.EmptyInputs | utils/calculations.py:66-74 | empty Scope 2 and Scope 3 dictionaries contribute no terms |
| Calculations.NaturalGasExample | utils/calculations.py:81-84 | 1000 units of natural gas alone give a Scope 1 breakdown of `{"Natural Gas": 1.85}` and a subtotal of 1.85 |
| DataProcessing.ValidateInputData | utils/data_processing.py:5-29 | valid exactly when the dictionary is non-empty and holds no negative number; otherwise the "no data" or the negative-fields message |
| DataProcessing.NegativeFields | utils/data_processing.py:20-23 | never more keys than the dictionary has; empty exactly when no value is negative |
| DataProcessing.NegativeFieldsExact | utils/data_processing.py:20-23 | a key is listed exactly when its value is a negative number; the list is empty exactly when no value is negative |
| DataProcessing.OneNegativeField | utils/data_processing.py:25-27 | a single offending key is named on its own in the message |
| DataProcessing.GetIndustryData | utils/data_processing.py:31-44 | the industry's own benchmark row, or the "Other" row (80, 30, 200) for an unknown industry |
| DataProcessing.GetScopeDistribution | utils/data_processing.py:46-59 | the industry's own scope shares, or the "Other" row (25, 25, 50) for an unknown industry |
| DataProcessing.ScopeDistributionSumsTo100 | utils/data_processing.py:46-59 | whatever the industry, the shares returned add up to 100 |
| DataProcessing.CalculateTargets | utils/data_processing.py:61-102 | None exactly when the target year equals the base year (division by zero) or a 100% cut has a target year before the base year (0.0 raised to a negative power); otherwise the target is base × (1 − p/100); the trajectory has years + 1 points and point i is the base-year + i geometric step |
| DataProcessing.PlannedPoint | utils/data_processing.py:83-91 | point i is in year base-year + i, and its emissions plus its reduction share of the base make up the base |
| DataProcessing.PowInUnitInterval | utils/data_processing.py:83-85 | a reduction factor (1 − r)^i stays within [0, 1] |
| DataProcessing.PowNonIncreasing | utils/data_processing.py:83-85 | a later reduction factor is never larger |
| DataProcessing.TrajectoryGeometric | utils/data_processing.py:83-91 | year 0 is the base year with base emissions and no reduction; each next year multiplies the emissions by 1 − r |
| DataProcessing.TrajectoryNonIncreasing | utils/data_processing.py:83-91 | with 0 ≤ r ≤ 1 and base ≥ 0, emissions never rise and the reduction stays in [0, 100] |
| DataProcessing.TrajectoryReachesTarget | utils/data_processing.py:74-91 | when r is the root the source computes, the final point is the target emissions, with reduction p, in the target year |
| DataProcessing.FirstMaxIndex | utils/data_processing.py:123 | `max` picks the first entry holding the largest value |
| DataProcessing.DominantScope | utils/data_processing.py:116-123 | "scope1" when the total is not positive; otherwise a scope whose emissions are the largest |
| DataProcessing.GenerateSampleStrategies | utils/data_processing.py:104-163 | the dominant scope's strategies followed by the first two of every other scope, in table order; None when the dominant key is not a scope |
| DataProcessing.DominantScopeIsLargest | utils/data_processing.py:116-123 | with a positive total, the dominant scope holds the largest emissions and no earlier entry ties it; otherwise it is "scope1" |
| DataProcessing.OthersOfThreeScopes | utils/data_processing.py:158-161 | over the three-scope table, the tail is the first two strategies of each non-dominant scope |
| DataProcessing.SampleStrategiesLayout | utils/data_processing.py:155-161 | nine strategies whichever scope dominates: its five, then two from each other scope |
| DataProcessing.NormalizeCompanyData | utils/data_processing.py:165-183 | missing fields get their defaults; employees below 1 become exactly 1 and revenue below 0.1 exactly 0.1, larger values are kept; year defaults to 2023 |
| DataProcessing.NormalizeIdempotent | utils/data_processing.py:165-183 | normalising a normalised record changes nothing |
| DataProcessing.EmissionsIntensity | utils/data_processing.py:185-199 | emissions divided by revenue when revenue is positive, otherwise 0 |
| DataProcessing.PerEmployeeEmissions | utils/data_processing.py:201-215 | emissions divided by employees when employees is positive, otherwise 0 |
| DataProcessing.NormalizedRatiosDivide | utils/data_processing.py:175-215 | for a normalised record, neither ratio hits its zero guard |
| ReductionTargets.FrameworkSettings | pages/2_Reduction_Targets.py:44-63 | the custom sliders, or a preset whose annual cut is a tenth of its 2030 cut and whose net-zero year lies in 2050-2070 |
| ReductionTargets.PresetsMatchFrameworkTable | pages/2_Reduction_Targets.py:44-55 | the three presets are (42, 4.2, 2050), (35, 3.5, 2060) and (25, 2.5, 2070), equal to the framework table's rows |
| ReductionTargets.CustomFramework | pages/2_Reduction_Targets.py:56-63 | any other choice uses the custom slider values |
| ReductionTargets.TargetsFor | pages/2_Reduction_Targets.py:66-70 | the 2030 target plus the 2030 cut is the base; the annual amount is base × annual/100 |
| ReductionTargets.TargetShrinksWithReduction | pages/2_Reduction_Targets.py:66-67 | a deeper 2030 cut never gives a higher 2030 target |
| ReductionTargets.Range | pages/2_Reduction_Targets.py:97 | `range(lo, hi)` has hi − lo consecutive years |
| ReductionTargets.LinearTrajectory | pages/2_Reduction_Targets.py:96-112 | one value per year from the current year through 2050, each the linear rule's value for that year |
| ReductionTargets.LinearEmissions | pages/2_Reduction_Targets.py:101-112 | the base in the current year, 0 from the net-zero year on, never negative for a non-negative base |
| ReductionTargets.LinearEmissionsBounds | pages/2_Reduction_Targets.py:101-112 | the first value is the base; from the net-zero year on it is 0; every value lies in [0, base] |
| ReductionTargets.CutGrowsWithYears | pages/2_Reduction_Targets.py:107-108 | the cut is non-negative and grows with the years passed |
| ReductionTargets.LinearEmissionsNonIncreasing | pages/2_Reduction_Targets.py:101-112 | with non-negative base and rate, the linear trajectory never rises |
| ReductionTargets.ScopeTarget | pages/2_Reduction_Targets.py:184-202 | a scope's target is its emissions minus emissions × pct/100 |
| ReductionTargets.SortPriorities | pages/2_Reduction_Targets.py:237-246 | the in-place sort leaves the array equal to the stable descending sort of its old contents |
| ReductionTargets.SortByReduction | pages/2_Reduction_Targets.py:246 | a permutation of the priorities with the largest reduction first |
| ReductionTargets.SortedPermutation | pages/2_Reduction_Targets.py:246 | the sort keeps the length and keeps entries with equal reductions in their original order |
| ReductionTargets.ShownPriorities | pages/2_Reduction_Targets.py:252-254 | never more lines than priorities |
| ReductionTargets.ShownPrioritiesContiguous | pages/2_Reduction_Targets.py:252-254 | on the sorted list, the shown lines are exactly the positive reductions, numbered consecutively from the first rank with no gap |
| ReductionTargets.ReductionBenchmarksShape | pages/2_Reduction_Targets.py:284-305 | best practice is the average plus 15 in every row, and the rows cover the 20 benchmark industries |
| ReductionTargets.AlignmentThresholds | pages/2_Reduction_Targets.py:340-345 | leadership when the cut is at least best practice, above average when at least the average, below average otherwise |
| ReductionTargets.BenchmarkAlignment | pages/2_Reduction_Targets.py:340-345 | a verdict only for a set industry that the benchmark table lists |
| ReductionTargets.AlignmentNeedsIndustry | pages/2_Reduction_Targets.py:308-309 | no verdict exactly when the industry is empty or not benchmarked |
| ReductionTargets.AlignmentMonotone | pages/2_Reduction_Targets.py:340-345 | a deeper cut never earns a worse verdict |
| GlobalComparison.Classify | pages/4_Global_Comparison.py:154-169 | Leading iff intensity ≤ best; Above Average iff best < intensity ≤ avg; Below Average iff avg < intensity ≤ (avg + worst)/2; Lagging otherwise |
| GlobalComparison.ClassifyMonotone | pages/4_Global_Comparison.py:154-169 | a higher intensity never earns a better class |
| GlobalComparison.AtMostAverageIsUpperClass | pages/4_Global_Comparison.py:154-161 | with best ≤ avg, the company is in one of the two upper classes exactly when it does not exceed the average |
| GlobalComparison.EveryClassReachable | pages/4_Global_Comparison.py:154-169 | for every industry in the table, each of the four classes is reached by some intensity |
| GlobalComparison.IndustryAssessment | pages/4_Global_Comparison.py:114-169 | a class exactly when the industry is set and benchmarked, computed from the intensity and that industry's row; the intensity is 0 without revenue |
| GlobalComparison.ScopePercent | pages/4_Global_Comparison.py:210-212 | a scope's share × total is scope × 100 |
| GlobalComparison.ScopeNote | pages/4_Global_Comparison.py:259-301 | no note iff the difference is within ±10 points; "higher" iff it is ≥ 10; "lower" iff it is ≤ −10 |
| GlobalComparison.ScopeNoteAntisymmetric | pages/4_Global_Comparison.py:267-271 | swapping company and industry swaps "higher" and "lower" |
| GlobalComparison.ScopeNotes | pages/4_Global_Comparison.py:259-301 | one note per scope, each from that scope's share and the industry's |
| GlobalComparison.NotesCannotAllAgree | pages/4_Global_Comparison.py:210-301 | when the shares come from the scopes' total and the industry's shares add up to 100, not all three notes say "higher", nor all three "lower" |
| GlobalComparison.GlobalBars | pages/4_Global_Comparison.py:309-315 | five fixed countries' per-capita figures, then the company's emissions per employee (0 without employees) |
| GlobalComparison.GlobalBarsFromTable | pages/4_Global_Comparison.py:80-96 | the fixed bars are what the per-capita table stores for those countries |
| GlobalComparison.Distance | pages/4_Global_Comparison.py:426 | `abs(a − b)` is non-negative and is a − b or b − a |
| GlobalComparison.ClosestCountry | pages/4_Global_Comparison.py:421-429 | None exactly for an empty table; otherwise the first entry at the smallest distance (strict `<` keeps the earlier of two ties) |
| GlobalComparison.FirstClosestUnique | pages/4_Global_Comparison.py:425-429 | the first closest entry is unique |
| GlobalComparison.ClosestCountryExamples | pages/4_Global_Comparison.py:413-429 | 1,000 tCO2e is closest to Barbados; 4e8 tCO2e is closest to Germany |
| GlobalComparison.Contextualize | pages/4_Global_Comparison.py:434-445 | thresholds 1e9, 1e6 and 1e3 pick a share of the United States, a small country, a number of households or a number of flights |
| GlobalComparison.ContextRoundTrip | pages/4_Global_Comparison.py:434-445 | each comparison converts back to the total: share × 5e9/100, households × 10 and flights × 2 all equal the total; the country is the closest one found |
| GlobalComparison.ContextSentence | pages/4_Global_Comparison.py:421-445 | with the non-empty table of totals, a sentence is always produced, built from the first closest country |
| GlobalComparison.PathwayEmissions | pages/4_Global_Comparison.py:451-471 | each pathway value is 51e9 × its multiplier |
| GlobalComparison.PathwaysStartTogether | pages/4_Global_Comparison.py:451-471 | both pathways have seven values and start at today's emissions |
| GlobalComparison.Pathway15CShape | pages/4_Global_Comparison.py:453-461 | the 1.5°C pathway never rises and reaches 0 in 2050 |
| GlobalComparison.Pathway2CShape | pages/4_Global_Comparison.py:463-471 | the 2°C pathway never rises and ends at a tenth of today's emissions |
| GlobalComparison.PathwaysOrdered | pages/4_Global_Comparison.py:451-471 | the 1.5°C pathway is at or below the 2°C one in every year |
| GlobalComparison.ScaledNonIncreasing | pages/4_Global_Comparison.py:451-471 | scaling a non-increasing series of multipliers keeps it non-increasing |
| ReductionStrategies.DominantScopeAsWritten | pages/5_Reduction_Strategies.py:56-61 | Scope 1 iff s1 > max(s2, s3); Scope 2 iff not Scope 1 and s2 > max(s1, s3); Scope 3 otherwise |
| ReductionStrategies.DominantTieNamesSmallest | pages/5_Reduction_Strategies.py:56-63 | for (100, 100, 10) the rule as written names Scope 3, whose emissions are below the largest |
| ReductionStrategies.DominantScope | pages/5_Reduction_Strategies.py:56-63 | the corrected rule names one of the three scopes |
| ReductionStrategies.DominantScopeIsLargest | pages/5_Reduction_Strategies.py:56-63 | the corrected dominant scope holds the largest emissions, the figure printed next to it |
| ReductionStrategies.DominantRulesAgree | pages/5_Reduction_Strategies.py:56-61 | the two rules agree except when Scopes 1 and 2 tie above Scope 3 |
| ReductionStrategies.FilterConcat | pages/5_Reduction_Strategies.py:246 | a comprehension over a concatenation filters each part, keeping the order |
| ReductionStrategies.DominantStrategies | pages/5_Reduction_Strategies.py:246 | exactly the table's strategies for the dominant scope, in table order |
| ReductionStrategies.IndustryStrategies | pages/5_Reduction_Strategies.py:249-254 | with a specific industry, exactly the strategies for "All" or for that industry; otherwise the whole table |
| ReductionStrategies.Top | pages/5_Reduction_Strategies.py:257 | the first min(5, n) dominant strategies |
| ReductionStrategies.OtherRelevant | pages/5_Reduction_Strategies.py:258 | the industry strategies not in the top list |
| ReductionStrategies.RecommendFor | pages/5_Reduction_Strategies.py:246-258 | the top list is the first min(5, n) strategies of the dominant scope in table order; the others are the industry strategies not in it, in table order |
| ReductionStrategies.RecommendAsWritten | pages/5_Reduction_Strategies.py:56-258 | the page as written: the dominant scope of lines 56-61, its top strategies and the other industry strategies |
| ReductionStrategies.Recommend | pages/5_Reduction_Strategies.py:56-258 | with the corrected rule: the dominant scope holds the largest emissions, the top list is its first min(5, n) strategies in table order, the others are the remaining industry strategies |
| ReductionStrategies.TieRecommendations | pages/5_Reduction_Strategies.py:56-257 | for (100, 100, 10) the page as written lists the first five Scope 3 strategies; the corrected rule lists the five Scope 1 strategies |
| ReductionStrategies.RecommendationCoversIndustry | pages/5_Reduction_Strategies.py:257-258 | whatever the dominant scope, every industry strategy appears exactly once: in the top list or among the others |
| ReductionStrategies.GroupScopes | pages/5_Reduction_Strategies.py:67-243 | the table lists five Scope 1, then five Scope 2, then seven Scope 3 strategies |
| ReductionStrategies.GroupedFilter | pages/5_Reduction_Strategies.py:246 | filtering three single-scope groups for a scope returns that scope's group |
| ReductionStrategies.DominantStrategiesAreGroup | pages/5_Reduction_Strategies.py:67-246 | the dominant strategies are exactly that scope's group of the table |
| ReductionStrategies.TopKeepsScope1And2 | pages/5_Reduction_Strategies.py:67-257 | a Scope 1 or Scope 2 company sees all five of its strategies in the top list |
| ReductionStrategies.TopCutsScope3 | pages/5_Reduction_Strategies.py:67-257 | the Scope 3 list has seven entries, so "Remote work policy" and "Business travel reduction" never reach the top list |
| ReductionStrategies.Contains | pages/5_Reduction_Strategies.py:297 | Python's `part in text` holds exactly when part occurs in text at some position |
| ReductionStrategies.MissingFirstChar | pages/5_Reduction_Strategies.py:297 | a part whose first character is not in the text does not occur in it |
| ReductionStrategies.AnyLabelIn | pages/5_Reduction_Strategies.py:297 | true exactly when some selected label occurs in the implementation time |
| ReductionStrategies.Explore | pages/5_Reduction_Strategies.py:294-298 | the explorer keeps exactly the industry strategies whose scope is selected and whose implementation time contains a selected label |
| ReductionStrategies.MediumMatchesNeighbours | pages/5_Reduction_Strategies.py:286-298 | "Medium" also keeps "Short-Medium" and "Medium-Long"; "Long" does not keep "Short-Medium" |
| ReductionStrategies.FirstMatch | pages/5_Reduction_Strategies.py:322 | `next(..., None)`: None exactly when nothing matches, otherwise the first matching element |
| ReductionStrategies.FirstMatchAtUnique | pages/5_Reduction_Strategies.py:322 | only one position is the first match |
| ReductionStrategies.StrategyDetail | pages/5_Reduction_Strategies.py:322 | a listed strategy with the selected name, or None exactly when no listed strategy has it |
| ReductionStrategies.CaseStudyDetail | pages/5_Reduction_Strategies.py:579 | the case study of the selected company, or None exactly when no case study has it |
| ReductionStrategies.CaseStudyCompaniesDistinct | pages/5_Reduction_Strategies.py:545-570 | no company has two case studies |
| ReductionStrategies.EveryCaseStudyFound | pages/5_Reduction_Strategies.py:545-579 | each company offered in the selection box finds its own case study |
| Embed.IsUrlSafe | utils/embed.py:6-29 | only URLs starting with "http://" or "https://" pass |
| Embed.HostShape | utils/embed.py:23-25 | every accepted host is non-empty and uses only letters, digits, hyphens and dots |
| Embed.LabelsChars | utils/embed.py:23 | a run of labels uses only letters, digits, hyphens and dots |
| Embed.RefusesBadFirstChar | utils/embed.py:21-29 | a URL whose first character after the scheme can start neither host, port, path nor final newline is refused |
| Embed.RefusesWhitespace | utils/embed.py:21-29 | a whitespace character after the scheme (Python's full `\s` set) makes the URL refused, unless it is a final newline |
| Embed.RefusesSeparatorInPath | utils/embed.py:27 | "http://example.org/a\x1cb" is refused: U+001C is whitespace to `\S` |
| Embed.Compose | utils/embed.py:22-27 | a host, a port and a tail written one after the other match the pattern |
| Embed.AcceptsOutOfRangeQuad | utils/embed.py:25 | "http://999.999.999.999" is accepted: the groups are not range-checked |
| Embed.AcceptsDomainPortPath | utils/embed.py:23-27 | "https://www.example.com:8080/a?b=1" is accepted |
| Embed.AcceptsLocalhostPort | utils/embed.py:24-27 | "http://LocalHost:8501" is accepted, in any letter case |
| Embed.AcceptsTrailingDot | utils/embed.py:23 | a domain ending in a dot, "http://example.org.", is accepted |
| Embed.AcceptsFinalNewline | utils/embed.py:27 | `$` also matches before a final newline, so "http://example.org/\n" is accepted |
| Embed.RefusesOtherSchemes | utils/embed.py:17-18 | "HTTP://example.org" and "ftp://example.org" are refused: the prefix test is case-sensitive and admits only http and https |
| Embed.RefusesUnderscoreHost | utils/embed.py:23 | "http://_example.org" is refused |
| Embed.HostLower | utils/embed.py:23-27 | a host is accepted exactly when its lower-case form is |
| Embed.MatchIgnoresCase | utils/embed.py:27 | the pattern's verdict on the text after the scheme does not depend on letter case |
| Embed.GetEmbedCode | utils/embed.py:88-100 | for a URL without double quotes, the src attribute of the snippet is the URL, for any width and height |
| Embed.DefaultEmbedCode | utils/embed.py:88-100 | with the defaults "100%" and "600px", a URL without double quotes is the snippet's src |
| Embed.SrcStopsAtQuote | utils/embed.py:100 | the src attribute of the default snippet ends at the URL's first double quote |
| Embed.QuoteInPathLeavesSrc | utils/embed.py:21-29 | a URL with a double quote in its path passes the check, yet its snippet's src stops at the quote |

## Left out

- Streamlit widgets, session state, Plotly charts, ReportLab reports and text formatting (`:.2f`, `:,.0f`) are not modelled. The page rules take the widget values as parameters.
- Floating point is not modelled: every quantity is a mathematical `real`, with no IEEE rounding.
- DataProcessing.CalculateTargets: the annual rate `1 − (1 − p/100) ** (1/years)` (utils/data_processing.py:74) is the parameter `rate`, because `real` has no n-th roots. TrajectoryReachesTarget assumes `(1 − rate)^years = 1 − p/100`. The complex result Python gives for p > 100 is not modelled.
- DataProcessing.CalculateTargets: `base_year` is an explicit parameter; its default of 2023 (utils/data_processing.py:61) is not modelled as a default.
- Exceptions are modelled as None results. CalculateTargets returns None where the source raises ZeroDivisionError: `1/years` with equal years (utils/data_processing.py:75), and `0.0 ** (1/years)` with a 100% cut and a negative `years`. GenerateSampleStrategies returns None where `basic_strategies[dominant_scope]` raises KeyError (utils/data_processing.py:156).
- ReductionTargets.ShownPriorities: its own contract states only the length bound; what is shown, and its ranks, are stated by ShownPrioritiesContiguous.
- ReductionTargets.SortedPermutation: the permutation and the descending order are stated by SortByReduction, so this lemma states only the length and stability.
- ReductionStrategies.RecommendAsWritten models the page as it is. The rest of the model uses ReductionStrategies.Recommend, which has the corrected dominant-scope rule.
- generate_sample_strategies computes a per-scope percentage dictionary (utils/data_processing.py:117-120) and never uses it, so the model has no counterpart for it.
- The page 2 slider defaults (`int(reduction_by_2030 * 1.2)` and the others, pages/2_Reduction_Targets.py:177-201) are not modelled: the per-scope percentages are parameters.
- Page 4 keeps its own copies of the benchmark and scope-distribution tables (pages/4_Global_Comparison.py:32-77). They are equal entry for entry to those in utils/constants.py, so the model uses the constants tables.
- COUNTRY_EMISSIONS and INDUSTRY_RECOMMENDATIONS in utils/constants.py are not modelled: no modelled code reads them.
- Strategy descriptions and co-benefits (pages/5_Reduction_Strategies.py:67-243) are display text and are dropped from the strategy records.
- Unguarded divisions by a zero total are preconditions: GlobalComparison.ScopePercent requires a non-zero total. The display-only percentages of pages/5_Reduction_Strategies.py:49-53 and 63 are not modelled.
- safe_embed, embed_with_fallback and embed_html_content are not modelled: they only call Streamlit components and catch their exceptions. create_embed_library is static link data and is also not modelled.
- Embed.IsUrlSafe: `\s` and `\S` are modelled with Python's full set of whitespace characters, but Python's `\d` also accepts other Unicode decimal digits and IGNORECASE also folds a few non-ASCII letters (the Kelvin sign, the long s, the dotless i). Neither is modelled: digits and case are read over ASCII.
- app.py, pages/1_Emissions_Calculator.py, pages/3_Carbon_Credits.py and pages/6_External_Resources.py are not part of this model; they only collect input and display results. utils/reports.py and utils/visualization.py are not part of this model either; they only print reports and build figures.

## Findings

| source | as written | input that shows it | evidently intended | confidence | as-written member | corrected member |
|---|---|---|---|---|---|---|
| pages/5_Reduction_Strategies.py:56-61 | Scope 1 or Scope 2 wins only by strictly beating both other scopes; every other case, ties included, falls to Scope 3 | scope1 = 100, scope2 = 100, scope3 = 10 gives "Scope 3", the smallest source, which line 63 then prints as the largest | the named scope holds the largest emissions, as line 63's message and the strategy selection assume | not executed | ReductionStrategies.DominantScopeAsWritten, ReductionStrategies.DominantTieNamesSmallest, ReductionStrategies.RecommendAsWritten, ReductionStrategies.TieRecommendations | ReductionStrategies.DominantScope, ReductionStrategies.DominantScopeIsLargest, ReductionStrategies.Recommend |
