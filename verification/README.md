# AWS FinOps chatbot: a Dafny model of its analyses, insight engine, extractor and scheduler

The system is a FinOps chatbot for AWS accounts. The model covers its core:

- **Data processing** (`data_processor.py`):
  - cleaning raw cost records;
  - the trend summary;
  - z-score anomalies;
  - the closed-form forecast;
  - the per-service cost distribution;
  - summary statistics.
- **Advanced analytics** (`advanced_analytics.py`):
  - z-score and IQR anomaly detection;
  - cost elasticity;
  - a least-squares forecast with a confidence band;
  - cost-driver ranking;
  - ROI;
  - scenario comparison;
  - unit economics.
- **The rule engine** (`mistral_ai_engine.py`):
  - the insights derived from costs, instances and unused resources, merged and sorted by savings;
  - query answering: from the data, from the language model, or from a canned table;
  - the Markdown report.
- **The cost extractor** (`aws_cost_extractor.py`; `backend/aws_cost_extractor.py` is the same file). It flattens Cost Explorer and EC2 responses into flat records.
- **The scheduler** (`scheduler.py`):
  - the job registry kept beside APScheduler;
  - the bounded history of sync runs.
- **The demo chatbot** (`finops_chatbot_simple.py`): a class holding one list of insights, with sync, query, summary, clear and report.

## How the project is laid out

The modules follow the program's structure:

- `Common`: Option, sums, min and max.
- `Text`: lower-casing, substring search, string order, integer rendering.
- `Sorting`: Python's stable `sort(reverse=True)`.
- `Grouping`: pandas `groupby`, and dict-accumulation loops.
- `Stats`: variance, NumPy's percentile, the least-squares line.
- `CostData`: the cost record and its daily series.
- `DataProcessor`, `AdvancedAnalytics`.
- `Insights`: the insight record and the report lines.
- `InsightEngine`, `EngineAnswers`, `EngineReport`.
- `CostExtractor`, `Scheduler`, `SimpleChatbot`.

Modelling conventions:

- Pure computations are functions.
- Loops are methods with invariants, proved equal to those functions.
- Objects whose fields change (`TaskScheduler`, `DataSyncScheduler`, `FinOpsChatbot`) are classes.
- Costs are exact reals.
- Square roots and the normal quantile function are parameters.
- Dates are day numbers.
- A `try`/`except` that returns `{}` or `[]` becomes an `Option` or an empty result.
- The results of external calls are parameters:
  - boto3 responses;
  - whether an APScheduler call raised;
  - the language model's reply;
  - timestamps.

## Model

| member | source | states |
|---|---|---|
| Common.MinOf | advanced_analytics.py:344 | `min` of a non-empty list is one of its elements and bounds every element from below |
| Common.MaxOf | advanced_analytics.py:345 | `max` of a non-empty list is one of its elements and bounds every element from above |
| Text.Lower | mistral_ai_engine.py:398 | `str.lower` keeps the length and lower-cases every ASCII letter, position by position |
| Text.IntToString | scheduler.py:281 | an f-string renders an integer as a non-empty string with a leading minus exactly for negatives |
| Sorting.SortDescProperties | mistral_ai_engine.py:75-78 | `sort(key, reverse=True)` gives a permutation of its input whose keys never increase |
| Sorting.SortDescStable | mistral_ai_engine.py:75-78 | the sort is stable: elements with equal keys keep their input order |
| Sorting.SortDescHead | mistral_ai_engine.py:108-115 | the head of the sorted list is an element of largest key, and the first such in input order |
| Grouping.GroupByWellFormed | data_processor.py:202-207 | `groupby` yields one non-empty group per distinct key, and its keys are exactly the keys of the rows |
| Grouping.GroupByLookup | data_processor.py:202-207 | the group of a key holds exactly the rows carrying that key, in input order |
| Grouping.GroupByTotal | data_processor.py:202-207 | summing a column group by group gives the column's total |
| Grouping.GroupByCount | data_processor.py:202-207 | the groups together hold every row once |
| Grouping.GroupByAscending | data_processor.py:202-207 | under a strict total order on keys the groups come out in ascending key order, as pandas sorts them |
| Grouping.GroupByFirstAppearance | mistral_ai_engine.py:99-105 | with dict insertion order every key is listed once, in order of its first appearance among the rows |
| Grouping.GroupByNonEmpty | data_processor.py:202-207 | there are no groups exactly when there are no rows |
| CostData.Daily | data_processor.py:66 | the daily series is empty exactly when the table is |
| CostData.DailyShape | data_processor.py:66 | the days are strictly increasing, and they are exactly the dates that occur in the table |
| CostData.DailyTotalAt | data_processor.py:66 | each day's total is the column summed over that day's records |
| CostData.DailyDateOccurs | data_processor.py:66 | every day of the series is the date of some record |
| CostData.DailySum | data_processor.py:66 | the daily totals sum to the column's total |
| Stats.ConstantSeries | data_processor.py:111-112 | a constant series has that constant as mean and zero population and sample variance |
| Stats.SquaredZTest | data_processor.py:117 | for a positive deviation s, \|x - m\|/s > k holds exactly when (x - m)² > k²·s² |
| Stats.SortAscProperties | advanced_analytics.py:52-53 | the ascending sort behind a percentile is an ascending permutation |
| Stats.PercentileMonotone | advanced_analytics.py:52-53 | NumPy's linear-interpolation percentile is monotone in the percentage, so Q1 ≤ Q3 |
| Stats.PercentileConstant | advanced_analytics.py:52-53 | every percentile of a constant series is that constant |
| Stats.InterpolateBetween | advanced_analytics.py:52-53 | an interpolated percentile lies between the two order statistics it interpolates |
| Stats.DenominatorZeroIff | data_processor.py:161-164 | the least-squares denominator n·Σi² − (Σi)² vanishes exactly when there are fewer than two points |
| Stats.LineSum | data_processor.py:161-164 | points on a line a + b·i sum to n·a + b·Σi |
| Stats.LineCrossSum | data_processor.py:161-164 | points on a line satisfy Σ i·y = a·Σi + b·Σi² |
| Stats.ExactLineSlope | data_processor.py:161-164 | the closed-form slope recovers b from two or more points on a line a + b·i |
| Stats.ExactLineIntercept | advanced_analytics.py:175 | the intercept that goes with slope b recovers a for points on that line |
| Stats.InterceptCentroid | advanced_analytics.py:175 | the first normal equation: for any slope b its intercept a gives n·a + b·Σi = Σy |
| Stats.ResidualAt | advanced_analytics.py:179 | the i-th residual is y_i − (a + b·i) |
| DataProcessor.ProcessCostData | data_processor.py:20-47 | the empty table when no raw record has a cost key or none has a usage key (the scalar default has no `fillna`, and the handler returns an empty frame); otherwise one cleaned record per raw record, with date, service and region kept and a missing or non-numeric cost or usage becoming 0 |
| DataProcessor.TrendsDefined | data_processor.py:50-89 | the trend summary is `{}` exactly for an empty table or a negative rolling window |
| DataProcessor.TrendDirection | data_processor.py:72-76 | the trend is "increasing" iff the last day exceeds the first; the change is (last − first)/first·100, or 0 when the first day is 0; for a positive first day a positive change means increasing |
| DataProcessor.TrendBounds | data_processor.py:66-85 | min ≤ current ≤ max; the rolling average lies in [min, max]; it is defined exactly when 0 < window ≤ number of days |
| DataProcessor.TrendExample | data_processor.py:50-89 | costs 100, 90, 80 with window 7 give "decreasing", a change of −20 %, and no rolling average |
| DataProcessor.IdentifyAnomalies | data_processor.py:92-132 | the loop over days computes exactly the days whose sample z-score exceeds the threshold, with their z-score and deviation |
| DataProcessor.ZAnomaliesSound | data_processor.py:116-125 | every reported anomaly is the entry of some day whose z-score exceeds the threshold |
| DataProcessor.ZAnomaliesComplete | data_processor.py:116-125 | every day whose z-score exceeds the threshold is reported |
| DataProcessor.ZAnomaliesOrdered | data_processor.py:116-125 | anomalies are reported in strictly increasing date order |
| DataProcessor.ZAnomaliesNone | data_processor.py:116-125 | if no value can exceed the threshold, nothing is reported |
| DataProcessor.SampleZTest | data_processor.py:111-117 | a day is flagged iff the variance is non-zero and (x − mean)² > threshold²·variance |
| DataProcessor.NoZAnomalies | data_processor.py:111-125 | fewer than two days, or a constant series, give no anomalies |
| DataProcessor.ForecastValue | data_processor.py:170-177 | every forecast value is non-negative, and with a single day it is 0 |
| DataProcessor.ForecastCosts | data_processor.py:135-184 | `[]` for an empty table or a non-positive horizon; otherwise one entry per day ahead, dated after the last day, valued max(0, mean + slope·i) |
| DataProcessor.ForecastOnLine | data_processor.py:154-176 | on a series lying on a line of slope b, the forecast for day i is max(0, mean + b·i) |
| DataProcessor.MeanOnLine | data_processor.py:154 | the mean of points on a line a + b·i is the line's value at the middle index (n − 1)/2 |
| DataProcessor.AnalyzeServiceDistribution | data_processor.py:187-232 | the loop builds exactly the distribution table |
| DataProcessor.DistributionIsTable | data_processor.py:202-215 | the result is a permutation of the per-service rows, sorted by total cost, largest first |
| DataProcessor.DistributionRowFrom | data_processor.py:202-218 | every row is the share row of one service group |
| DataProcessor.DistributionDistinct | data_processor.py:202-207 | no service appears twice |
| DataProcessor.DistributionCoversServices | data_processor.py:202-207 | the services listed are exactly the services of the table |
| DataProcessor.DistributionPercentages | data_processor.py:208-212 | the group totals add up to the table total; with a positive total the percentages add up to 100, otherwise every percentage is 0 |
| DataProcessor.DistributionCounts | data_processor.py:202-207 | the usage counts add up to the number of records |
| DataProcessor.DistributionRow | data_processor.py:202-225 | a row's total is its service's cost sum, its count the number of that service's records (> 0), and its average the ratio of the two |
| DataProcessor.DateRange | data_processor.py:257-260 | start and end are dates of the table, and every date lies between them |
| DataProcessor.SummaryTotals | data_processor.py:249-256 | total cost is the cost column's sum, and also the sum of the daily series; total usage is the usage sum; every record is counted |
| DataProcessor.SummaryBounds | data_processor.py:249-260 | min ≤ average ≤ max; start ≤ end; the standard deviation is defined from two records on |
| AdvancedAnalytics.DetectCostAnomaliesAdvanced | advanced_analytics.py:21-89 | `[]` for an empty table; otherwise the loop computes exactly the anomalies of the chosen rule over the daily series |
| AdvancedAnalytics.AnomalyMembership | advanced_analytics.py:46-82 | an entry is reported iff it belongs to a day that the rule (z-score > 3, or outside the IQR fences) flags |
| AdvancedAnalytics.AnomalyIndex | advanced_analytics.py:76-82 | every reported entry names the day it comes from |
| AdvancedAnalytics.AnomaliesOrdered | advanced_analytics.py:75-82 | entries come in strictly increasing date order |
| AdvancedAnalytics.AnomalyFields | advanced_analytics.py:76-82 | each entry carries the method name; its severity is "high" iff its cost exceeds 1.5 × the mean daily cost |
| AdvancedAnalytics.AnomalyDay | advanced_analytics.py:41 | an entry's date occurs in the table, and its cost is that day's summed cost |
| AdvancedAnalytics.AnomaliesNone | advanced_analytics.py:76-82 | if the rule flags no day, nothing is reported |
| AdvancedAnalytics.ZScoreSquared | advanced_analytics.py:46-49 | the z-score test is \|x − mean\| > 3·σ with σ > 0, i.e. (x − mean)² > 9·variance with a non-zero variance |
| AdvancedAnalytics.ZTestNumbers | advanced_analytics.py:47-49 | for s = √v, s ≠ 0 and \|d/s\| > 3 hold exactly when v ≠ 0 and d² > 9·v |
| AdvancedAnalytics.IqrFences | advanced_analytics.py:51-57 | lower fence ≤ Q1 ≤ Q3 ≤ upper fence, and no value between Q1 and Q3 is an outlier |
| AdvancedAnalytics.ConstantNoAnomalies | advanced_analytics.py:41-82 | a constant daily series has no anomaly under either rule |
| AdvancedAnalytics.ElasticityDefined | advanced_analytics.py:106-138 | the result is `{}` exactly for an empty table, or when a named service has no rows; otherwise the service label is the name, or "all" |
| AdvancedAnalytics.ElasticityFewDays | advanced_analytics.py:123-130 | with fewer than two days there are no changes, and the elasticity is 0 |
| AdvancedAnalytics.DailyProportional | advanced_analytics.py:119-120 | if every record's cost is p × its usage, so is every daily total |
| AdvancedAnalytics.DayPriced | advanced_analytics.py:119-120 | the same, for one day |
| AdvancedAnalytics.SelectedProportional | advanced_analytics.py:110-113 | selecting one service keeps costs proportional to usage |
| AdvancedAnalytics.PctChangesScaled | advanced_analytics.py:123-124 | `pct_change().dropna()` is unchanged when a series is scaled by a non-zero factor |
| AdvancedAnalytics.PricedSplit | advanced_analytics.py:123-124 | a proportional series stays proportional without its last day, and its last change equals the usage's |
| AdvancedAnalytics.LastChangeScaled | advanced_analytics.py:123 | one percentage change is unchanged by a common non-zero factor |
| AdvancedAnalytics.FiniteChangesScaled | advanced_analytics.py:123-124 | scaling does not change whether any change is undefined (a division by a zero day) |
| AdvancedAnalytics.SeriesElasticityProportional | advanced_analytics.py:127-130 | for proportional series the elasticity is 1, or 0 when the usage changes average 0 or there are none |
| AdvancedAnalytics.ElasticityProportional | advanced_analytics.py:106-138 | when every cost is p × its usage (p ≠ 0), a defined elasticity is 1, or 0 when the usage changes average 0 or there are none |
| AdvancedAnalytics.PctChangesGrowing | advanced_analytics.py:123-124 | a positive, strictly increasing series has n − 1 changes, all positive and defined |
| AdvancedAnalytics.MeanPositive | advanced_analytics.py:128 | the mean of positive values is positive |
| AdvancedAnalytics.ElasticityGrowing | advanced_analytics.py:106-138 | proportional costs over a positive, growing usage series give elasticity exactly 1 |
| AdvancedAnalytics.RowsWithKeyEmpty | advanced_analytics.py:111-116 | the rows selected for a service are empty exactly when no record has that service |
| AdvancedAnalytics.ForecastWithConfidenceIntervals | advanced_analytics.py:145-211 | `[]` with fewer than two days or a non-positive horizon; otherwise the loop yields, for i = 1..days ahead, the interval computed at day n + i − 1 |
| AdvancedAnalytics.IntervalBand | advanced_analytics.py:189-204 | the margin is the same for every day; the lower bound is max(0, forecast − margin) ≥ 0; dates step by one; with a non-negative quantile and square roots the margin is non-negative, so upper ≥ forecast |
| AdvancedAnalytics.ResidualsLessLine | advanced_analytics.py:179 | the residuals of a line sum to the values' sum less the line's |
| AdvancedAnalytics.LineTotal | advanced_analytics.py:175-176 | the first n points of a line a + b·i sum to n·a + b·Σi |
| AdvancedAnalytics.LineThroughCentroid | advanced_analytics.py:175-176 | a line satisfying the first normal equation (n·a + b·Σi equals the values' total) has that total over the first n points |
| AdvancedAnalytics.ResidualSumZero | advanced_analytics.py:179 | residuals of a line whose total equals the values' total sum to 0 |
| AdvancedAnalytics.CentredResidualsSumZero | advanced_analytics.py:175-179 | whatever the slope, its centroid intercept leaves residuals that sum to 0 |
| AdvancedAnalytics.FitResidualsSumZero | advanced_analytics.py:175-180 | the residuals of the fitted line sum to 0 |
| AdvancedAnalytics.FittedOnLine | advanced_analytics.py:175-176 | for points on a line the fitted polynomial is that line, at every x |
| AdvancedAnalytics.FitResidualsOnLine | advanced_analytics.py:179-180 | for points on a line the residual deviation is 0 |
| AdvancedAnalytics.IntervalOnLine | advanced_analytics.py:189-196 | for points on a line the forecast extends the line, and the band collapses onto it (upper = forecast, lower = max(0, forecast)) |
| AdvancedAnalytics.PairOrder | advanced_analytics.py:233 | the (service, region) order pandas sorts group keys by is a strict total order |
| AdvancedAnalytics.UnitCost | advanced_analytics.py:391 | the cost per unit times the usage is the total when usage is positive, and 0 otherwise |
| AdvancedAnalytics.Head | advanced_analytics.py:248 | `head(n)` is a prefix of length min(n, len), or len + n for a negative n (0 at least) |
| AdvancedAnalytics.CostDriversAsWrittenEmpty | advanced_analytics.py:244-245 | as written, every call returns `[]`: the `if` on a Series raises, and the handler returns `[]` |
| AdvancedAnalytics.CostDriversDefect | advanced_analytics.py:244-245 | on one EC2 record of cost 100 and usage 50, the code as written returns `[]`, while the per-row rule returns the driver with total 100 and unit cost 2 |
| AdvancedAnalytics.CostDriversNonEmpty | advanced_analytics.py:228-263 | with the per-row rule, a non-empty table and a positive top_n give at least one driver |
| AdvancedAnalytics.CostDriversRanked | advanced_analytics.py:247-248 | drivers are sorted by total cost, largest first; their number is that of `head(top_n)` over the groups |
| AdvancedAnalytics.DriverFrom | advanced_analytics.py:247-260 | every driver is a row of the group table |
| AdvancedAnalytics.TableDistinct | advanced_analytics.py:233-236 | the group table has no repeated row |
| AdvancedAnalytics.RankedFromDistinctGroups | advanced_analytics.py:247-248 | the ranked drivers have no repeated row |
| AdvancedAnalytics.CostDriversDistinct | advanced_analytics.py:233-236 | no (service, region) pair appears twice |
| AdvancedAnalytics.DistinctPairs | advanced_analytics.py:233-248 | two positions of the ranking hold different (service, region) pairs |
| AdvancedAnalytics.TableRowKey | advanced_analytics.py:233-238 | each table row carries its group's (service, region) |
| AdvancedAnalytics.TableRowFigures | advanced_analytics.py:233-245 | each table row's totals, percentage of the grand total, unit cost and volatility come from that pair's own records |
| AdvancedAnalytics.DriverFigures | advanced_analytics.py:233-260 | each driver's total is its pair's cost sum; its percentage is of the grand total; its unit cost is total/usage; its volatility is the sample deviation, defined from two records on |
| AdvancedAnalytics.DriverCumulativeStep | advanced_analytics.py:243 | each cumulative percentage is the previous one plus the row's percentage, in group-key order |
| AdvancedAnalytics.PercentsAsTotal | advanced_analytics.py:242-243 | the percentages of a run of groups sum to that run's percentage total |
| AdvancedAnalytics.PercentsLinear | advanced_analytics.py:242 | the percentage total of a run of groups is the percentage of their summed cost |
| AdvancedAnalytics.CumulativeIsPercentTotal | advanced_analytics.py:243 | the cumulative percentage at row i is the percentage total of rows 0..i |
| AdvancedAnalytics.DriverCumulativeShare | advanced_analytics.py:242-243 | the cumulative percentage at row i is the share of the grand total held by rows 0..i |
| AdvancedAnalytics.DriverCumulativeComplete | advanced_analytics.py:241-243 | with a positive grand total the last cumulative percentage is 100 |
| AdvancedAnalytics.RoiMeaning | advanced_analytics.py:288-302 | total savings are monthly savings × months; net benefit is savings − cost; ROI·cost = net·100 (0 for a non-positive cost); payback·savings = cost, defined exactly for positive savings |
| AdvancedAnalytics.RoiPaysOff | advanced_analytics.py:289-293 | with positive savings and cost, ROI ≥ 0 exactly when the payback period fits in the analysis period |
| AdvancedAnalytics.RoiExample | advanced_analytics.py:270-306 | a cost of 500 against 200 a month over 12 months gives ROI 380 %, net 1900, and payback in 2.5 months |
| AdvancedAnalytics.FirstIndex | advanced_analytics.py:348-349 | `list.index` is the first position holding the value |
| AdvancedAnalytics.CompareCostScenarios | advanced_analytics.py:309-359 | the method computes exactly the comparison |
| AdvancedAnalytics.CollectScenarios | advanced_analytics.py:333-341 | the loop collects each scenario's cost (0 when missing) and its row |
| AdvancedAnalytics.ScenarioExtremes | advanced_analytics.py:322-352 | the result is `{}` exactly for no scenarios; otherwise best and worst are the first cheapest and first dearest scenarios |
| AdvancedAnalytics.CostExtremes | advanced_analytics.py:343-349 | the first minimum and first maximum positions bound every cost, and no earlier position ties them |
| AdvancedAnalytics.ScenarioSpread | advanced_analytics.py:343-352 | range = savings potential = max − min ≥ 0, and min ≤ average ≤ max |
| AdvancedAnalytics.ScenarioRows | advanced_analytics.py:334-341 | one row per scenario, named "Unknown" and costed 0 when those keys are missing |
| AdvancedAnalytics.ScenarioExample | advanced_analytics.py:309-359 | costs 1000, 700 and 500 give best "Aggressive", worst "Current", and range 500 |
| AdvancedAnalytics.CalculateUnitEconomics | advanced_analytics.py:362-410 | the loop over services computes exactly the unit economics |
| AdvancedAnalytics.EconomicsRowsSum | advanced_analytics.py:387-398 | the per-service totals and usages add up to the group totals |
| AdvancedAnalytics.UnitEconomicsTotals | advanced_analytics.py:380-405 | the per-service costs and usages add up to the overall totals, which are the column sums |
| AdvancedAnalytics.UnitEconomicsRow | advanced_analytics.py:387-398 | each service row holds that service's cost and usage sums and their unit cost |
| AdvancedAnalytics.UnitEconomicsServices | advanced_analytics.py:387 | the rows list exactly the table's services, in order of first appearance (`unique()`) |
| Insights.WithPriorityMembers | mistral_ai_engine.py:491-493 | the filtered list holds exactly the insights of that priority |
| Insights.FirstMatchIndex | mistral_ai_engine.py:470-475 | the first key of the canned table that the query contains, with no earlier key contained |
| Insights.FirstMatchAt | mistral_ai_engine.py:470-475 | the canned lookup answers with the first key's response, or the default |
| Insights.PrioritySplit | mistral_ai_engine.py:491-495 | total savings split into the high, medium, low and unranked insights' savings |
| Insights.HeaderSummary | mistral_ai_engine.py:495-498 | the report's summary lines show the total savings of all insights and their count |
| Insights.ReportHeaderEmpty | mistral_ai_engine.py:487-498 | the report header lists no insight title and no insight field |
| InsightEngine.TallyServiceCosts | mistral_ai_engine.py:99-105 | the dict-accumulation loop yields each service's total, in first-insertion order |
| InsightEngine.TalliedItems | mistral_ai_engine.py:99-105 | the dict the loop ends with lists the grouped services with their totals |
| InsightEngine.ServiceCostsTotal | mistral_ai_engine.py:99-105 | the service totals add up to the total cost |
| InsightEngine.ServiceCostsEntries | mistral_ai_engine.py:99-105 | the services listed are exactly those of the items, each with its own total, in order of first appearance |
| InsightEngine.AnalyzeCostPatterns | mistral_ai_engine.py:83-141 | the method computes exactly the cost-pattern insights |
| InsightEngine.CostPatternsTop | mistral_ai_engine.py:107-125 | the first insight names a service of maximal total, the first such in dict order, with savings of 15 % of its total |
| InsightEngine.CostPatternsShape | mistral_ai_engine.py:95-141 | no insight without items; otherwise one, plus a multi-region insight (10 % of the total) exactly when more than 3 regions occur |
| InsightEngine.AnalyzeResourceUtilization | mistral_ai_engine.py:143-188 | the counting loop computes exactly the utilization insight |
| InsightEngine.CountedUtilization | mistral_ai_engine.py:161-186 | the insight follows from the type counts the loop builds |
| InsightEngine.LargeMeansXlarge | mistral_ai_engine.py:172 | a type is large iff it contains "xlarge" (the other two sizes contain it) |
| InsightEngine.CountTypesPositive | mistral_ai_engine.py:161-175 | some large instance is counted iff some instance type is large |
| InsightEngine.ResourceUtilizationShape | mistral_ai_engine.py:156-188 | at most one insight, present iff some type contains "xlarge", with savings of 50 per large instance |
| InsightEngine.UnusedResourcesCount | mistral_ai_engine.py:203-250 | one insight per non-empty list, so at most three |
| InsightEngine.UnusedResourcesSavings | mistral_ai_engine.py:205-248 | the savings are 30 per stopped instance, 5 per volume and 3.65 per Elastic IP |
| InsightEngine.UnusedResourcesPriorities | mistral_ai_engine.py:205-248 | the stopped-instances insight is the only high one, and the Elastic-IP insight the only low one |
| InsightEngine.GenerateOptimizationInsights | mistral_ai_engine.py:46-81 | the method computes exactly the merged, sorted insights |
| InsightEngine.OptimizationInsightsOrder | mistral_ai_engine.py:63-81 | the result is a permutation of the three analyses' insights, sorted by savings (largest first), stable among equal savings, and at most six long |
| EngineAnswers.Take | mistral_ai_engine.py:404 | `s[:n]` is the first min(n, len) elements |
| EngineAnswers.DataDrivenTopic | mistral_ai_engine.py:398-449 | resource words win over cost words, which win over optimization words; a query with none gets the overview |
| EngineAnswers.ResourceAnswerShape | mistral_ai_engine.py:400-407 | with instances the answer counts them and shows the first three; without, it says none were found |
| EngineAnswers.CostAnswerShape | mistral_ai_engine.py:409-419 | no data exactly without costs; otherwise the total is the cost sum (and the sum of the per-service totals), with the first entry as top service unless it is empty |
| EngineAnswers.OptimizationAnswerShape | mistral_ai_engine.py:421-432 | the generic advice exactly when both lists are empty; otherwise the savings are those of the first optimization, or else of the first insight |
| EngineAnswers.GeneralAnswerShape | mistral_ai_engine.py:434-449 | "no data" exactly without instances and costs; otherwise the instance count and cost total are shown when present |
| EngineAnswers.SuggestedSavingsChoice | mistral_ai_engine.py:430 | `savings` wins unless missing or 0; then `potential_savings`, else 0 |
| EngineAnswers.Ec2IsAResourceQuestion | mistral_ai_engine.py:401-410 | any query whose lower-cased form contains "ec2" is answered as a resource question, whatever cost words it also contains |
| EngineAnswers.Ec2CostIsAResourceQuestion | mistral_ai_engine.py:401-410 | the query "EC2 cost" mentions the cost word "cost" and is still answered as a resource question |
| EngineAnswers.BuildContextEmpty | mistral_ai_engine.py:289-335 | the context is the no-data sentence exactly when all four lists are empty |
| EngineAnswers.BuildContextCount | mistral_ai_engine.py:299-333 | otherwise there is one block per non-empty list |
| EngineAnswers.BuildContextOrder | mistral_ai_engine.py:299-333 | blocks come in the order costs, instances, insights, optimizations |
| EngineAnswers.BuildContextLimits | mistral_ai_engine.py:305-331 | blocks show at most 5 costs, 5 instances, 3 insights and 3 optimizations |
| EngineAnswers.FallbackResponseChoice | mistral_ai_engine.py:451-475 | the fallback is the answer of the first key the lower-cased query contains, or the default |
| EngineAnswers.AnswerQueryRoute | mistral_ai_engine.py:252-287 | data-driven exactly with costs, instances or optimizations; otherwise the model sees at most three insights or the no-data sentence, and the canned answer stands in for a missing completion |
| EngineAnswers.OptimizationsOnlyOverview | mistral_ai_engine.py:269-278 | with only optimizations, a keyword-free query counts as having data, yet is told that no data is available |
| EngineReport.GenerateReport | mistral_ai_engine.py:477-517 | the line-by-line construction yields exactly the report |
| EngineReport.AppendSection | mistral_ai_engine.py:500-515 | a section is appended only when it has entries, as its heading followed by one entry per insight |
| EngineReport.EntryLines | mistral_ai_engine.py:503-515 | each entry shows its title once; only high-priority entries show the recommendation |
| EngineReport.ReportTitles | mistral_ai_engine.py:487-517 | the report lists the high-priority insights, then the medium ones, each in input order |
| EngineReport.ListedTitle | mistral_ai_engine.py:491-492 | every title of those two lists belongs to a high- or medium-priority insight |
| EngineReport.ReportListsHighAndMedium | mistral_ai_engine.py:500-515 | every entry of the report is that of a high- or medium-priority insight |
| EngineReport.ReportRecommendations | mistral_ai_engine.py:500-515 | the recommendations shown are those of the high-priority insights, one each, in order |
| EngineReport.ReportSummary | mistral_ai_engine.py:495-498 | the summary totals the savings of all insights (low ones included) and counts them all |
| CostExtractor.LastWhere | aws_cost_extractor.py:96-100 | the last key satisfying the test, or none when no key does |
| CostExtractor.KeyFields | aws_cost_extractor.py:93-100 | the key loop leaves the last key starting with "Amazon" as service and the last other key as region |
| CostExtractor.GroupRecordLabels | aws_cost_extractor.py:93-100 | a service is a key starting with "Amazon", a region a key that does not; the service is missing iff no key qualifies |
| CostExtractor.GetServiceBreakdown | aws_cost_extractor.py:78-113 | the nested loops compute exactly the flattened breakdown |
| CostExtractor.BreakdownAt | aws_cost_extractor.py:91-111 | one record per group of every period, in order; each carries its period's start, its amounts and its labels |
| CostExtractor.TagMapKeys | aws_cost_extractor.py:137-140 | the tag dict's keys are exactly the keys of the tags |
| CostExtractor.TagMapLastWins | aws_cost_extractor.py:137-140 | for a repeated key the last tag's value wins |
| CostExtractor.GetEc2Instances | aws_cost_extractor.py:115-148 | the nested loops compute exactly the instance list |
| CostExtractor.Ec2InstancesAt | aws_cost_extractor.py:126-142 | one record per instance of every reservation, in order |
| CostExtractor.Ec2InstancesFailure | aws_cost_extractor.py:137-148 | a tag without Key or Value, or a failed call, makes the whole result `[]` |
| CostExtractor.GetUnusedResources | aws_cost_extractor.py:150-197 | the loops compute exactly the unused-resource lists |
| CostExtractor.UnusedShape | aws_cost_extractor.py:157-197 | no Elastic IPs are ever listed; one entry per stopped instance; volumes only when both calls succeed; the engine never rates these findings low |
| CostExtractor.GenerateOptimizationData | aws_cost_extractor.py:199-214 | the call fails exactly when the cost query fails; otherwise it bundles the three results |
| Scheduler.Newest | scheduler.py:302 | `s[-n:]` is the last min(n, len) elements, in order |
| Scheduler.NewestAppend | scheduler.py:298-302 | trimming before appending loses nothing that trimming afterwards keeps |
| Scheduler.TaskScheduler.constructor | scheduler.py:21-26 | no jobs, not running |
| Scheduler.TaskScheduler.Start | scheduler.py:28-36 | running afterwards unless the start raised on a stopped scheduler; jobs untouched |
| Scheduler.TaskScheduler.Stop | scheduler.py:38-46 | stopped afterwards unless the shutdown raised; jobs untouched |
| Scheduler.TaskScheduler.AddJob | scheduler.py:48-100 | fails exactly for an unknown trigger or a rejected job; otherwise registers (or replaces) the job under the given id or a generated one, keeping every trigger cron or interval |
| Scheduler.TaskScheduler.RemoveJob | scheduler.py:102-124 | removes exactly a registered job, unless the scheduler raised; reports whether it did |
| Scheduler.TaskScheduler.StatusOf | scheduler.py:135-162 | a status exactly for a registered job, carrying its id and trigger |
| Scheduler.TaskScheduler.PauseJob | scheduler.py:164-184 | succeeds exactly for a registered job when the scheduler does not raise |
| Scheduler.TaskScheduler.ResumeJob | scheduler.py:186-206 | succeeds exactly for a registered job when the scheduler does not raise |
| Scheduler.DataSyncScheduler.constructor | scheduler.py:212-222 | a fresh, stopped scheduler with no jobs, and an empty history |
| Scheduler.DataSyncScheduler.Start | scheduler.py:224-226 | starts the inner scheduler |
| Scheduler.DataSyncScheduler.Stop | scheduler.py:228-230 | stops the inner scheduler |
| Scheduler.DataSyncScheduler.ScheduleDailySync | scheduler.py:232-250 | registers `daily_sync` with a cron trigger, unless rejected |
| Scheduler.DataSyncScheduler.ScheduleHourlySync | scheduler.py:252-265 | registers `hourly_sync` with an interval trigger, unless rejected |
| Scheduler.DataSyncScheduler.ScheduleCustomSync | scheduler.py:267-283 | registers `custom_sync_<n>m` with an interval trigger, unless rejected |
| Scheduler.DataSyncScheduler.SyncWrapper | scheduler.py:285-313 | a returned run appends its record and keeps the newest 100; a raised run appends an error record untrimmed |
| Scheduler.DataSyncScheduler.SyncHistory | scheduler.py:315-325 | `history[-limit:]`: the newest `limit` records; all of them for 0; a negative limit drops the oldest |
| Scheduler.DataSyncScheduler.Status | scheduler.py:327-339 | the count is the history's length; the last sync is the newest record, present iff the history is non-empty |
| Scheduler.AfterSyncsNewest | scheduler.py:298-302 | after successful runs the history is the newest 100 of all records, as one trim at the end would leave it |
| Scheduler.SyncWrapperBounds | scheduler.py:298-302 | after a returned run the history holds at most 100 records and ends with the new one; below 100 nothing is dropped |
| SimpleChatbot.SummaryOf | finops_chatbot_simple.py:131-150 | counts every insight and keeps the first five as top insights |
| SimpleChatbot.FinOpsChatbot.constructor | finops_chatbot_simple.py:16-18 | the chatbot starts with no insights |
| SimpleChatbot.FinOpsChatbot.SyncAwsData | finops_chatbot_simple.py:21-61 | installs the three demo insights and reports success, 150 data points and 3 insights |
| SimpleChatbot.FinOpsChatbot.Query | finops_chatbot_simple.py:63-105 | the loop answers with the first table key contained in the lower-cased query, or the default; the status is always success |
| SimpleChatbot.FinOpsChatbot.GetSummary | finops_chatbot_simple.py:131-150 | the summary of the current insights; while the insights are empty or the demo set, it reports 0 insights worth 0 or 3 insights worth 2250 |
| SimpleChatbot.FinOpsChatbot.ClearData | finops_chatbot_simple.py:152-160 | empties the insights and reports success |
| SimpleChatbot.FinOpsChatbot.GetOptimizationReport | finops_chatbot_simple.py:107-129 | the line-by-line construction yields exactly the report |
| SimpleChatbot.DemoSummary | finops_chatbot_simple.py:25-50 | after a sync the summary shows 3 insights worth 2250 in all |
| SimpleChatbot.ClearedSummary | finops_chatbot_simple.py:134-145 | after a clear the summary counts nothing and totals 0 |
| SimpleChatbot.EntryLines | finops_chatbot_simple.py:119-124 | each entry shows its title, priority and recommendation once |
| SimpleChatbot.ReportTitles | finops_chatbot_simple.py:118-124 | the report lists every insight exactly once, in order, whatever its priority |
| SimpleChatbot.ReportRecommendations | finops_chatbot_simple.py:119-124 | every insight's recommendation is shown, in order |
| SimpleChatbot.ReportSummary | finops_chatbot_simple.py:114-116 | the summary lines total all savings and count all insights |

## Left out

- **Isolation forest.** `detect_cost_anomalies_advanced` with `isolation_forest` (or any other method name) is modelled by its ImportError fallback, the IQR rule. The scikit-learn model is not modelled.
- **Floating point.** Costs are exact reals, so rounding, NaN and infinity are not modelled. Python's `float('inf')` payback is `None`, as the source returns it.
- **`:.2f` rendering.** Amounts in texts and reports stay numbers.
- **Timestamps and dates.**
  - Timestamps and `datetime.now()` are left out of every reply, or passed in as strings.
  - Dates are day numbers; `isoformat` and date parsing are not modelled.
- **Square root and normal quantile.** They are parameters (`sqrt`, `ppf`). Properties that need them state it in their requirements.
- **Lower-casing.** `str.lower` is modelled on ASCII letters only.
- **External services.** boto3, the Mistral client, APScheduler and logging are not modelled. Their results are inputs:
  - a response;
  - `None` for a raised call;
  - a `fails` or `rejected` flag;
  - a `ModelReply`.
- **Scheduler internals.** APScheduler's own job table, paused state and `next_run_time` are not kept. `rejected` stands for any error raised by the trigger or by `add_job`. `get_jobs` is the `jobs` field itself.
- **Sort order among equal keys.** `sort_values` (pandas' quicksort) is modelled as a stable sort.
- **Forecasting from a single day.** `DataProcessor.ForecastCosts` follows the code. The 0/0 slope is NaN and `max(0, nan)` is 0, so a single day gives `days_ahead` zero forecasts, not an empty list. `forecast_with_confidence_intervals` with a single day fails inside `polyfit` and returns `[]`, and the model does the same.
- **Numeric `costs` context.** `_build_context_string` has a branch for a numeric `costs` entry; the model takes `costs` to be a list.
- **`answer_query` except path.** The path that answers from the data after an exception is not modelled; no modelled step raises.
- **Formatting `None`.** A `None` amount raising inside an f-string is not modelled.
- **A present `None` service or instance type.** In `InsightEngine`, `item.get("service", "Unknown")` and `resource.get("instance_type", "Unknown")` are modelled through an `Option`, so a key present with value `None` is read as a missing key ("Unknown"). In the source a present `None` service is named "None" in the insight title, and a present `None` instance type makes `"xlarge" in None` raise. The cost extractor can produce such a service when no group key starts with "Amazon".
- **`float()` conversion errors** in `_analyze_cost_patterns` and `_get_data_driven_response` are not modelled. The cost of an item is its number, or 0 when missing.
- **Empty dicts.** EngineAnswers.Truthy approximates Python truthiness of a cost entry by "has one of the three keys the model reads".
- CostExtractor.TagMapKeys: stated for the complete tags only. A tag missing its Key or Value raises, which empties the whole instance list (CostExtractor.Ec2InstancesFailure).
- SimpleChatbot.FinOpsChatbot.SyncAwsData: `days` is unused, as in the source. The except paths of sync, summary, clear and report cannot be reached by the modelled steps, so they are not modelled.
- SimpleChatbot.PriorityName: a missing priority renders as "None", and other strings are folded into `Unranked`.
- AdvancedAnalytics.CostElasticity: the volatilities and the correlation of the result are not modelled; only `elasticity` and `service` are. Their std and corr would need a square root over NaN-bearing series.
- **The second normal equation** (residuals orthogonal to the index) is not proved. Only the first (residuals summing to 0) is, together with exactness on lines.
- **Exporting** (`export_to_json`, `export_to_csv`) is file I/O and is not modelled.
- **Reading raw values.** `get_cost_and_usage`'s own request, and `process_cost_data`'s reading of dates and strings, are taken as given.

## Findings

| source | as written | input that shows it | evidently intended | confidence | as-written member | corrected member |
|---|---|---|---|---|---|---|
| advanced_analytics.py:244-245 | `cost_per_unit` uses a Python `if` on the whole `total_usage` Series. Its truth value is ambiguous and raises, and the handler returns `[]`. So `identify_cost_drivers` returns `[]` for every non-empty table | one record: EC2, us-east-1, cost 100, usage 50, top_n 10 | a per-row rule: total/usage where usage > 0, else 0; for this input, one driver with total 100 and unit cost 2 | high; not executed | AdvancedAnalytics.CostDriversAsWritten (AdvancedAnalytics.CostDriversAsWrittenEmpty, AdvancedAnalytics.CostDriversDefect) | AdvancedAnalytics.CostDrivers (AdvancedAnalytics.CostDriversNonEmpty, AdvancedAnalytics.CostDriversRanked, AdvancedAnalytics.DriverFigures) |
