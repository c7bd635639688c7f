# Agentic enterprise dashboard — decision rules in Dafny

This project models the deterministic core of an executive dashboard. An
executive gives an investment budget, a timeline in weeks and a free-text
goal. Six business functions ("agents": Sales, Marketing, Finance,
Operations, Support, HR) each get a budget impact, a headcount change, a
confidence score and a risk class. From these come totals, headline targets,
chart projections and a list of resolved conflicts between goals.

The code is split into five modules, one per source file plus a shared one:

- `Common` (common.dfy): option and result types, the two languages'
  rounding rules, clamps, sums, ASCII lower-casing, substring search and the
  shared risk thresholds.
- `Calculations` (calculations.dfy): the frontend metrics engine,
  `frontend/src/lib/calculations.ts`. It is pure, so it is modelled as
  functions, with lemmas for bounds, clamps, monotone ramps, conservation of
  sums and the shape of the projections.
- `Intent` (intent.dfy): the backend's keyword-and-percentage prompt
  parser. It is a method that overwrites the intent record rule by rule,
  proved equal to a function that says which rule has the last word on each
  field. The regular expression `(\d+(?:\.\d+)?)%` is modelled exactly, as a
  scan over the prompt.
- `Backend` (backend.dfy): the agent configuration table, the per-agent
  decision loop, conflicts, projections, and the totals and targets of the
  calculate endpoint. Each loop is a method proved against a specification
  function.
- `DataUpload` (data_upload.dfy): the uploaded company profile. It is a
  class with the fields `rawData`, `metrics` and `isLoaded`. Column
  standardisation is a method with nested loops and `break`. Metric
  calculation fills the record key by key. Trend classification, the agent
  baselines and the confidence adjustment are functions.

Numbers are exact reals. JavaScript `Math.round` is `floor(x + 0.5)`
(`JsRound`). Python `round` rounds halves to even (`PyRound`), and
`round(x, 1)` is that rule at one decimal (`PyRound1`). Python `int()`
truncates toward zero (`Trunc`). Each file uses its own language's rule.

`x ** 0.8` cannot be computed on reals. It is a parameter
`pow: real -> NonNegReal` of the functions that use it. The only law it
must obey is `pow(1) == 1` (`PowLaw`).

The frontend classifies risk from the confidence before it is clamped to
[50, 99] (calculations.ts:130). `Calculations.RiskOfClampedConfidence`
proves that this makes no difference: both thresholds, 70 and 85, lie
inside [50, 99].

The calculate endpoint is modelled as written. It calls the conflict
generator as written (`Backend.ConflictsAsWritten`), so it fails on the
prompts listed under "## Findings". Where it succeeds, its conflicts are
those of the corrected `Backend.GenerateConflicts`.

## Model

| member | source | states |
|---|---|---|
| `Common.RiskLevel` | frontend/src/lib/calculations.ts:96-100 | risk is low exactly from 85 up and high exactly below 70, medium otherwise; the backend uses the same thresholds |
| `Common.JsRound` | frontend/src/lib/calculations.ts:104 | `Math.round` yields the integer in (x - 0.5, x + 0.5] |
| `Common.PyRound` | backend/main.py:301 | Python `round` is within a half of x and picks the even neighbour on a tie |
| `Common.PyRound1` | backend/main.py:283 | `round(x, 1)` is within 0.05 of x |
| `Common.Trunc` | backend/main.py:318 | `int(x)` truncates toward zero |
| `Common.ContainsAt` | backend/main.py:208 | the substring test `sub in s` holds exactly when `sub` occurs at some position of `s` |
| `Calculations.InvestmentAdequacy` | frontend/src/lib/calculations.ts:80-86 | the adequacy factor is in [0.5, 1], 1 from 800000 up and 0.5 up to 200000 |
| `Calculations.InvestmentAdequacyMonotone` | frontend/src/lib/calculations.ts:80-86 | more investment never lowers the adequacy factor |
| `Calculations.TimelineFactor` | frontend/src/lib/calculations.ts:88-94 | the timeline factor is in [0.6, 1], 1 from 16 weeks up and 0.6 up to 6 weeks |
| `Calculations.TimelineFactorMonotone` | frontend/src/lib/calculations.ts:88-94 | a longer timeline never lowers the timeline factor |
| `Calculations.ScaleHeadcount` | frontend/src/lib/calculations.ts:102-105 | from 12 weeks the base headcount change is reached in full; at 0 weeks it is 0; for a reduction and a non-negative timeline the result lies between the base and 0 |
| `Calculations.ScaleHeadcountMonotone` | frontend/src/lib/calculations.ts:102-105 | for a reduction, a longer timeline never gives a smaller reduction |
| `Calculations.ScaleBudget` | frontend/src/lib/calculations.ts:107-112 | a cost scales linearly, `round(base * investment / 620000)`; at 620000 every base comes back unchanged; for a non-negative investment the sign of the base is kept |
| `Calculations.ClampConfidence` | frontend/src/lib/calculations.ts:129 | the published confidence lies in [50, 99] and is unchanged inside that band |
| `Calculations.RiskOfClampedConfidence` | frontend/src/lib/calculations.ts:121-130 | the risk of the unclamped confidence equals the risk of the clamped one |
| `Calculations.CalculateAgent` | frontend/src/lib/calculations.ts:118-134 | one agent's record keeps its name, has a confidence in [50, 99] and the risk class of that confidence |
| `Calculations.CalculateAgents` | frontend/src/lib/calculations.ts:118-134 | `BASE_AGENTS.map` yields exactly six records, one per table row, in table order |
| `Calculations.CalculateMetrics` | frontend/src/lib/calculations.ts:114-188 | the result holds the six agents; the totals are the sums of their impacts; the overall confidence is their rounded mean; both series are built from the unrounded targets; the conflict list is the fixed one |
| `Calculations.ProfitGrowthTarget` | frontend/src/lib/calculations.ts:140 | the profit target is clamped into [8, 18] |
| `Calculations.CtcReductionTarget` | frontend/src/lib/calculations.ts:141 | the cost-to-company target is clamped into [1, 4], and is at least 1.5 for a non-negative investment |
| `Calculations.ProfitProjection` | frontend/src/lib/calculations.ts:143-148 | seven points with the fixed week labels; `actual` is present exactly at indices 0-2 |
| `Calculations.CtcProjection` | frontend/src/lib/calculations.ts:150-154 | seven points with the fixed week labels; `actual` is present exactly at indices 0-2 |
| `Calculations.MetricsAgents` | frontend/src/lib/calculations.ts:44-51 | every result has six agents named Sales to HR in table order, each with confidence in [50, 99] and the matching risk |
| `Calculations.OverallConfidenceBounds` | frontend/src/lib/calculations.ts:138 | the overall confidence, a rounded mean of six values in [50, 99], is in [50, 99] |
| `Calculations.TargetBounds` | frontend/src/lib/calculations.ts:178-179 | after rounding to one decimal the profit target stays in [8, 18] and the cost target in [1, 4] |
| `Calculations.ProfitProjectionShape` | frontend/src/lib/calculations.ts:144-148 | for a positive target the observed prefix runs ahead of the projection, the projection rises each week and ends at 0.98 times the target |
| `Calculations.CtcProjectionShape` | frontend/src/lib/calculations.ts:150-154 | for a positive target the observed prefix runs below the projection, and the projection falls each week from below 100 |
| `Calculations.ProfitSeriesShape` | frontend/src/lib/calculations.ts:140-148 | the result's profit series rises to 0.98 times the unrounded clamped target, for every input |
| `Calculations.CtcSeriesShape` | frontend/src/lib/calculations.ts:141-154 | the result's cost series falls from below 100, with the observed prefix under the projection, for every input |
| `Calculations.BaselineScenario` | frontend/src/lib/calculations.ts:107-112 | at 620000 and 12 weeks every budget impact is its base (Finance 195000), savings total 620000 and headcount change totals -14 |
| `Calculations.ZeroScenario` | frontend/src/lib/calculations.ts:102-105 | at 0 and 0 every headcount change is 0, the profit target is 8 and the cost target 1.5 |
| `Calculations.HeadcountChangeBounds` | frontend/src/lib/calculations.ts:137 | for a non-negative timeline the total headcount change lies in [-14, 0] |
| `Calculations.CurrencyMagnitude` | frontend/src/lib/calculations.ts:190-195 | with `abs`, amounts of magnitude at least 1M print in millions; without it, amounts below 1000 print as plain numbers |
| `Calculations.BudgetImpactMagnitude` | frontend/src/lib/calculations.ts:197-201 | amounts below 1000, costs included, print as plain numbers |
| `Calculations.BudgetImpactIsSignedCurrency` | frontend/src/lib/calculations.ts:190-201 | `formatBudgetImpact` picks the same unit as `formatCurrency` without `abs` |
| `Calculations.MagnitudeSignRules` | frontend/src/lib/calculations.ts:190-201 | with `abs` an amount and its negation print in the same unit; without it every negative amount prints as a plain number |
| `Calculations.MagnitudeMonotone` | frontend/src/lib/calculations.ts:192-193 | a larger amount never prints in a smaller unit |
| `Intent.DigitRun` | backend/main.py:201 | the digit run starting at a position is maximal: all digits, followed by a non-digit or the end |
| `Intent.MatchAt` | backend/main.py:201 | a match of the percentage pattern ends just after a `%` and captures a non-negative number |
| `Intent.IntegerPercentMatches` | backend/main.py:201 | digits followed by `%` are matched at their first digit, with the whole number as the value |
| `Intent.DecimalPercentMatches` | backend/main.py:201 | digits, a point, digits and `%` are matched at their first digit, with the decimal number as the value |
| `Intent.MatchIsPercent` | backend/main.py:201 | whatever the scan finds at a position is a match of the pattern there, carrying the number written there |
| `Intent.MatchAtIff` | backend/main.py:201 | the scan at a position yields (v, e) exactly when the pattern `(\d+(?:\.\d+)?)%` matches from there up to e and v is the number written there |
| `Intent.FirstPercentageFrom` | backend/main.py:200 | scanning from any position, the first value found is the one at the leftmost match from there, and the scan resumes right after that match's `%` |
| `Intent.FirstPercentage` | backend/main.py:200-203 | the first percentage found is the number at the leftmost position where the pattern matches, followed by what is found after that match |
| `Intent.SecondPercentage` | backend/main.py:200-205 | the second percentage found, the secondary percentage, is the number at the leftmost match that starts after the first match's `%` |
| `Intent.NoPercentageIff` | backend/main.py:200-203 | nothing is found exactly when the pattern matches nowhere, so the target stays 15 exactly then |
| `Intent.PercentagesNonNegative` | backend/main.py:201 | every percentage found is non-negative |
| `Intent.PercentagesNeedPercentSigns` | backend/main.py:201 | without a `%` sign nothing is found |
| `Intent.SinglePercentage` | backend/main.py:201-203 | a prompt `N%` yields exactly the number N |
| `Intent.OnlyFifteenPercent` | backend/main.py:201 | a prompt whose only `%` follows "15", with no digit before it, yields exactly [15] |
| `Common.AbsentByChar` | backend/main.py:208 | a string lacking one of the characters of a keyword does not contain the keyword |
| `Common.AbsentByPair` | backend/main.py:208 | a string lacking two adjacent characters of a keyword does not contain the keyword |
| `Intent.ProfitAndCostKeywords` | backend/main.py:208-237 | a lower-case prompt that contains "profit" and "cost" and lacks the letters or letter pairs every other keyword needs has exactly the profit and cost keyword groups |
| `Intent.ProfitAndCostPromptIntent` | backend/main.py:183-239 | "increase profit by 15% and cut costs" parses to the profit objective with a cost secondary objective, target 15 and no secondary percentage |
| `Intent.IntentFrom` | backend/main.py:200-205 | the first percentage becomes the target (15 without one), the second the secondary percentage (None without one) |
| `Intent.ParseIntentFallback` | backend/main.py:183-239 | the rule-by-rule overwrite of the intent record equals the last-word specification `FallbackIntent` |
| `Intent.RevenueForcesInvest` | backend/main.py:222-225 | a revenue or sales keyword always gives budget `invest`, and objective `revenue` unless an efficiency keyword follows |
| `Intent.EfficiencyHasLastWord` | backend/main.py:227-229 | an efficiency or productivity keyword sets the final objective and primary objective |
| `Intent.ProfitAndCostIsDual` | backend/main.py:212-216 | profit and cost keywords add the secondary objective, which carries the stored secondary percentage, never the 0.15 default, and add the tension; without revenue the budget is `cut_costs`; with neither revenue nor efficiency the objective stays profit |
| `Intent.SecondaryObjectiveIff` | backend/main.py:212-216 | a secondary objective exists exactly when both a profit and a cost keyword occur |
| `Intent.UrgencyPrecedence` | backend/main.py:232-237 | urgency keywords win over gradual ones, and give high urgency and a short horizon |
| `Intent.BudgetImplicationIff` | backend/main.py:212-225 | the budget is `cut_costs` exactly with a cost keyword and no revenue keyword, `invest` exactly with a revenue keyword, and never `maintain` |
| `Intent.PercentageSlots` | backend/main.py:200-205 | with no percentage the target is 15 and there is no secondary; the first two percentages fill the slots and are non-negative |
| `Backend.TimelineFactor` | backend/main.py:255 | the timeline factor lies in [0.6, 1] |
| `Backend.AgentDecisions` | backend/main.py:273-354 | a successful decision list has one entry per configured agent |
| `Backend.ComputeBudgetImpact` | backend/main.py:300-306 | the loop's budget steps compute `round(base_budget * investment_factor * urgency_multiplier)` and then the revenue rescale; the result equals the specification `BudgetImpact` |
| `Backend.ComputeHeadcountImpact` | backend/main.py:308-314 | the loop's headcount steps compute `round(base_headcount * timeline_factor)` and then the headcount rescale; the result equals the specification `HeadcountImpact` |
| `Backend.AdjustMatchesDecision` | backend/data_upload.py:221-237 | given a decision's unscaled budget and headcount impacts, the profile's `adjust_calculations` yields the same two impacts as the inline rescales at main.py:303-314, loaded or not |
| `Backend.AdjustBudgetAsDecided` | backend/data_upload.py:229-232 | for a whole-number budget impact, the helper's revenue rescale equals the decision loop's |
| `Backend.AdjustHeadcountAsDecided` | backend/data_upload.py:234-237 | for a whole-number headcount impact, the helper's headcount rescale equals the decision loop's |
| `Backend.CalculateAgentDecisions` | backend/main.py:241-354 | the append loop over the configuration equals the specification `AgentDecisions`, including its failures |
| `Backend.AgentDecisionsShape` | backend/main.py:255-326 | the decisions fail exactly for a zero base investment or a negative investment ratio; otherwise there are six, in order, each with a confidence in [50, 99] that depends only on agent and timeline, and its risk class |
| `Backend.ConfidenceBounds` | backend/main.py:318 | the confidence, the integer part of a value clamped to [50, 99], lies in [50, 99] |
| `Backend.ConfidenceMonotone` | backend/main.py:318 | a larger timeline factor never lowers a confidence |
| `Backend.ConfidenceMonotoneInTimeline` | backend/main.py:255 | a longer timeline never lowers a confidence |
| `Backend.BaseBudgetChoice` | backend/main.py:277-293 | `cut_costs` uses the positive base, `invest` the negative one, and otherwise only Sales, HR and Operations use the positive base |
| `Backend.WordingBounds` | backend/main.py:277-298 | the vendor/office count is at least 2 when cutting or reallocating and at least 1 when investing; the action words follow the branch |
| `Backend.BudgetFollowsBaseSign` | backend/main.py:301-306 | with a non-negative uploaded revenue, each budget impact has the sign of its base budget |
| `Backend.BudgetMonotoneInMultiplier` | backend/main.py:301 | without uploaded data, a larger multiplier never shrinks a non-negative base budget |
| `Backend.UrgencyOrdersBudget` | backend/main.py:271-301 | without uploaded data, budget impacts grow from low to medium to high urgency |
| `Backend.HeadcountNeverIncreases` | backend/main.py:309-314 | with a non-negative uploaded headcount no headcount change is an increase |
| `Backend.HeadcountWithinBase` | backend/main.py:309 | without an uploaded headcount the change lies between the base reduction and 0 |
| `Backend.BaseBudgetTotals` | backend/main.py:72-139 | the base budgets total 620000 when cutting, 400000 when investing and 770000 when reallocating |
| `Backend.BaselineFactor` | backend/main.py:264-268 | without uploaded revenue, at 620000 the investment factor is 1 |
| `Backend.BaselineBudgets` | backend/main.py:264-301 | without uploaded data, at 620000 and medium urgency every budget impact is the branch's base budget |
| `Backend.GenerateConflicts` | backend/main.py:356-423 | two conflicts with ids 1 and 2 exactly for profit with a secondary objective; otherwise one conflict with id 1 of the kind the objective selects |
| `Backend.ConflictsAsWritten` | backend/main.py:365-375 | the code as written fails exactly for the dual objective without a secondary percentage; otherwise it agrees with `GenerateConflicts` |
| `Backend.FallbackDualFails` | backend/main.py:365-375 | any fallback-parsed prompt with profit and cost keywords, no revenue or efficiency keyword and fewer than two percentages makes the code as written fail; the corrected version shows 15% of the target |
| `Backend.ProfitAndCostWithOnePercentageFails` | backend/main.py:365-375 | the prompt "increase profit by 15% and cut costs", parsed by the keyword parser, makes the conflicts as written fail with the formatting error |
| `Backend.ConflictSavingsSign` | backend/main.py:378-420 | for a non-negative investment the revenue conflict's savings are non-positive and all others non-negative |
| `Backend.DefaultInvestmentSavings` | backend/main.py:366-420 | with the default investment of 620000 the savings are 74400 and 105400, 217000, -155000 or 117800 by branch |
| `Backend.WeekNumbers` | backend/main.py:430-435 | five week numbers, starting at 1 and ending at the timeline |
| `Backend.ComputeProfitPoint` | backend/main.py:441-450 | the loop body's profit point (progress, 90% curve, actual at 85% in the first half, absent when zero, rounded) is the specification point `ProfitPoint` |
| `Backend.ComputeCtcPoint` | backend/main.py:452-460 | the loop body's cost point (100 less 15% of the target by progress, actual half a point above in the first half, absent when zero, rounded) is the specification point `CtcPoint` |
| `Backend.GenerateProjections` | backend/main.py:425-463 | the append loop over the weeks equals the specification series `ProfitSeries` and `CtcSeries` |
| `Backend.ProjectionShape` | backend/main.py:440-461 | both series share the five weeks ending at the timeline; `actual` is absent at indices 3-4 in both; at 0-2 the profit actual is present exactly for a non-zero target and the cost actual exactly when 100.5 less the cost progress is non-zero; the last profit projection is within rounding of 0.9 times the target, the last cost projection within rounding of 100 less 0.15 times it |
| `Backend.ProfitProjectionMonotone` | backend/main.py:444-450 | for a non-negative target the profit projection never falls from week to week |
| `Backend.CtcProjectionMonotone` | backend/main.py:454-460 | for a non-negative target the cost projection never rises from week to week |
| `Backend.WeeksIncreasingIff` | backend/main.py:430-435 | the week labels increase strictly exactly for timelines 7-8 and from 10 up; shorter ones repeat or reorder weeks |
| `Backend.RequestInvestment` | backend/main.py:475 | an absent or zero investment limit becomes 620000 |
| `Backend.RequestTimeline` | backend/main.py:476 | an absent or zero timeline becomes 12 weeks |
| `Backend.TargetsBounds` | backend/main.py:497-508 | for a non-negative target the profit growth lies in [0, target] and equals the target for profit; the cost reduction is non-negative, at most the target outside profit, 15% of the target for profit without a non-zero secondary, and 0 for revenue |
| `Backend.FallbackProfitTargets` | backend/main.py:497-499 | a fallback-parsed profit prompt with fewer than two percentages reports 15% of the target as cost reduction |
| `Backend.HeadlineTargets` | backend/main.py:493-508 | the objective branches compute the target table `Targets` |
| `Backend.CalculateEndpoint` | backend/main.py:468-526 | the endpoint steps compute the specification `Endpoint`, including the failures of the decisions and of the conflicts as written |
| `Backend.EndpointShape` | backend/main.py:478-508 | the endpoint fails exactly when the decisions fail (with their error) or for the dual objective without a secondary percentage (with the formatting error); otherwise the totals are sums of the agents' impacts, the average confidence lies in [50, 99], the targets are the table's rounded to one decimal and the conflicts are the corrected ones |
| `Backend.AverageConfidenceBounds` | backend/main.py:482 | the truncated mean of six confidences in [50, 99] lies in [50, 99] |
| `Backend.DefaultRequestSavings` | backend/main.py:475-485 | without upload, at the default investment and medium urgency, the request fails exactly for the dual objective without a secondary percentage; otherwise total savings are 620000, 400000 or 770000 by branch |
| `DataUpload.NormalizedNameIsCanonical` | backend/data_upload.py:76 | a normalised column name keeps its length, lower-cases letters, turns spaces into `_` and changes nothing else |
| `DataUpload.LowerIndexLastWins` | backend/data_upload.py:76 | every normalised name is a key of `df_lower` and points to the last column carrying it |
| `DataUpload.FirstAliasIsFirst` | backend/data_upload.py:79-83 | the alias search finds the present alias of lowest position, and none exactly when none is present |
| `DataUpload.StandardizeBindsFirstAlias` | backend/data_upload.py:78-83 | each standard field is bound at most once, exactly when an alias is present, to the column of its first present alias; only standard names are bound |
| `DataUpload.FallbackKeepsAllColumns` | backend/data_upload.py:86-88 | with no standard field present every column is kept under its normalised name |
| `DataUpload.CompanyDataProfile.StandardizeColumns` | backend/data_upload.py:44-90 | the nested loops with `break` compute the specification `Standardize` |
| `DataUpload.PercentChange` | backend/data_upload.py:176-182 | a zero baseline gives 0; from a positive baseline the change exceeds +5 exactly above 1.05 times it and falls below -5 exactly under 0.95 times it, reversed for a negative baseline |
| `DataUpload.TrendStableCases` | backend/data_upload.py:170-176 | fewer than two values, or a first half averaging 0, is stable |
| `DataUpload.TrendFromPositiveBaseline` | backend/data_upload.py:173-182 | from a positive first-half mean, increasing exactly above 1.05 times it and decreasing exactly below 0.95 times it, with the odd element in the second half |
| `DataUpload.TrendFromNegativeBaseline` | backend/data_upload.py:173-182 | from a negative first-half mean the comparison reverses: increasing exactly below 1.05 times it, decreasing exactly above 0.95 times it |
| `DataUpload.ConstantSeriesIsStable` | backend/data_upload.py:168-182 | a constant series is stable |
| `DataUpload.PresentKeepsValues` | backend/data_upload.py:98 | the missing-value filter keeps exactly the values of present cells |
| `DataUpload.PresentKeepsFullColumn` | backend/data_upload.py:98 | a column without missing cells is kept whole, in order |
| `DataUpload.FillRevenue` | backend/data_upload.py:97-101 | sets the revenue keys exactly when the column is present: sum, mean (0 without values) and trend |
| `DataUpload.FillProfit` | backend/data_upload.py:104-108 | sets the profit keys; the margin divides by a non-zero revenue total, else 0 |
| `DataUpload.FillCac` | backend/data_upload.py:111-118 | the acquisition cost comes from its own column or from spend over customers, with 385 as fallback |
| `DataUpload.FillHeadcount` | backend/data_upload.py:121-126 | the current headcount is always set (620 by default); the change is set with the column |
| `DataUpload.FillChurn` | backend/data_upload.py:129-137 | the current churn is always set, from churn, from retention, or 0.08 |
| `DataUpload.FillLatest` | backend/data_upload.py:140-160 | pipeline, deals, deal size, NPS and CSAT take their column's latest (or mean) value or their default |
| `DataUpload.MetricsFromFields` | backend/data_upload.py:163-164 | once the other keys are set, the revenue per employee either divides by the headcount or raises for a zero headcount |
| `DataUpload.CompanyDataProfile.CalculateMetrics` | backend/data_upload.py:92-166 | the key-by-key filling computes the specification `MetricsOf`, including its division error |
| `DataUpload.MetricsAlwaysSetHeadcountAndChurn` | backend/data_upload.py:120-137 | the current headcount and churn are always set, to 620 and 0.08 without their columns |
| `DataUpload.HeadcountChangeRule` | backend/data_upload.py:121-124 | the headcount change is last minus first over at least two values, else 0 |
| `DataUpload.AvgCacFallback` | backend/data_upload.py:110-118 | the acquisition cost falls back to 385 with an empty column or no customers |
| `DataUpload.MetricsKeysFollowColumns` | backend/data_upload.py:96-118 | each revenue, profit and acquisition-cost key is set exactly when its columns are present; the margin is 0 without a non-zero revenue |
| `DataUpload.ChurnFromRetentionIsRate` | backend/data_upload.py:133-135 | churn derived from a retention percentage in [0, 100] lies in [0, 1] |
| `DataUpload.MetricsFailureIff` | backend/data_upload.py:163-164 | the calculation fails exactly when revenue is present and the headcount is 0 |
| `DataUpload.CompanyDataProfile.constructor` | backend/data_upload.py:13-16 | a new profile is empty and not loaded |
| `DataUpload.CompanyDataProfile.ProcessCsv` | backend/data_upload.py:18-42 | an unreadable sheet changes nothing; otherwise the columns are replaced, and only a successful metrics calculation replaces the metrics and sets the loaded flag; the flag is never reset; success is reported exactly on that path |
| `DataUpload.CompanyDataProfile.GetBaselineForAgent` | backend/data_upload.py:184-219 | a name outside the six agents gets an empty map |
| `DataUpload.CompanyDataProfile.AdjustCalculations` | backend/data_upload.py:221-224 | an unloaded profile returns the input unchanged |
| `DataUpload.AdjustRescalesBudget` | backend/data_upload.py:229-232 | on a loaded profile with an uploaded revenue, the budget impact becomes a whole number within a half of the old impact (0 if absent) times revenue/10M, rounded as Python does; without revenue it is kept as it was |
| `DataUpload.AdjustRescalesHeadcount` | backend/data_upload.py:234-237 | on a loaded profile with an uploaded headcount, the headcount impact becomes a whole number within a half of the old impact (0 if absent) times headcount/620, rounded as Python does; without a headcount it is kept as it was |
| `DataUpload.AdjustAtReferenceSize` | backend/data_upload.py:229-237 | a company with 10M revenue and 620 employees gets whole-number impacts back unchanged, and a missing one as 0 |
| `DataUpload.AdjustChangesOnlyThreeFigures` | backend/data_upload.py:227-237 | the adjustment keeps every key and changes none but the budget, headcount and confidence figures |
| `DataUpload.AdjustConfidenceBounded` | backend/data_upload.py:239-244 | a falling profit trend lowers confidence by 10 but not below 50; a rising one raises it by 5 but not above 99; a confidence in [50, 99] stays there |
| `DataUpload.BaselineHeadcountsWithinWorkforce` | backend/data_upload.py:191-213 | the Sales, Operations and Support workforce shares together never exceed the total headcount |

## Left out

- The language-model prompt parser (`parse_with_gemini`) is an external call. Parsed intents are inputs. Its optional keys `investment_limit`, `timeline_weeks` and `avg_cac` are `Option` fields, which the keyword parser never sets.
- The parsed-intent record (`Intent.ParsedIntent`) treats every other key of the parsed intent as present: `objective_type`, `target_percentage`, `secondary_percentage`, `budget_implication` and `urgency_level`. The `.get` defaults that Python applies to an absent key (main.py:244-248, 360-365, 494-495) therefore cannot be represented. A `None` secondary percentage always stands for a stored `None`. A language-model intent that omits `secondary_percentage` is not modelled: there the source takes `target_percentage * 0.15` at main.py:365 and the request succeeds.
- The HTTP layer is left out: the FastAPI app, CORS, the upload, company-data and health endpoints, exception-to-HTTP mapping, server start-up and logging output. Only the endpoint's computation (lines 468-520) is modelled. Its exceptions from the decisions and from the conflicts are `Failure` results.
- Spreadsheet reading is file I/O (`read_excel`/`read_csv`, `tolist`, `pd.notna`). A sheet arrives as named columns of optional reals plus a row count, or as a read error. Column names are taken to be strings.
- The global profile read by `calculate_agent_decisions` is passed in as a parameter.
- `Math.pow(ratio, 0.8)` and `** 0.8` are floating-point powers. They are the parameter `pow`, constrained only by `pow(1) == 1` and non-negativity. A negative base, which gives a complex number in Python, is modelled as the error that `round` then raises.
- Floating-point numerics are not modelled: rounding error, NaN and infinities. All arithmetic is exact.
- Digit rendering is left out: `toFixed` and `Intl.NumberFormat` in the formatters, and `str.format` in the decision, trigger and resolution texts. The formatters are modelled only by their threshold choice of unit. The templates are modelled only by the values substituted into them (`Wording`, `Resolution`).
- Python's `str.lower()` and the regular-expression `\d` are modelled on ASCII only.
- `Calculations.CalculateAgent` and `Backend.AgentDecision` hold the agent's identity, and the name, decision, trigger, icon and accent texts are derived from it. This is done instead of copying strings into each record.
- `DataUpload.CompanyDataProfile.GetBaselineForAgent`: its contract states only the empty map for unknown names. The per-agent defaults are in its body, and `DataUpload.BaselineHeadcountsWithinWorkforce` states the workforce bound.
- `DataUpload.CompanyDataProfile.AdjustCalculations`: its contract states only the unloaded case. Lemmas state the loaded case. `DataUpload.AdjustRescalesBudget` and `DataUpload.AdjustRescalesHeadcount` give the two rescales. `DataUpload.AdjustConfidenceBounded` gives the confidence move, and `DataUpload.AdjustChangesOnlyThreeFigures` shows that nothing else changes. The unused baseline lookup at the start of `adjust_calculations` has no effect and is not modelled.
- The React components are display-only and are not part of this model. This covers the App, charts, data upload, governance panel, command bar, agent cards, conflict view, KPI strip, agent grid and header.

## Findings

| source | as written | input that shows it | evidently intended | confidence | as-written member | corrected member |
|---|---|---|---|---|---|---|
| backend/main.py:365 | `parsed.get('secondary_percentage', target_pct * 0.15)` returns the stored `None`, because the keyword parser always sets that key. `{secondary_pct:.1f}` at line 375 then raises `TypeError`, so the calculate request fails. | the prompt "increase profit by 15% and cut costs", parsed by the keyword parser | show 15% of the target as the cost reduction when no second percentage was given, as the `.get` default and the `or` default at line 499 both intend | not executed | `Backend.ConflictsAsWritten` | `Backend.GenerateConflicts` |
