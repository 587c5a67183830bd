# n8n execution and ROI dashboard — a Dafny model

This project models the computing core of a dashboard that reports on a
client's n8n workflow executions and on the return on investment of those
workflows. The dashboard is written in TypeScript with React, and the
n8n node script is plain JavaScript. The model covers:

- the per-workflow value formulas (per execution, recurring task, new
  capability);
- the two tool-cost allocators and the development, tool and ROI totals
  built on them;
- the admin editors' record handling (the tool-cost list and the ROI
  workflow form);
- the statistics the charts and cards show: success rates, health
  thresholds, the gauge's de-duplication and segments, the treemap and the
  24-hour trend buckets;
- the filtering and pagination of the two execution tables, and the query
  and insert decisions in `lib/supabase.ts`;
- the small parsers and formatters (`hexToRgb`, currency, hours, durations);
- the n8n "Filter and Transform" node that assembles error details.

There is one Dafny module per source file, plus `Common`. `Common` holds
the Option and Maybe types, JavaScript truthiness (`x || d`, `x ?? d`),
blank-trimming, code-unit string order, insertion sorts and sums.

Conventions:

- The current time is always a parameter (`now`, `today`).
- Money and rates are `real`.
- Dates are a millisecond timestamp with its local (year, month).
- Text that JavaScript renders with `toFixed` or `toLocaleString` stays
  abstract, as pieces (`Int`, `Fixed`, `Grouped`).
- Records whose fields the source updates in place are classes:
  - the tool-cost editor (`ToolCostManager.ToolCostEditor`);
  - the execution history table (`ExecutionHistoryTable.HistoryTable`).
- Loops in the source are methods with loop invariants, proved against
  recursive functions that define their results:
  - the gauge's merge;
  - the trend chart's buckets;
  - the n8n node;
  - the tool list merge;
  - the insert-row map.

The two tool-cost allocators are kept apart. lib/utils.ts:135-156 divides
the tool total by the workflow count. The breakdown in
components/KPICardsBreakdown.tsx never divides recurring tool costs by the
number of workflows: its `totalWorkflows` property is unused.

## Model

| member | source | states |
|---|---|---|
| Common.Trim | components/ExecutionHistoryTable.tsx:124 | the result is the slice of the text left once the leading and trailing blanks are cut off: everything before and after it is blank, and it neither starts nor ends with a blank; text with no blank at either end is kept as it is |
| Types.ParseRoiType | types/supabase.ts:52 | the inverse of the `roi_type` names: a parsed type names the text, and nothing is parsed iff no type has that name |
| Types.ParseFrequency | types/supabase.ts:60 | the inverse of the `frequency` names, in both directions |
| Types.ParsePeriod | types/supabase.ts:120 | the inverse of the tool `period` names, in both directions |
| Utils.FormatTimeAgo | lib/utils.ts:9-25 | "Just now" without a date or under a minute; otherwise the whole minutes (under an hour), hours (under a day) or days elapsed, rounded down, with the matching suffix |
| Utils.FormatDuration | lib/utils.ts:27-34 | "-" for a missing or 0 duration, milliseconds below a second, seconds with one decimal below a minute, else whole minutes and the whole seconds left over (0-59) |
| Utils.FormatDurationSeconds | lib/utils.ts:36-42 | "-" for a missing or 0 duration, one decimal below 60 seconds, else whole minutes and the seconds left over (0-59) |
| Utils.GetDurationColor | lib/utils.ts:44-50 | each colour iff its band: muted iff no duration, green below 5 s, yellow from 5 s to below 30 s, red from 30 s |
| Utils.DurationColorMonotone | lib/utils.ts:44-50 | a longer duration never gets a milder colour |
| Utils.GetHealthStatus | lib/utils.ts:52-56 | healthy iff the rate is at least 95, needs-attention iff from 90 to below 95, critical iff below 90 |
| Utils.HealthMonotone | lib/utils.ts:52-56 | a higher success rate never has a worse status |
| Utils.GetCurrencySymbol | lib/utils.ts:59-72 | the table's symbol for the upper-cased code when it has one, otherwise the code itself |
| Utils.FormatCurrency | lib/utils.ts:74-81 | the minus sign appears exactly when the rounded value is negative, followed by the symbol and a grouped magnitude within half a unit of the absolute value, namely the magnitude of `Math.round(value)` (halves rounded up, so -2.5 shows 2) |
| Utils.FormatHours | lib/utils.ts:83-91 | "0h" for 0; for positive minutes, whole hours h and minutes m (0-59) with 60h + m ≤ minutes < 60h + m + 1, shown as "Mm" when h = 0 and "Hh" when m = 0 |
| Utils.ToolCostUntil | lib/utils.ts:163-197 | nothing for a tool starting after the end date; the full cost for a tool with an end date; otherwise cost × whole months for monthly, × whole quarters for quarterly, × whole calendar years for yearly, × whole 24-month spans for 24months, and 0 for any other period; never negative for a non-negative cost |
| Utils.ToolCostUntilMonotone | lib/utils.ts:163-197 | with a non-negative cost, a later end date never gives a tool a smaller contribution |
| Utils.CalculateClientToolCosts | lib/utils.ts:159-199 | the sum over the tools of each one's contribution up to the end date, never negative when no cost is |
| Utils.ClientToolCostsMonotone | lib/utils.ts:159-199 | with non-negative costs, a later end date never gives a smaller client total |
| Utils.CalculateWorkflowAutomationCost | lib/utils.ts:135-156 | the implementation cost once its date has passed, plus, when there are workflows and tools, the client's tool total divided by the workflow count; without workflows or tools only the implementation part |
| Utils.FormatPeriodDisplay | lib/utils.ts:202-215 | "yearly" reads "12 months", "24months" reads "24 months", any other text is shown as is |
| Utils.ReportValueMonotone | lib/utils.ts:218-226 | with non-negative parameters the report value is non-negative and grows with the executions |
| KPICardsBreakdown.ConfigFor | components/KPICardsBreakdown.tsx:41 | no configuration iff none carries the workflow id; otherwise the last configuration with that id, as a `Map` built from the list keeps it |
| KPICardsBreakdown.EarliestDeploymentDate | components/KPICardsBreakdown.tsx:44-49 | none iff no workflow has a deployment date; otherwise one of the workflows' dates, no later than any other |
| KPICardsBreakdown.ChargedPeriods | components/KPICardsBreakdown.tsx:85-100 | the periods charged after m months are never negative, and a yearly tool is charged at least one year |
| KPICardsBreakdown.ChargedPeriodsMonotone | components/KPICardsBreakdown.tsx:85-100 | for every period, more elapsed months never charge fewer periods |
| KPICardsBreakdown.ToolCostSinceStart | components/KPICardsBreakdown.tsx:59-101 | a one-time fee (not recurring, with an end date) costs its full amount iff now has reached the end date, else 0; any other tool costs 0 without an anchor, else cost × periods since its start date or the earliest deployment; never negative for a non-negative cost |
| KPICardsBreakdown.ToolCostSinceStartMonotone | components/KPICardsBreakdown.tsx:73-100 | a recurring tool's allocation never shrinks as months pass |
| KPICardsBreakdown.QuarterlyAllocatorsDiffer | components/KPICardsBreakdown.tsx:89-91 | against lib/utils.ts's aggregator, the quarterly allocation is one quarter higher exactly when the elapsed months are 2 mod 3, and equal otherwise |
| KPICardsBreakdown.YearlyAllocatorsDiffer | components/KPICardsBreakdown.tsx:92-94 | a yearly tool whose start is in the future is charged one year here and nothing by lib/utils.ts's aggregator |
| KPICardsBreakdown.OneTimeAllocatorsDiffer | components/KPICardsBreakdown.tsx:60-70 | a one-time fee before its end date costs nothing here but its full cost in lib/utils.ts's aggregator |
| KPICardsBreakdown.MonthlyAllocatorsAgree | components/KPICardsBreakdown.tsx:86-88 | for a monthly tool started in the past both allocators charge the same |
| KPICardsBreakdown.TwentyFourMonthAllocatorsDiffer | components/KPICardsBreakdown.tsx:95-97 | against lib/utils.ts's aggregator, the 24-month allocation is one period higher exactly when the elapsed months are 23 mod 24, and equal otherwise |
| KPICardsBreakdown.YearlyAllocatorsWithinOneYear | components/KPICardsBreakdown.tsx:92-94 | for a yearly tool started in an earlier year the two allocators differ by at most one year's cost, and agree in the start's own calendar month |
| KPICardsBreakdown.FrequencyPeriodsMonotone | components/KPICardsBreakdown.tsx:196-232 | the fractional periods (days, /7, /30.44, /91.25) are non-negative and grow with the days |
| KPICardsBreakdown.PerExecutionFormula | components/KPICardsBreakdown.tsx:167-182 | shown iff executions, minutes saved and hourly rate are all positive; then minutes = executions × minutes saved, hours = minutes / 60, cost = hours × rate; otherwise empty |
| KPICardsBreakdown.RecurringTaskFormula | components/KPICardsBreakdown.tsx:183-249 | shown iff minutes and rate are positive and the frequency is known; occurrences = fractional periods × (occurrences per period, 1 when missing or 0), then minutes, hours and cost; otherwise empty |
| KPICardsBreakdown.NewCapabilityFormula | components/KPICardsBreakdown.tsx:250-329 | strict priority: frequency value (an unknown frequency then gives nothing), else the conversion method equal to `calculateReportValue`, else value per execution with positive executions; each chosen iff its guard holds and no earlier one does |
| KPICardsBreakdown.GetFormula | components/KPICardsBreakdown.tsx:157-331 | empty without a configuration; otherwise the configuration's ROI type, else the workflow's, selects the method, and an unknown type is empty |
| KPICardsBreakdown.FormulaAmountNonNegative | components/KPICardsBreakdown.tsx:157-331 | with non-negative days, executions and occurrences no formula shows a negative amount |
| KPICardsBreakdown.PerExecutionNonNegative | components/KPICardsBreakdown.tsx:167-172 | the per-execution cost is never negative for non-negative executions |
| KPICardsBreakdown.RecurringTaskNonNegative | components/KPICardsBreakdown.tsx:183-232 | the recurring-task cost is never negative for non-negative days and occurrences |
| KPICardsBreakdown.NewCapabilityNonNegative | components/KPICardsBreakdown.tsx:250-322 | the new-capability value is never negative for non-negative days and executions |
| KPICardsBreakdown.PerExecutionMonotone | components/KPICardsBreakdown.tsx:168-172 | more successful executions never lower the per-execution labour cost |
| KPICardsBreakdown.RecurringTaskMonotone | components/KPICardsBreakdown.tsx:183-232 | a workflow deployed for more days never shows a lower recurring-task cost |
| KPICardsBreakdown.NewCapabilityMonotone | components/KPICardsBreakdown.tsx:250-297 | a workflow deployed for more days never shows a lower new-capability value |
| KPICardsBreakdown.PerExecutionAdditive | components/KPICardsBreakdown.tsx:167-172 | the per-execution cost is additive in the executions: two batches counted together cost the sum of the two batches |
| KPICardsBreakdown.UnknownFrequencyDoesNotFallThrough | components/KPICardsBreakdown.tsx:255-297 | for every workflow and configuration list: a new-capability configuration with a positive value per frequency but an unrecognised frequency shows nothing, whatever its conversion and per-execution values |
| KPICardsBreakdown.OneTimeFeeTools | components/KPICardsBreakdown.tsx:335-336 | sorted by name, and a permutation of the tools whose `recurring` is false |
| KPICardsBreakdown.CommonCostTools | components/KPICardsBreakdown.tsx:341-348 | sorted by name, and a permutation of the recurring tools whose lower-cased name contains database, hosting, supabase or llm tokens |
| KPICardsBreakdown.OtherTools | components/KPICardsBreakdown.tsx:349-356 | sorted by name, and a permutation of the remaining recurring tools |
| KPICardsBreakdown.ToolPartition | components/KPICardsBreakdown.tsx:335-356 | the three lists together hold exactly the tools with a `recurring` flag, each once per occurrence; a tool without the flag is in none |
| KPICardsBreakdown.LaborCostWorkflows | components/KPICardsBreakdown.tsx:363-368 | sorted by lower-cased name, and a permutation of the workflows with a positive labour saving |
| KPICardsBreakdown.ValueCreatedWorkflows | components/KPICardsBreakdown.tsx:369-374 | sorted by lower-cased name, and a permutation of the workflows with a positive value created |
| KPICardsBreakdown.LaborSubtotalIsPositivePart | components/KPICardsBreakdown.tsx:536 | the labour subtotal is the sum over all workflows of their positive labour savings |
| KPICardsBreakdown.ImplementationCostWorkflows | components/KPICardsBreakdown.tsx:375 | holds exactly the workflows whose applied, else base, implementation cost is positive, each as many times as in the input |
| KPICardsBreakdown.WorkflowItems | components/KPICardsBreakdown.tsx:378-384 | one development row per workflow, and the rows' costs sum to the workflows' implementation costs |
| KPICardsBreakdown.ToolItems | components/KPICardsBreakdown.tsx:385-391 | one development row per one-time fee, and the rows' costs sum to the fees |
| KPICardsBreakdown.AllDevelopmentItems | components/KPICardsBreakdown.tsx:377-397 | sorted by lower-cased name, and a permutation of the rows of the workflows with a cost followed by the rows of the one-time fees |
| KPICardsBreakdown.DisplayedTools | components/KPICardsBreakdown.tsx:936 | sorted by name, and a permutation of the common tools followed by the other tools |
| KPICardsBreakdown.BreakdownTotalsAgree | components/KPICardsBreakdown.tsx:452-458 | the ROI card's automation cost, the Automation Cost card (lines 731-734), and the development subtotal (line 808) plus the tools subtotal (line 906) are one number; the ROI is benefits minus it; the displayed tool rows add up to the tools subtotal |
| KPICardsBreakdown.DisplayedToolsTotal | components/KPICardsBreakdown.tsx:936-937 | re-sorting the recurring tools for display does not change their total |
| KPICardsBreakdown.DevelopmentSubtotalIsTotal | components/KPICardsBreakdown.tsx:808 | the subtotal over the merged, re-sorted development rows equals implementation costs plus one-time fees |
| KPICardsBreakdown.AutomationCostNonNegative | components/KPICardsBreakdown.tsx:731-734 | with non-negative tool costs the automation cost is never negative, so the ROI never exceeds the benefits |
| KPICards.ValueOr | components/KPICards.tsx:43-54 | a fulfilled fetch gives its value, a rejected one the default |
| KPICards.AfterFetch | components/KPICards.tsx:34-54 | each rejected fetch leaves its own default (no summary, empty lists, a count of 0, a client with no own fields) and each fulfilled fetch is used as it is: the summary, the workflow and configuration lists, the client record's fields, the tool list and the workflow count |
| KPICards.RejectionIsIsolated | components/KPICards.tsx:34-54 | rejecting any one of the six fetches changes only the part of the state it supplies, which takes its default; everything the other fetches returned is kept |
| KPICards.HoursSaved | components/KPICards.tsx:124-132 | the stored hours when non-zero, else the stored minutes over 60 when non-zero, else 0 |
| KPICards.SummaryFigures | components/KPICards.tsx:123-138 | each missing or zero column shows 0, the currency is GBP unless the view names one, and automation cost and net ROI are the view's own columns |
| KPICards.NetRoiIsTheViewColumn | components/KPICards.tsx:137-138 | the net ROI card does not depend on the labour, value or automation columns: it is not recomputed |
| KPICards.FormatCurrencyWithDecimal | components/KPICards.tsx:141-150 | a minus sign exactly for a negative value, the symbol, one decimal, and a "K" exactly from 1000 up |
| KPICards.WithDecimalRoundTrip | components/KPICards.tsx:141-150 | reading the sign, the magnitude and the "K" back gives the formatted value |
| KPICards.FormatCurrencyK | components/KPICards.tsx:153-160 | a "K" exactly from 1000 up; the grouped whole number is within half a unit (of thousands, with "K") of the magnitude; the sign appears only when the rounded value is negative |
| WorkflowROIBreakdown.RoiTypeBadge | components/WorkflowROIBreakdown.tsx:55-63 | a known ROI type gets its fixed caption and variant; any other text is shown as itself with the default variant |
| WorkflowROIBreakdown.KnownBadgesDistinct | components/WorkflowROIBreakdown.tsx:55-63 | two known ROI types never share a badge |
| WorkflowROIBreakdown.CardValue | components/WorkflowROIBreakdown.tsx:125 | the labour cost saved when non-zero, else the value created when non-zero, else 0 |
| WorkflowROIBreakdown.NetRoi | components/WorkflowROIBreakdown.tsx:128-129 | the card value less the applied implementation cost, and the card value itself when none is applied |
| WorkflowROIBreakdown.HoursSaved | components/WorkflowROIBreakdown.tsx:132 | positive exactly for positive minutes, and then the minutes over 60 |
| WorkflowROIBreakdown.ToCard | components/WorkflowROIBreakdown.tsx:120-233 | the card shows CardValue and NetRoi, is green exactly when the value covers the cost, and shows each cost part exactly when the breakdown is shown and that part is positive |
| WorkflowROIBreakdown.CardHeading | components/WorkflowROIBreakdown.tsx:45-122 | the card names the workflow, truncates names over 40 characters, defaults the currency to GBP, and shows a blue check exactly for a new capability |
| WorkflowROIBreakdown.CardSections | components/WorkflowROIBreakdown.tsx:185-233 | time saved is shown exactly for positive minutes outside new capabilities, executions exactly when positive, the cost breakdown exactly for a positive applied cost, the description exactly when present |
| WorkflowROIBreakdown.NetRoiIgnoresCostParts | components/WorkflowROIBreakdown.tsx:125-129 | changing the workflow cost or the setup-fee share never changes the net ROI |
| WorkflowROIBreakdown.CardAndTreemapValues | components/WorkflowROIBreakdown.tsx:125 | the card and the treemap show the same value unless labour cost and value created are both non-zero and differ |
| WorkflowROIBreakdown.TimeSavedNeverZeroHours | components/WorkflowROIBreakdown.tsx:185-189 | a card that shows time saved never shows "0h" |
| WorkflowROIContribution.WorkflowName | components/WorkflowROIContribution.tsx:98 | never empty: the workflow's name when it has one, else its id when non-empty, else "Unknown" |
| WorkflowROIContribution.RevenueSource | components/WorkflowROIContribution.tsx:101-103 | revenue mode takes the value created whenever it is non-zero, else the labour cost saved, else 0, and never adds the two |
| WorkflowROIContribution.ToItem | components/WorkflowROIContribution.tsx:97-119 | a cell's value is never negative, is positive exactly when the raw value is and then equals it, and its colour is the palette entry at the workflow's input position |
| WorkflowROIContribution.Items | components/WorkflowROIContribution.tsx:96-119 | one cell per workflow, in input order |
| WorkflowROIContribution.TreemapData | components/WorkflowROIContribution.tsx:95-121 | largest value first, only positive values, and a permutation of the positive cells |
| WorkflowROIContribution.TreemapDataContents | components/WorkflowROIContribution.tsx:95-121 | a cell is drawn iff it is the cell of some workflow with a positive value, coloured by that workflow's position before filtering and sorting |
| WorkflowROIContribution.CellSource | components/WorkflowROIContribution.tsx:120 | every drawn cell comes from a workflow with a positive value |
| WorkflowROIContribution.CellDrawn | components/WorkflowROIContribution.tsx:120-121 | every workflow with a positive value is drawn |
| WorkflowROIContribution.Currency | components/WorkflowROIContribution.tsx:143 | never empty: the first row's currency when it has one, else GBP |
| WorkflowROIContribution.MinutesDisplay | components/WorkflowROIContribution.tsx:178-192 | "0m" for under a minute; otherwise hours and minutes (0-59) that add back to the whole minutes |
| WorkflowROIContribution.MinutesDisplayAgreesWithFormatHours | components/WorkflowROIContribution.tsx:178-192 | from one minute up the cell label is exactly what lib/utils.ts's `formatHours` prints |
| WorkflowROIContribution.Layout | components/WorkflowROIContribution.tsx:195-209 | nothing exactly for a cell under a pixel or the root; text exactly in drawn cells over 60 × 30 px; there, one line exactly when the estimated text fits in the width less 20 px and the cell is over 120 px wide, else two lines |
| WorkflowROIContribution.SmallCellsSkipped | components/WorkflowROIContribution.tsx:152-160 | a cell under a pixel in either direction, or the root node, draws nothing, and every other cell is drawn |
| WorkflowROIContribution.LabelShownInLargeCells | components/WorkflowROIContribution.tsx:240-242 | a non-root cell over 60 × 30 px always has a label, on one line exactly when the full text fits a cell over 120 px wide |
| WorkflowROIContribution.TruncateName | components/WorkflowROIContribution.tsx:206-209 | a name that fits is shown whole; a longer one is cut to `maxChars - 3` characters plus "...", exactly `maxChars` long |
| WorkflowROIContribution.TruncatedNameFits | components/WorkflowROIContribution.tsx:206-209 | in a cell that shows text, a shown name is never longer than the cell holds unless it is the whole name |
| WorkflowROIContribution.OneLineNeedsNoTruncation | components/WorkflowROIContribution.tsx:196-207 | when the full text fits on one line the name is never truncated |
| WorkflowROIContribution.TooltipWidth | components/WorkflowROIContribution.tsx:401-403 | the width is kept within [200, 500] and is 7 px per character plus 72 within those bounds |
| WorkflowROIContribution.TooltipPlacement | components/WorkflowROIContribution.tsx:405-414 | the tooltip stays 10 px inside the left edge, and the right edge when the container is wide enough; it is 20 px left of the cursor unless clamped; its top is 40 px above the cursor, kept within [10, 350] |
| WorkflowROIContribution.HoveredMinutes | components/WorkflowROIContribution.tsx:375-376 | `find`: the minutes of the first drawn cell with the hovered name, and none when no cell has it |
| WorkflowStatsCards.CalculateSuccessRate | components/WorkflowStats.tsx:45-53 | the stored 24-hour rate rounded when present; otherwise 0 with no executions, and a whole percentage between 0 and 100 whenever successes do not exceed executions |
| WorkflowStatsCards.CountedRateIsNearest | components/WorkflowStats.tsx:49-52 | a rate counted from the totals lies within half a percent of the exact share of successes |
| WorkflowStatsCards.GetHealthColor | components/WorkflowStats.tsx:55-61 | green exactly from 95 up (the 99 branch adds nothing), yellow exactly on [90, 95), red exactly below 90 |
| WorkflowStatsCards.GetStatusIndicator | components/WorkflowStats.tsx:63-72 | a check icon exactly for a healthy rate, an alert otherwise, coloured with the rate's health status |
| WorkflowStatsCards.BarMatchesIcon | components/WorkflowStats.tsx:55-72 | for every rate the bar colour and the icon colour are the same tone |
| WorkflowStatsCards.ProgressWidth | components/WorkflowStats.tsx:188 | the bar never exceeds 100 percent and equals the rate whenever the rate is at most 100 |
| WorkflowStatsCards.CountedRateNeedsNoCap | components/WorkflowStats.tsx:45-53 | a rate counted from consistent totals is drawn uncapped |
| SuccessRateGauge.SuccessRate | components/SuccessRateGauge.tsx:104-115 | within 0.05 of successes / (successes + errors) × 100 when that total is positive, otherwise of the stored rate |
| SuccessRateGauge.SuccessRateBounds | components/SuccessRateGauge.tsx:104-111 | with non-negative counts and some executions the rate lies in [0, 100] |
| SuccessRateGauge.PercentageToAngle | components/SuccessRateGauge.tsx:137-144 | 0% is 180 degrees, 100% is 0 degrees, and [0, 100] maps into [0, 180] |
| SuccessRateGauge.AngleDecreasing | components/SuccessRateGauge.tsx:142-144 | a higher percentage never has a larger angle |
| SuccessRateGauge.NeedleAngle | components/SuccessRateGauge.tsx:257 | the needle caps the rate at 100: its angle is never negative and is the rate's angle up to 100 |
| SuccessRateGauge.KeptIffPositive | components/SuccessRateGauge.tsx:179-190 | a workflow is kept exactly when both its executions and its successes are positive |
| SuccessRateGauge.FindRoi | components/SuccessRateGauge.tsx:193 | `find`: the first ROI row with the workflow's id, or none iff no row has it |
| SuccessRateGauge.ToGaugeRow | components/SuccessRateGauge.tsx:191-199 | keeps the id and the three counts (0 when missing); the name is the first matching ROI row's non-empty name, else the workflow's non-empty name, else its non-empty id, else "Unknown" |
| SuccessRateGauge.ToGaugeRows | components/SuccessRateGauge.tsx:191-199 | one row per workflow, in order |
| SuccessRateGauge.WorkflowsWithExecutions | components/SuccessRateGauge.tsx:179-200 | most executions first, a permutation of the kept workflows' rows, each with positive executions and successes |
| SuccessRateGauge.IndexOfId | components/SuccessRateGauge.tsx:206 | the entry with the id, or the end of the list iff there is none |
| SuccessRateGauge.Deduplicate | components/SuccessRateGauge.tsx:202-216 | one entry per workflow id, every id covered, each entry the first row's name with the counts summed over all rows of its id, and the total executions unchanged |
| SuccessRateGauge.UniqueWorkflows | components/SuccessRateGauge.tsx:202-219 | most executions first, each with positive executions, and the merge of the kept rows: distinct ids, every id covered, each entry the first row's name with the counts summed over all rows of its id, the same total as before merging |
| SuccessRateGauge.SegmentBoundaries | components/SuccessRateGauge.tsx:223-240 | with executions: one boundary more than rows, starting at 0, ending at 100, the i-th being the running percentage; otherwise [0, 100] |
| SuccessRateGauge.LastBoundaryIsHundred | components/SuccessRateGauge.tsx:234-235 | overwriting the last boundary with 100 changes nothing in exact arithmetic |
| SuccessRateGauge.SegmentWidth | components/SuccessRateGauge.tsx:229-232 | each segment's width is its workflow's share of the executions, so boundaries never decrease |
| SuccessRateGauge.SegmentColor | components/SuccessRateGauge.tsx:245-254 | a segment has a colour iff it is among the first seven and within the segment count, and then the palette's colour at its index |
| SuccessRateGauge.ShowLabel | components/SuccessRateGauge.tsx:383-392 | a label is shown iff there are executions and the segment is at least 3% of them |
| ExecutionTrendChart.LocalHour | components/ExecutionTrendChart.tsx:78 | the local hour of a time is between 0 and 23 |
| ExecutionTrendChart.RoundedNow | components/ExecutionTrendChart.tsx:76-80 | the start of the current local two-hour slot: on an even local hour, at most two hours before now, in the same slot as now |
| ExecutionTrendChart.SlotHour | components/ExecutionTrendChart.tsx:79 | a bucket starts on an even hour between 0 and 22 |
| ExecutionTrendChart.SlotHourOfTime | components/ExecutionTrendChart.tsx:107-109 | an execution's local hour rounded down to even is the starting hour of its slot, so the key it is counted under is its slot |
| ExecutionTrendChart.HourLabel | components/ExecutionTrendChart.tsx:130-138 | a bucket's label is two decimal digits spelling the slot's own (even) hour, followed by ":00" |
| ExecutionTrendChart.Tally | components/ExecutionTrendChart.tsx:98-124 | a column of one bucket never counts more executions than were fetched |
| ExecutionTrendChart.EmptyBuckets | components/ExecutionTrendChart.tsx:83-95 | exactly the current slot and the eleven before it get a bucket, each starting at zero |
| ExecutionTrendChart.CountExecutions | components/ExecutionTrendChart.tsx:97-124 | no bucket is added, and each bucket ends with the number of windowed executions in its slot, successes and the rest apart |
| ExecutionTrendChart.HourlyData | components/ExecutionTrendChart.tsx:74-146 | twelve points, oldest first; point j is slot FirstSlot + j with its label and both of its tallies |
| ExecutionTrendChart.ChartTotal | components/ExecutionTrendChart.tsx:97-124 | the chart never holds more executions than were fetched |
| ExecutionTrendChart.BucketsAddUp | components/ExecutionTrendChart.tsx:97-124 | the twelve buckets together hold every windowed execution whose slot is shown, each exactly once |
| ExecutionTrendChart.ChartNeverOvercounts | components/ExecutionTrendChart.tsx:97-124 | the buckets together never exceed the number of executions fetched |
| ExecutionTrendChart.OldestTwoHoursAreDropped | components/ExecutionTrendChart.tsx:81-117 | an execution in the first two hours of the 24-hour window falls in the slot before the oldest bucket and is counted nowhere |
| ExecutionTrendChart.RestOfWindowIsShown | components/ExecutionTrendChart.tsx:81-117 | every other execution of the window is counted in some bucket |
| RecentExecutions.Names | components/RecentExecutions.tsx:70-72 | a name is listed exactly when some row carries it as a non-empty workflow name |
| RecentExecutions.Unique | components/RecentExecutions.tsx:70-72 | every value of the input appears exactly once and nothing else appears |
| RecentExecutions.WorkflowOptions | components/RecentExecutions.tsx:70-72 | the options are sorted and hold each non-empty workflow name of the data exactly once |
| RecentExecutions.WorkflowOptionsContents | components/RecentExecutions.tsx:70-72 | a name is offered if and only if some row carries it and it is non-empty |
| RecentExecutions.WorkflowOptionsDistinct | components/RecentExecutions.tsx:70-72 | no option is offered twice |
| RecentExecutions.FilteredData | components/RecentExecutions.tsx:74-88 | a row is shown exactly when it passes the workflow filter and, when work-done-only is on, has details not starting with "no"; each shown row appears as many times as in the fetched list |
| RecentExecutions.FilteredDataKeepsOrder | components/RecentExecutions.tsx:74-88 | the filter keeps the fetched (newest-first) order: the rows shown for a concatenation are those of each part, one after the other |
| RecentExecutions.WorkDoneOnlyNarrows | components/RecentExecutions.tsx:79-85 | turning on work-done-only only hides rows, never shows new ones |
| RecentExecutions.NotifiedCountsAsNoWork | components/RecentExecutions.tsx:82-84 | any details whose first two letters are "no" in any case (such as "Notified the client") are hidden as no work under every workflow filter, since only the prefix is checked |
| RecentExecutions.TotalPages | components/RecentExecutions.tsx:91 | the number of 20-row pages is the ceiling of the row count over 20 |
| RecentExecutions.Page | components/RecentExecutions.tsx:92-94 | a page holds at most 20 rows, exactly 20 before the last page, none past the end, and the rows starting at (page - 1) * 20 in order |
| RecentExecutions.PagesPartition | components/RecentExecutions.tsx:91-94 | the pages laid end to end are the filtered list: every row on exactly one page, in order |
| RecentExecutions.PrevPage | components/RecentExecutions.tsx:253 | "Previous" never goes below page 1 and otherwise moves back one page |
| RecentExecutions.NextPage | components/RecentExecutions.tsx:262 | "Next" never goes past the last page and otherwise moves forward one page |
| RecentExecutions.PageButtonsStayInRange | components/RecentExecutions.tsx:253-262 | from a page in range both buttons lead to a page in range |
| RecentExecutions.ShowingRange | components/RecentExecutions.tsx:247 | the "Showing a-b of n" figures never exceed n and, on a page in range, describe 1 to 20 rows |
| RecentExecutions.ActiveFilterCount | components/RecentExecutions.tsx:96 | at most 3, and 0 exactly when status and workflow are "all" and work-done-only is off |
| RecentExecutions.ClearAllFilters | components/RecentExecutions.tsx:98-102 | the filters return to the initial ones except the number of days, which is kept; one filter (work-done-only) stays active |
| RecentExecutions.ClearAllIdempotent | components/RecentExecutions.tsx:98-102 | clearing twice is the same as clearing once |
| RecentExecutions.FetchRequest | components/RecentExecutions.tsx:42-47 | the fetch asks for 100 rows of the chosen days and passes the status exactly when it is not "all" |
| ExecutionHistoryTable.Cleaned | components/ExecutionHistoryTable.tsx:123-128 | the trimmed message when it does not look like JSON, and the fixed JSON notice exactly when it does; so the text shown never starts with "{" or "[" |
| ExecutionHistoryTable.JsonMessageIsClean | components/ExecutionHistoryTable.tsx:127 | the replacement text itself survives the clean-up: it neither looks like JSON nor has surrounding blanks |
| ExecutionHistoryTable.ExtractErrorMessage | components/ExecutionHistoryTable.tsx:91-128 | the message is the one chosen from the thrown value by the source's order of checks, then cleaned up |
| ExecutionHistoryTable.CleanUp | components/ExecutionHistoryTable.tsx:124-128 | the step-by-step clean-up yields exactly the cleaned message |
| ExecutionHistoryTable.DefaultIsClean | components/ExecutionHistoryTable.tsx:91 | the default text passes the clean-up unchanged |
| ExecutionHistoryTable.CleanTextIsKept | components/ExecutionHistoryTable.tsx:124-128 | a non-empty text without surrounding blanks that does not look like JSON is shown as it is |
| ExecutionHistoryTable.NothingUsableShowsDefault | components/ExecutionHistoryTable.tsx:91-121 | an empty error message, a thrown null or number, a non-text non-object `message`, or an object with neither usable key shows the default text |
| ExecutionHistoryTable.MessageKeyWins | components/ExecutionHistoryTable.tsx:98-101 | a non-blank string `message` is shown trimmed whatever the `error` key holds |
| ExecutionHistoryTable.BlankMessageIgnoresErrorKey | components/ExecutionHistoryTable.tsx:98-110 | a blank string `message` shows the default text: the `error` key is never consulted once `message` exists |
| ExecutionHistoryTable.ObjectMessageIsReplaced | components/ExecutionHistoryTable.tsx:102-128 | a non-null object or array `message` is never shown: its JSON text is always replaced by the fixed text (a `null` message shows "null") |
| ExecutionHistoryTable.DetailsCell | components/ExecutionHistoryTable.tsx:306-311 | "-" for missing or empty details, the text itself up to 100 characters, otherwise its first 100 characters followed by "..." |
| ExecutionHistoryTable.HistoryTable.constructor | components/ExecutionHistoryTable.tsx:24-37 | a fresh table filters nothing, covers the last day, is on page 1 with nothing loaded, and its remembered filters equal the current ones |
| ExecutionHistoryTable.HistoryTable.TotalPages | components/ExecutionHistoryTable.tsx:166 | the number of 20-row pages is the ceiling of the server's count over 20 |
| ExecutionHistoryTable.HistoryTable.ActiveFilterCount | components/ExecutionHistoryTable.tsx:168 | at most 3, and 0 exactly when status and workflow are "all" and the days are 1 |
| ExecutionHistoryTable.HistoryTable.ShowingLine | components/ExecutionHistoryTable.tsx:322-325 | with any filter active it reports the rows received and the total; otherwise the current page's first and last row numbers, never past the total and at most 20 apart on a page in range |
| ExecutionHistoryTable.HistoryTable.SetStatusFilter | components/ExecutionHistoryTable.tsx:29 | only the status filter changes |
| ExecutionHistoryTable.HistoryTable.SetWorkflowFilter | components/ExecutionHistoryTable.tsx:30 | only the workflow filter changes |
| ExecutionHistoryTable.HistoryTable.SetDaysFilter | components/ExecutionHistoryTable.tsx:31 | only the days filter changes |
| ExecutionHistoryTable.HistoryTable.ClearAllFilters | components/ExecutionHistoryTable.tsx:170-174 | all three filters return to their defaults, leaving no active filter; the page and the data are untouched until the next fetch |
| ExecutionHistoryTable.HistoryTable.RunEffect | components/ExecutionHistoryTable.tsx:40-75 | a filter change resets the page to 1 and remembers the filters, a page change alone keeps the page; the request asks for 20 rows from offset (page - 1) * 20 for the chosen days, with status and workflow only when not "all" |
| ExecutionHistoryTable.HistoryTable.ReceivePage | components/ExecutionHistoryTable.tsx:86-88 | the rows and the count received are stored and the error cleared; filters and page are kept |
| ExecutionHistoryTable.HistoryTable.ReceiveFailure | components/ExecutionHistoryTable.tsx:89-132 | the extracted message is stored, never looking like JSON, and the rows, count and page total drop to nothing |
| ExecutionHistoryTable.HistoryTable.ShowFailure | components/ExecutionHistoryTable.tsx:130-132 | the given message becomes the error, and the rows, count and page total drop to nothing; filters and page are kept |
| ExecutionHistoryTable.HistoryTable.FirstPage | components/ExecutionHistoryTable.tsx:331 | the page becomes 1 and nothing else changes |
| ExecutionHistoryTable.HistoryTable.PreviousPage | components/ExecutionHistoryTable.tsx:340 | the page moves back one, never below 1 |
| ExecutionHistoryTable.HistoryTable.NextPage | components/ExecutionHistoryTable.tsx:352 | the page moves forward one, never past the last page |
| ExecutionHistoryTable.HistoryTable.LastPage | components/ExecutionHistoryTable.tsx:361 | the page becomes the last page |
| ExecutionHistoryTable.ServerPageMatchesClientPage | lib/supabase.ts:58-72 | the rows the server returns for page p's range are exactly the rows a client-side table shows on its page p of the same list |
| ExecutionHistoryTable.ButtonsStayInRange | components/ExecutionHistoryTable.tsx:328-365 | from a page in range each of the four buttons leads to a page in range |
| ExecutionHistoryTable.FilterChangeFetchesFirstPage | components/ExecutionHistoryTable.tsx:41-53 | changing a filter on a later page lands on page 1 and fetches from offset 0 |
| ExecutionHistoryTable.PageChangeKeepsFilters | components/ExecutionHistoryTable.tsx:41-61 | moving to the next page with the filters unchanged fetches that page and keeps the filters remembered |
| SupabaseQueries.BuildExecutionQuery | lib/supabase.ts:20-83 | the query is for the client; a start bound exactly for a non-zero number of days, that many days before now; status and workflow only when non-empty; a row range for an offset with a limit, otherwise at most 1000 rows (1000 by default with days, 100 without) |
| SupabaseQueries.SelectRows | lib/supabase.ts:58-72 | a limit picks that many leading rows (fewer at the end) and always a prefix; a range picks the rows from its start to its inclusive end, in order; never more rows than there are |
| SupabaseQueries.ExecutionResult | lib/supabase.ts:76-82 | the rows returned, or none when the answer had none, and the count, or 0 when missing |
| SupabaseQueries.ToInsertRow | lib/supabase.ts:201-223 | the inserted row carries the tool's cost, empty period and currency become null, recurring unless explicitly false, always enabled, the end date only when set, the start date (null when empty) only for a tool not explicitly one-time |
| SupabaseQueries.UpdateClientTools | lib/supabase.ts:185-233 | the stored rows are deleted first and then exactly one row is inserted per tool, in order |
| SupabaseQueries.StoredAfter | lib/supabase.ts:185-233 | after an update the client's rows are exactly the inserted ones |
| SupabaseQueries.EmptySaveClearsTools | lib/supabase.ts:190-199 | saving an empty list leaves the client with no tools |
| SupabaseQueries.SavedRecordInsertedAsSaved | lib/supabase.ts:201-223 | a record normalised by the editor's save is stored with the same recurring flag and start date; a one-time fee keeps its end date and has no start date or period |
| ToolCostManager.DefaultTool | components/admin/ToolCostManager.tsx:32-66 | the four defaults in order, each marked default; only the audit fee is not recurring; only the first two start enabled |
| ToolCostManager.GetMonthlyPrice | components/admin/ToolCostManager.tsx:78-87 | a twelfth of a yearly price, a 24th of a 24-month price, a monthly price as is, and 0 for any other period (quarterly included) |
| ToolCostManager.MonthlyHint | components/admin/ToolCostManager.tsx:422-444 | the hint is shown iff the row is enabled (a disabled row has no edit panel), not explicitly one-time and has a period, and then reads the rounded monthly price |
| ToolCostManager.LastByName | components/admin/ToolCostManager.tsx:113-116 | none iff no stored tool has the lower-cased name; otherwise the last stored tool with that name, as a `Map` built from the list keeps it |
| ToolCostManager.DefaultRow | components/admin/ToolCostManager.tsx:118-134 | a default row keeps its default position and name; it is the default itself (enabled for the first two) when nothing stored matches; otherwise the stored tool, enabled, with its end date replaced by the default's only when the fallback applies and the stored one is empty |
| ToolCostManager.DefaultRows | components/admin/ToolCostManager.tsx:118-134 | exactly four rows, the i-th being the i-th default's row |
| ToolCostManager.CustomRows | components/admin/ToolCostManager.tsx:136-148 | never more rows than stored tools, and none of them a default |
| ToolCostManager.CustomRowsContents | components/admin/ToolCostManager.tsx:136-148 | the custom rows are exactly the stored tools whose names are not defaults (ignoring case), each enabled |
| ToolCostManager.MergedDefaultsFirst | components/admin/ToolCostManager.tsx:118-148 | in the merged rows the four defaults come first, in order, and no later row is a default |
| ToolCostManager.MergeRows | components/admin/ToolCostManager.tsx:109-148 | the loop that appends the custom tools builds exactly the merged rows, defaults first |
| ToolCostManager.Normalise | components/admin/ToolCostManager.tsx:244-268 | name and cost kept; currency falls back to the client's; a row with an end date becomes a one-time fee (not recurring, no period, no start-date key); any other row is recurring and an empty start date becomes null |
| ToolCostManager.SaveList | components/admin/ToolCostManager.tsx:244-268 | every enabled row is sent normalised, and nothing else is sent |
| ToolCostManager.SaveListKeepsOrder | components/admin/ToolCostManager.tsx:244-268 | a save keeps the rows' order: a single row is sent exactly when enabled, and a concatenation sends each part's rows in turn |
| ToolCostManager.EnabledTools | components/admin/ToolCostManager.tsx:336 | only enabled rows' records, as they stand, at most one per row |
| ToolCostManager.EnabledToolsKeepsOrder | components/admin/ToolCostManager.tsx:336 | the enabled records keep the rows' order: one row's record is kept exactly when enabled, and a concatenation keeps each part's records in turn |
| ToolCostManager.EnabledToolsContents | components/admin/ToolCostManager.tsx:336 | a record is in the list exactly when it is the record of an enabled row |
| ToolCostManager.LastByNameDistinct | components/admin/ToolCostManager.tsx:339-344 | with distinct names the lookup by a record's own name finds that record |
| ToolCostManager.UnchangedAgainstItself | components/admin/ToolCostManager.tsx:335-352 | a list of distinctly named records compared with itself has no changes |
| ToolCostManager.SaveListDistinct | components/admin/ToolCostManager.tsx:244-268 | normalising for save keeps row names distinct |
| ToolCostManager.SavedListHasNoChanges | components/admin/ToolCostManager.tsx:335-352 | the corrected test (what a save sends against the originals) reports nothing right after a save |
| ToolCostManager.ChangesReportedAfterSave | components/admin/ToolCostManager.tsx:335-352 | as written, on a client with no stored tools the test still reports changes right after a successful save |
| ToolCostManager.FreshClientRows | components/admin/ToolCostManager.tsx:118-134 | with no stored tools the rows are exactly the four defaults |
| ToolCostManager.StillChangedAfterSave | components/admin/ToolCostManager.tsx:347-350 | a default row with no start date against its saved copy (start date null) counts as changed |
| ToolCostManager.ApplyEdit | components/admin/ToolCostManager.tsx:183-196 | each input rewrites only its own field; an emptied start date becomes null |
| ToolCostManager.AppendCustomRow | components/admin/ToolCostManager.tsx:214-222 | appending a new non-default row with a fresh name keeps the defaults leading and the names distinct |
| ToolCostManager.ToolCostEditor.constructor | components/admin/ToolCostManager.tsx:69-75 | no rows, no originals, no error, currency GBP, empty name input |
| ToolCostManager.ToolCostEditor.Load | components/admin/ToolCostManager.tsx:89-170 | the currency falls back to GBP; on success the stored tools become the originals and the rows their merge; on failure only the error is set |
| ToolCostManager.ToolCostEditor.ToggleEnabled | components/admin/ToolCostManager.tsx:172-181 | flips that row's enabled flag and changes nothing else |
| ToolCostManager.ToolCostEditor.ChangeTool | components/admin/ToolCostManager.tsx:183-196 | applies the edit to that row's record and changes nothing else |
| ToolCostManager.ToolCostEditor.SetCustomToolName | components/admin/ToolCostManager.tsx:75 | sets the name input and nothing else |
| ToolCostManager.ToolCostEditor.AddCustomTool | components/admin/ToolCostManager.tsx:198-226 | an empty trimmed name or a name already used (ignoring case) is refused with its message; otherwise one enabled, recurring, yearly row at cost 0 is appended and the input cleared; names stay distinct |
| ToolCostManager.ToolCostEditor.AppendTool | components/admin/ToolCostManager.tsx:212-225 | an unused name gets one new enabled, recurring, yearly row at cost 0 at the end, the input is cleared, and default rows still lead with distinct names kept distinct |
| ToolCostManager.ToolCostEditor.Refuse | components/admin/ToolCostManager.tsx:199-210 | a refused addition changes only the error message |
| ToolCostManager.ToolCostEditor.RemoveCustomTool | components/admin/ToolCostManager.tsx:228-236 | a default row is refused with a message; otherwise exactly that row goes and the rest keep their order |
| ToolCostManager.ToolCostEditor.Save | components/admin/ToolCostManager.tsx:238-293 | sends the normalised enabled rows; on success they become the originals, on failure only the error is set; the rows are left as they are |
| ToolCostManager.ToolCostEditor.Cancel | components/admin/ToolCostManager.tsx:295-333 | rebuilds the rows from the originals (without the load's end-date fallback) and clears the error and the name input |
| ToolCostManager.SaveThenNoUnsavedChanges | components/admin/ToolCostManager.tsx:238-293 | with the corrected test and distinct row names, a successful save leaves nothing unsaved |
| ROIWorkflowForm.ParseFloatOr | components/admin/ROIWorkflowForm.tsx:124 | `parseFloat(x) \|\| d`: the typed number unless it is empty or 0, else the default |
| ROIWorkflowForm.ParseIntOr | components/admin/ROIWorkflowForm.tsx:130 | `parseInt(x) \|\| d`: the truncated number unless the input is empty or truncates to 0, else the default |
| ROIWorkflowForm.InitialForm | components/admin/ROIWorkflowForm.tsx:38-110 | without a configuration: per_execution, empty inputs, implementation cost 0, 1 occurrence, 5 work days; with one: its ROI type, its frequency for both frequency inputs, its dates, notes and description (empty when missing), each stored number in its input, and the defaults 0, 1 and 5 or an empty input for a missing number |
| ROIWorkflowForm.NullIfEmpty | components/admin/ROIWorkflowForm.tsx:122 | `s \|\| null`: null iff the text is empty, else the text |
| ROIWorkflowForm.BuildConfig | components/admin/ROIWorkflowForm.tsx:118-153 | the common keys always; per_execution adds only minutes and rate, recurring_task only frequency, occurrences, minutes, rate and work days (with defaults 0, 1 and 5); new_capability adds, in strict priority, frequency value, else the three conversion inputs, else the value per execution, plus the description; any other type adds nothing |
| ROIWorkflowForm.ChooseAction | components/admin/ROIWorkflowForm.tsx:155-159 | an update iff there is an existing configuration with an id, of that id; a create otherwise |
| ROIWorkflowForm.ResubmitPerExecution | components/admin/ROIWorkflowForm.tsx:38-153 | opening a stored per-execution configuration and submitting it unchanged writes back its non-zero minutes (when whole) and rate, its implementation cost, and no value keys |
| DesignTokens.HexDigitValue | lib/design-tokens.ts:14 | a value exactly for the characters of `[a-f\d]` read case-insensitively, and then below 16 |
| DesignTokens.HexDigitValueInverse | lib/design-tokens.ts:14 | reading a hexadecimal digit and writing the value back gives the digit upper-cased |
| DesignTokens.HexByte | lib/design-tokens.ts:14-18 | two hexadecimal digits are read as one byte, below 256 |
| DesignTokens.ParseHexColor | lib/design-tokens.ts:14-15 | a colour is recognised exactly when, after an optional '#', six hexadecimal digits remain, and then gives three bytes below 256 |
| DesignTokens.RgbText | lib/design-tokens.ts:19 | the result is CSS text of the form `rgb(...)` |
| DesignTokens.HexToRgb | lib/design-tokens.ts:13-20 | text that is not a hex colour is returned unchanged; a hex colour becomes `rgb(...)` text |
| DesignTokens.HexDigitChar | lib/design-tokens.ts:14 | the digit written for a value below 16 reads back as that value |
| DesignTokens.ParseHexColorRoundTrip | lib/design-tokens.ts:13-20 | reading a colour written in hex, with or without its '#', gives back its three bytes, and `hexToRgb` prints exactly those bytes |
| DesignTokens.ParseIgnoresCase | lib/design-tokens.ts:14 | lower-casing the input never changes what is read |
| DesignTokens.Computed | lib/design-tokens.ts:35-47 | an entry built from a hex colour carries `hexToRgb` of that colour as its rgb text |
| DesignTokens.ChartsTitleConsistent | lib/design-tokens.ts:328-335 | the chart title colour is a valid hex colour and its rgb text is computed from it |
| DesignTokens.HeaderGroupConsistent | lib/design-tokens.ts:278-291 | each hand-written header entry's rgb text is what `hexToRgb` makes of its hex |
| DesignTokens.BordersGroupConsistent | lib/design-tokens.ts:300-313 | each hand-written border entry's rgb text is what `hexToRgb` makes of its hex |
| DesignTokens.KpiGroupConsistent | lib/design-tokens.ts:314-327 | each hand-written KPI accent's rgb text is what `hexToRgb` makes of its hex |
| DesignTokens.DashboardEntryConsistent | lib/design-tokens.ts:277-344 | any one dashboard entry's rgb text is what `hexToRgb` makes of its hex |
| DesignTokens.DashboardColorsConsistent | lib/design-tokens.ts:277-344 | every dashboard entry's hand-written rgb text agrees with its hex |
| DesignTokens.TreemapEntryConsistent | lib/design-tokens.ts:349-386 | any one treemap entry's rgb text is what `hexToRgb` makes of its hex |
| DesignTokens.TreemapColorsConsistent | lib/design-tokens.ts:349-386 | every treemap entry's hand-written rgb text agrees with its hex |
| DesignTokens.TreemapRgb | components/WorkflowROIContribution.tsx:21 | the treemap's colour `i` is the table's rgb text, which is `hexToRgb` of a valid six-digit hex colour |
| DesignTokens.TablesShareThePalette | lib/design-tokens.ts:277-386 | the treemap reuses the main palette's primary colours 1-4 and secondary 5-6; header and primary text use the palette title colour; the KPI accents are the default green and red |
| DesignTokens.ColorsAggregate | lib/design-tokens.ts:391-423 | `Colors` holds all four tables: the quick-access lists are the main palette's first three groups, the treemap table (six entries) and the dashboard table are the ones checked against `hexToRgb` |
| N8nErrorDetails.JoinContains | n8n-workflows/QUICK_FIX_add_error_details.js:61-63 | every part joined with " \| " appears in the joined text |
| N8nErrorDetails.NodeParts | n8n-workflows/QUICK_FIX_add_error_details.js:49-58 | at most one part per node of the run data |
| N8nErrorDetails.ErrorDetails | n8n-workflows/QUICK_FIX_add_error_details.js:33-63 | the parts collected check by check (main error, last node, each node whose first run failed) joined with " \| ", or the fixed fallback when there are none |
| N8nErrorDetails.NodeErrorParts | n8n-workflows/QUICK_FIX_add_error_details.js:49-58 | the loop over the run data collects exactly one "node: message" part per node whose first run has an error, in visiting order |
| N8nErrorDetails.PartsAreNonEmpty | n8n-workflows/QUICK_FIX_add_error_details.js:36-58 | no collected part is ever empty |
| N8nErrorDetails.FailedNodeIsReported | n8n-workflows/QUICK_FIX_add_error_details.js:51-56 | a node whose first run has an error always contributes its "node: message" part |
| N8nErrorDetails.DetailsNameFailedNode | n8n-workflows/QUICK_FIX_add_error_details.js:51-63 | the details text of such an execution contains that node's "node: message" part |
| N8nErrorDetails.Duration | n8n-workflows/QUICK_FIX_add_error_details.js:23-26 | a duration exactly when both timestamps are present, and then stop minus start |
| N8nErrorDetails.StampText | n8n-workflows/QUICK_FIX_add_error_details.js:75-76 | the timestamp text when present, null otherwise |
| N8nErrorDetails.DetailsText | n8n-workflows/QUICK_FIX_add_error_details.js:61-63 | a failed execution's details are never empty: the fallback when nothing was collected, otherwise the collected parts joined with " \| " |
| N8nErrorDetails.ToRecord | n8n-workflows/QUICK_FIX_add_error_details.js:68-81 | the record carries the client, workflow and status as given, the id as text, `finished` only when true, mode and timestamps null when empty, the duration, and non-empty details exactly for the status "error" |
| N8nErrorDetails.TransformExecution | n8n-workflows/QUICK_FIX_add_error_details.js:22-81 | the step-by-step build of one record yields exactly that record |
| N8nErrorDetails.Kept | n8n-workflows/QUICK_FIX_add_error_details.js:14-20 | never more executions than came in |
| N8nErrorDetails.KeptExactlyTracked | n8n-workflows/QUICK_FIX_add_error_details.js:17-20 | an execution is kept exactly when it came in and its workflow is tracked |
| N8nErrorDetails.Transform | n8n-workflows/QUICK_FIX_add_error_details.js:9-88 | one record per execution of a tracked workflow, in input order, or the single skip marker when there is none |

## Left out

- Utils.FormatHours: the contract covers 0 and positive minutes only; for negative minutes the source prints negative parts (-30 gives "-1h -30m"), and the model states nothing about them.
- Rendering, styling, hover and open state, and the page shells: this is presentation only.
- Every Supabase query and its answer, `Promise.allSettled`, the window focus listener, `alert` / `confirm` and console logging. These are I/O. Only the decisions made before and after a query are modelled.
- The paginated fetch loop of the trend chart (components/ExecutionTrendChart.tsx:40-59) and its error text. This is I/O; the chart is modelled from the fetched rows on.
- The error-message chains around fetches in KPICards (components/KPICards.tsx:63-75) and RecentExecutions (components/RecentExecutions.tsx:50-60). These are I/O error handling. The richer chain in ExecutionHistoryTable is modelled.
- Gauge trigonometry and SVG paths (components/SuccessRateGauge.tsx:147-175, 258-285). This is floating-point geometry; only `percentageToAngle` and the needle angle are modelled.
- IEEE-754 arithmetic, NaN and `Infinity`: money is exact `real` and `Math.round` is rounding half up. `tool.cost || 0` is the cost itself, because only NaN would differ.
- `toFixed`, `toLocaleString`, `toLocaleTimeString`, `formatDate`, `formatDateTime`, `cn`, `formatDurationHours` and `formatDurationMinutes`. These are locale and date formatting. Fixed and grouped numbers are abstract pieces of the rendered text.
- `parseInt`, `parseFloat` and `Date` parsing. A typed number in a form input is assumed to parse; a date is given with its timestamp and its local year and month.
- The local time zone is a fixed offset from UTC, so daylight-saving changes are not modelled. Each trend bucket is identified by its slot number rather than by its date-and-hour key, which that slot determines.
- `for…in` over the n8n run data is taken to visit the nodes in the order given.
- A thrown value in ExecutionHistoryTable is described by the `Thrown` datatype, and `JSON.stringify` of an object message is an input.
- `getMonthsSinceDeployment` (components/KPICardsBreakdown.tsx:52-57) is never called.
- The text of the breakdown's formula tooltips is not modelled; each formula is given by its figures. The tool list's per-row display (components/KPICardsBreakdown.tsx:938-986) is not modelled either.
- Common.Lower, Common.Upper and Common.IsSpace: only ASCII letters change case and only the ASCII blanks count as white space. JavaScript's `toLowerCase`, `toUpperCase` and `trim` follow Unicode, so "CAFÉ" and "café" are different names here, and a no-break space (U+00A0) or a byte-order mark (U+FEFF) at either end is not trimmed. Lengths count one character per code point, where JavaScript counts UTF-16 code units, so an emoji counts as 1 here and as 2 in JavaScript.
- Common.Trim: cuts only the ASCII blanks, as explained for Common.IsSpace.
- Utils.GetCurrencySymbol: upper-cases only ASCII letters before the table lookup.
- ToolCostManager.IsDefaultName and ToolCostManager.NameTaken: compare names lower-cased in ASCII only, so names differing in the case of a non-ASCII letter ("CAFÉ", "café") are not taken for the same name.
- KPICardsBreakdown.IsCommonCostName: lower-cases the tool name in ASCII only.
- ExecutionHistoryTable.DetailsCell: the 100-character threshold counts code points, not UTF-16 code units.
- WorkflowROIContribution.TruncateName: the name length and the cut count code points, not UTF-16 code units.
- WorkflowROIBreakdown.CardHeading: the 40-character threshold counts code points, not UTF-16 code units.
- `localeCompare` is modelled as code-unit order. Sorts are stated as sorted and a permutation; their stability is not stated.
- Looking up a `roi_type` such as "constructor" or "toString" in an object literal reaches JavaScript prototype members; these are treated as unknown types.
- The workflow-name dropdown of ExecutionHistoryTable (components/ExecutionHistoryTable.tsx:141-159) uses the same expression as `RecentExecutions.WorkflowOptions`, over a query built by `SupabaseQueries.BuildExecutionQuery` with a limit of 1000. It has no member of its own.
- KPICards.FormatCurrencyK: `.replace(/\.00$/, '')` is not modelled. It is applied to `formatCurrency`'s text, which is a whole number and never ends in ".00", so the replace never changes anything.
- The hours and execution-count text of the KPI cards is left out. Only the figures are modelled.

## Findings

| source | as written | input that shows it | evidently intended | confidence | as-written member | corrected member |
|---|---|---|---|---|---|---|
| components/admin/ToolCostManager.tsx:335-352 | `hasChanges` compares the enabled rows as they stand with the stored list, and a save stores the normalised rows | a client with no stored tools, saved once: the default Hosting row has no `start_date` key while its saved copy has `start_date: null`, and `!==` tells them apart | right after a successful save the editor reports no unsaved changes | not executed | ToolCostManager.ChangesReportedAfterSave | ToolCostManager.SavedListHasNoChanges |
