/**
 * The figures behind the "View Details" breakdown of the KPI cards
 * (components/KPICardsBreakdown.tsx): the earliest deployment date, the
 * per-tool cost allocation since its anchor date, the per-workflow value
 * formula, the partition of the client's tools, and the totals shown on the
 * ROI card, the Automation Cost card and the two subtotals.
 *
 * "Now" is a parameter. The formula text is abstracted to the figures it
 * prints; an empty formula is `NoFormula`.
 */
module KPICardsBreakdown {
  import opened Common
  import opened Types
  import Utils

  // ----- inputs -----

  /** `configMap.get(id)`: the last configuration for the workflow, as a `Map` built from the list keeps it. */
  function ConfigFor(configs: seq<WorkflowROIConfig>, id: string): (r: Option<WorkflowROIConfig>)
    ensures r.None? <==> forall i :: 0 <= i < |configs| ==> configs[i].workflowId != id
    ensures r.Some? ==>
      exists i :: 0 <= i < |configs| && configs[i] == r.value && r.value.workflowId == id &&
        (forall j :: i < j < |configs| ==> configs[j].workflowId != id)
    decreases |configs|
  {
    if configs == [] then None
    else
      var last := configs[|configs| - 1];
      if last.workflowId == id then Some(last)
      else ConfigFor(configs[..|configs| - 1], id)
  }

  /**
   * The earliest non-null deployment date among the workflows
   * (components/KPICardsBreakdown.tsx:44-49); none when no workflow has one.
   */
  function EarliestDeploymentDate(workflows: seq<WorkflowROICalculated>): (r: Option<Date>)
    ensures r.None? <==> forall i :: 0 <= i < |workflows| ==> workflows[i].deploymentDate.None?
    ensures r.Some? ==> exists i :: 0 <= i < |workflows| && workflows[i].deploymentDate == r
    ensures r.Some? ==> forall i :: 0 <= i < |workflows| && workflows[i].deploymentDate.Some? ==>
      r.value.time <= workflows[i].deploymentDate.value.time
  {
    if workflows == [] then None
    else
      var rest := EarliestDeploymentDate(workflows[1..]);
      var first := workflows[0].deploymentDate;
      assert forall i :: 1 <= i < |workflows| ==> workflows[i] == workflows[1..][i - 1];
      if first.None? then rest
      else if rest.Some? && rest.value.time < first.value.time then rest
      else first
  }

  // ----- calculateToolCostSinceStart (components/KPICardsBreakdown.tsx:59-101) -----

  /** A one-time fee as this component recognises it: explicitly not recurring, with an end date. */
  predicate IsOneTimeFee(tool: ClientToolCost) {
    tool.recurring == Some(false) && tool.endDate.Some?
  }

  /** The date a recurring tool is charged from: its own start date, else the earliest deployment. */
  function Anchor(tool: ClientToolCost, earliest: Option<Date>): Option<Date> {
    if tool.startDate.Defined? then Some(tool.startDate.value) else earliest
  }

  /** The number of periods charged for a tool `m` whole months after its anchor. */
  function ChargedPeriods(period: Option<Period>, m: int): (k: int)
    ensures k >= 0
    ensures period == Some(EveryYear) ==> k >= 1
  {
    match period
    case None => 0
    case Some(EveryMonth) => MaxInt(0, m)
    case Some(EveryQuarter) => MaxInt(0, (m + 1) / 3)
    case Some(EveryYear) => MaxInt(1, (m + 1) / 12)
    case Some(Every24Months) => MaxInt(0, (m + 1) / 24)
  }

  lemma ChargedPeriodsMonotone(period: Option<Period>, m1: int, m2: int)
    requires m1 <= m2
    ensures ChargedPeriods(period, m1) <= ChargedPeriods(period, m2)
  {
  }

  /**
   * A tool's accumulated cost up to `now`. A one-time fee costs its full
   * amount once `now` has reached its end date and nothing before; any
   * other tool is charged per period since its anchor, and nothing when it
   * has no anchor.
   */
  function ToolCostSinceStart(tool: ClientToolCost, earliest: Option<Date>, now: Date): (c: real)
    ensures IsOneTimeFee(tool) ==> (c == tool.cost <==> now.time >= tool.endDate.value.time || tool.cost == 0.0)
    ensures IsOneTimeFee(tool) && now.time < tool.endDate.value.time ==> c == 0.0
    ensures !IsOneTimeFee(tool) && Anchor(tool, earliest).None? ==> c == 0.0
    ensures !IsOneTimeFee(tool) && Anchor(tool, earliest).Some? ==>
      c == Scale(tool.cost, ChargedPeriods(tool.period, MonthDiff(Anchor(tool, earliest).value, now)))
    ensures tool.cost >= 0.0 ==> c >= 0.0
  {
    if IsOneTimeFee(tool) then
      (if now.time >= tool.endDate.value.time then tool.cost else 0.0)
    else
      var base := Anchor(tool, earliest);
      if base.None? then 0.0
      else Scale(tool.cost, ChargedPeriods(tool.period, MonthDiff(base.value, now)))
  }

  /**
   * For a recurring tool with a non-negative cost, the allocation never
   * shrinks as more months pass.
   */
  lemma {:induction false} ToolCostSinceStartMonotone(tool: ClientToolCost, earliest: Option<Date>, now1: Date, now2: Date)
    requires !IsOneTimeFee(tool) && tool.cost >= 0.0
    requires Anchor(tool, earliest).Some?
    requires MonthDiff(Anchor(tool, earliest).value, now1) <= MonthDiff(Anchor(tool, earliest).value, now2)
    ensures ToolCostSinceStart(tool, earliest, now1) <= ToolCostSinceStart(tool, earliest, now2)
  {
    var base := Anchor(tool, earliest).value;
    ChargedPeriodsMonotone(tool.period, MonthDiff(base, now1), MonthDiff(base, now2));
    ScaleMonotone(tool.cost, ChargedPeriods(tool.period, MonthDiff(base, now1)),
                  ChargedPeriods(tool.period, MonthDiff(base, now2)));
  }

  // ----- the two allocators disagree -----

  /** The tool as lib/utils.ts's aggregator reads it, with an explicit start date. */
  function AsDatedTool(tool: ClientToolCost, start: Date): Utils.DatedToolCost {
    Utils.DatedToolCost(tool.cost, if tool.period.Some? then PeriodName(tool.period.value) else "", start, tool.endDate)
  }

  /**
   * For a quarterly tool started at `start`, this component charges one
   * quarter more than lib/utils.ts's aggregator exactly when the whole months
   * elapsed are 2 more than a multiple of 3.
   */
  lemma {:induction false} QuarterlyAllocatorsDiffer(tool: ClientToolCost, start: Date, now: Date)
    requires tool.period == Some(EveryQuarter) && !IsOneTimeFee(tool) && tool.endDate.None?
    requires tool.startDate == Defined(start) && start.time <= now.time && MonthDiff(start, now) >= 0
    ensures ToolCostSinceStart(tool, None, now)
         == Utils.ToolCostUntil(AsDatedTool(tool, start), now)
            + (if MonthDiff(start, now) % 3 == 2 then tool.cost else 0.0)
  {
    var m := MonthDiff(start, now);
    assert (m + 1) / 3 == m / 3 + (if m % 3 == 2 then 1 else 0);
    assert Utils.ToolCostUntil(AsDatedTool(tool, start), now) == Scale(tool.cost, m / 3);
    assert Scale(tool.cost, (m + 1) / 3) == Scale(tool.cost, m / 3) + Scale(tool.cost, (m + 1) / 3 - m / 3);
  }

  /** For a monthly tool started at `start`, both allocators charge one period per whole month elapsed. */
  lemma MonthlyAllocatorsAgree(tool: ClientToolCost, start: Date, now: Date)
    requires tool.period == Some(EveryMonth) && !IsOneTimeFee(tool) && tool.endDate.None?
    requires tool.startDate == Defined(start) && start.time <= now.time
    ensures ToolCostSinceStart(tool, None, now) == Utils.ToolCostUntil(AsDatedTool(tool, start), now)
  {
  }

  /**
   * For a 24-month tool started at `start`, this component charges one
   * period more than lib/utils.ts's aggregator exactly when the whole months
   * elapsed are 23 more than a multiple of 24.
   */
  lemma {:induction false} TwentyFourMonthAllocatorsDiffer(tool: ClientToolCost, start: Date, now: Date)
    requires tool.period == Some(Every24Months) && !IsOneTimeFee(tool) && tool.endDate.None?
    requires tool.startDate == Defined(start) && start.time <= now.time && MonthDiff(start, now) >= 0
    ensures ToolCostSinceStart(tool, None, now)
         == Utils.ToolCostUntil(AsDatedTool(tool, start), now)
            + (if MonthDiff(start, now) % 24 == 23 then tool.cost else 0.0)
  {
    var m := MonthDiff(start, now);
    assert (m + 1) / 24 == m / 24 + (if m % 24 == 23 then 1 else 0);
    assert Utils.ToolCostUntil(AsDatedTool(tool, start), now) == Scale(tool.cost, m / 24);
    assert Scale(tool.cost, (m + 1) / 24) == Scale(tool.cost, m / 24) + Scale(tool.cost, (m + 1) / 24 - m / 24);
  }

  /**
   * For a yearly tool started in an earlier calendar year, this component
   * counts years from the whole months elapsed (rounding up in the twelfth
   * month) and lib/utils.ts's aggregator counts calendar years. The two
   * charges differ by at most one year's cost, and agree when the current
   * month is the start month.
   */
  lemma {:induction false} YearlyAllocatorsWithinOneYear(tool: ClientToolCost, start: Date, now: Date)
    requires tool.period == Some(EveryYear) && !IsOneTimeFee(tool) && tool.endDate.None?
    requires tool.startDate == Defined(start) && start.time <= now.time
    requires 0 <= start.month < 12 && 0 <= now.month < 12 && start.year < now.year
    ensures var diff := ToolCostSinceStart(tool, None, now) - Utils.ToolCostUntil(AsDatedTool(tool, start), now);
      diff == 0.0 || diff == tool.cost || diff == -tool.cost
    ensures now.month == start.month ==>
      ToolCostSinceStart(tool, None, now) == Utils.ToolCostUntil(AsDatedTool(tool, start), now)
  {
    var m, d := MonthDiff(start, now), now.year - start.year;
    var k := (m + 1) / 12;
    assert m == 12 * d + (now.month - start.month);
    assert d - 1 <= k <= d + 1;
    assert now.month == start.month ==> k == d;
    var charged := MaxInt(1, k);
    assert ToolCostSinceStart(tool, None, now) == Scale(tool.cost, charged);
    assert Utils.ToolCostUntil(AsDatedTool(tool, start), now) == Scale(tool.cost, d);
    assert Scale(tool.cost, charged) - Scale(tool.cost, d) == Scale(tool.cost, charged - d);
  }

  /**
   * A yearly tool whose start date is still in the future is charged one
   * full year here, and nothing by lib/utils.ts's aggregator.
   */
  lemma YearlyAllocatorsDiffer(tool: ClientToolCost, start: Date, now: Date)
    requires tool.period == Some(EveryYear) && !IsOneTimeFee(tool)
    requires tool.startDate == Defined(start) && start.time > now.time && MonthDiff(start, now) <= 0
    ensures ToolCostSinceStart(tool, None, now) == tool.cost
    ensures Utils.ToolCostUntil(AsDatedTool(tool, start), now) == 0.0
  {
  }

  /**
   * A one-time fee whose end date has not been reached costs nothing here,
   * while lib/utils.ts's aggregator charges it in full from its start date.
   */
  lemma OneTimeAllocatorsDiffer(tool: ClientToolCost, start: Date, now: Date)
    requires IsOneTimeFee(tool) && now.time < tool.endDate.value.time && start.time <= now.time
    ensures ToolCostSinceStart(tool, None, now) == 0.0
    ensures Utils.ToolCostUntil(AsDatedTool(tool, start), now) == tool.cost
  {
  }

  // ----- getFormula (components/KPICardsBreakdown.tsx:157-331) -----

  /** The figures a formula tooltip prints; `NoFormula` is the empty string. */
  datatype Formula =
    | NoFormula
    | LabourPerExecution(executions: real, minutesPerExecution: real, totalMinutes: real,
                         totalHours: real, totalCost: real)
    | LabourRecurring(frequency: Frequency, periods: real, occurrences: real, totalOccurrences: real,
                      totalMinutes: real, totalHours: real, totalCost: real)
    | ValueByFrequency(frequency: Frequency, periods: real, valuePerPeriod: real, totalValue: real)
    | ValueByConversion(executions: real, totalItems: real, convertedItems: real, totalValue: real)
    | ValueByExecution(executions: real, valuePerExecution: real, totalValue: real)

  /** The money figure a formula ends with (0 for an empty formula). */
  function FormulaAmount(f: Formula): real {
    match f
    case NoFormula => 0.0
    case LabourPerExecution(_, _, _, _, cost) => cost
    case LabourRecurring(_, _, _, _, _, _, cost) => cost
    case ValueByFrequency(_, _, _, value) => value
    case ValueByConversion(_, _, _, value) => value
    case ValueByExecution(_, _, value) => value
  }

  /** Fractional periods elapsed in `days` days. */
  function FrequencyPeriods(f: Frequency, days: real): real {
    match f
    case Daily => days
    case Weekly => days / 7.0
    case Monthly => days / 30.44
    case Quarterly => days / 91.25
  }

  lemma FrequencyPeriodsMonotone(f: Frequency, d1: real, d2: real)
    requires 0.0 <= d1 <= d2
    ensures 0.0 <= FrequencyPeriods(f, d1) <= FrequencyPeriods(f, d2)
  {
  }

  /** `config.roi_type || workflow.roi_type`. */
  function EffectiveRoiType(config: WorkflowROIConfig, workflow: WorkflowROICalculated): string {
    OrText(Some(config.roiType), workflow.roiType)
  }

  function Executions(w: WorkflowROICalculated): real { OrReal(w.successfulExecutions, 0.0) }
  function Days(w: WorkflowROICalculated): real { OrReal(w.daysSinceDeployment, 0.0) }
  function MinutesSaved(c: WorkflowROIConfig): real { OrReal(c.manualMinutesSaved, 0.0) }
  function HourlyRate(c: WorkflowROIConfig): real { OrReal(c.hourlyRate, 0.0) }
  function Occurrences(c: WorkflowROIConfig): real { OrReal(c.occurrencesPerFrequency, 1.0) }
  function ValuePerFrequency(c: WorkflowROIConfig): real { OrReal(c.valuePerFrequency, 0.0) }
  function ClientsPerReport(c: WorkflowROIConfig): real { OrReal(c.clientsPerReport, 0.0) }
  function ReactivationRate(c: WorkflowROIConfig): real { OrReal(c.reactivationRatePercent, 0.0) }
  function ValuePerClient(c: WorkflowROIConfig): real { OrReal(c.valuePerClient, 0.0) }
  function ValuePerExecution(c: WorkflowROIConfig): real { OrReal(c.valuePerExecution, 0.0) }

  /** `config.frequency || ''`. */
  function FrequencyText(c: WorkflowROIConfig): string { OrText(c.frequency, "") }

  /** The frequency-based `new_capability` method applies: a frequency is set and its value is positive. */
  predicate UsesFrequencyValue(c: WorkflowROIConfig) {
    FrequencyText(c) != "" && ValuePerFrequency(c) > 0.0
  }

  /** The conversion-based `new_capability` method applies. */
  predicate UsesConversion(c: WorkflowROIConfig) {
    ClientsPerReport(c) > 0.0 && ReactivationRate(c) > 0.0 && ValuePerClient(c) > 0.0
  }

  /**
   * `per_execution`: minutes = executions × minutes saved and cost =
   * minutes / 60 × hourly rate, shown only when all three are positive.
   */
  function PerExecutionFormula(workflow: WorkflowROICalculated, c: WorkflowROIConfig): (f: Formula)
    ensures f.LabourPerExecution? <==>
      Executions(workflow) > 0.0 && MinutesSaved(c) > 0.0 && HourlyRate(c) > 0.0
    ensures !f.LabourPerExecution? ==> f == NoFormula
    ensures f.LabourPerExecution? ==>
      f.executions == Executions(workflow) && f.minutesPerExecution == MinutesSaved(c) &&
      f.totalMinutes == f.executions * f.minutesPerExecution &&
      f.totalHours == f.totalMinutes / 60.0 && f.totalCost == f.totalHours * HourlyRate(c)
  {
    var executions := Executions(workflow);
    if executions > 0.0 && MinutesSaved(c) > 0.0 && HourlyRate(c) > 0.0 then
      var totalMinutes := executions * MinutesSaved(c);
      var totalHours := totalMinutes / 60.0;
      LabourPerExecution(executions, MinutesSaved(c), totalMinutes, totalHours, totalHours * HourlyRate(c))
    else NoFormula
  }

  /**
   * `recurring_task`: the fractional periods since deployment times the
   * occurrences per period (a missing or 0 count is 1) give the
   * occurrences, then minutes and cost as for `per_execution`; shown only
   * with positive minutes and rate and a known frequency.
   */
  function RecurringTaskFormula(workflow: WorkflowROICalculated, c: WorkflowROIConfig): (f: Formula)
    ensures f.LabourRecurring? <==>
      MinutesSaved(c) > 0.0 && HourlyRate(c) > 0.0 && ParseFrequency(FrequencyText(c)).Some?
    ensures !f.LabourRecurring? ==> f == NoFormula
    ensures f.LabourRecurring? ==>
      Some(f.frequency) == ParseFrequency(FrequencyText(c)) &&
      f.periods == FrequencyPeriods(f.frequency, Days(workflow)) && f.occurrences == Occurrences(c) &&
      f.totalOccurrences == f.periods * f.occurrences &&
      f.totalMinutes == f.totalOccurrences * MinutesSaved(c) &&
      f.totalHours == f.totalMinutes / 60.0 && f.totalCost == f.totalHours * HourlyRate(c)
  {
    if MinutesSaved(c) > 0.0 && HourlyRate(c) > 0.0 then
      match ParseFrequency(FrequencyText(c))
      case None => NoFormula
      case Some(frequency) =>
        var periods := FrequencyPeriods(frequency, Days(workflow));
        var totalOccurrences := periods * Occurrences(c);
        var totalMinutes := totalOccurrences * MinutesSaved(c);
        var totalHours := totalMinutes / 60.0;
        LabourRecurring(frequency, periods, Occurrences(c), totalOccurrences, totalMinutes, totalHours,
                        totalHours * HourlyRate(c))
    else NoFormula
  }

  /**
   * `new_capability`, in strict priority: a frequency with a positive value
   * per period (an unknown frequency then gives no formula, without trying
   * the other methods); else the conversion method when its three inputs
   * are positive (it equals lib/utils.ts's `calculateReportValue`); else a
   * positive value per execution with positive executions.
   */
  function NewCapabilityFormula(workflow: WorkflowROICalculated, c: WorkflowROIConfig): (f: Formula)
    ensures f.ValueByFrequency? <==> UsesFrequencyValue(c) && ParseFrequency(FrequencyText(c)).Some?
    ensures UsesFrequencyValue(c) && ParseFrequency(FrequencyText(c)).None? ==> f == NoFormula
    ensures f.ValueByFrequency? ==>
      Some(f.frequency) == ParseFrequency(FrequencyText(c)) &&
      f.periods == FrequencyPeriods(f.frequency, Days(workflow)) &&
      f.valuePerPeriod == ValuePerFrequency(c) && f.totalValue == f.periods * f.valuePerPeriod
    ensures f.ValueByConversion? <==> !UsesFrequencyValue(c) && UsesConversion(c)
    ensures f.ValueByConversion? ==>
      f.executions == Executions(workflow) &&
      f.totalValue == Utils.CalculateReportValue(ClientsPerReport(c), ReactivationRate(c), ValuePerClient(c), f.executions)
    ensures f.ValueByExecution? <==>
      !UsesFrequencyValue(c) && !UsesConversion(c) && ValuePerExecution(c) > 0.0 && Executions(workflow) > 0.0
    ensures f.ValueByExecution? ==>
      f.executions == Executions(workflow) && f.valuePerExecution == ValuePerExecution(c) &&
      f.totalValue == f.executions * f.valuePerExecution
    ensures f.NoFormula? || f.ValueByFrequency? || f.ValueByConversion? || f.ValueByExecution?
  {
    if UsesFrequencyValue(c) then
      match ParseFrequency(FrequencyText(c))
      case None => NoFormula
      case Some(frequency) =>
        var periods := FrequencyPeriods(frequency, Days(workflow));
        ValueByFrequency(frequency, periods, ValuePerFrequency(c), periods * ValuePerFrequency(c))
    else
      var executions := Executions(workflow);
      if UsesConversion(c) then
        var totalClients := executions * ClientsPerReport(c);
        var convertedClients := totalClients * (ReactivationRate(c) / 100.0);
        ValueByConversion(executions, totalClients, convertedClients, convertedClients * ValuePerClient(c))
      else if ValuePerExecution(c) > 0.0 && executions > 0.0 then
        ValueByExecution(executions, ValuePerExecution(c), executions * ValuePerExecution(c))
      else NoFormula
  }

  /**
   * The formula shown for a workflow: empty without a configuration;
   * otherwise the ROI type of the configuration, else of the workflow,
   * selects the method, and an unknown type gives no formula.
   */
  function GetFormula(workflow: WorkflowROICalculated, configs: seq<WorkflowROIConfig>): (f: Formula)
    ensures ConfigFor(configs, workflow.workflowId).None? ==> f == NoFormula
    ensures ConfigFor(configs, workflow.workflowId).Some? ==>
      var c := ConfigFor(configs, workflow.workflowId).value;
      var roiType := EffectiveRoiType(c, workflow);
      (roiType == "per_execution" ==> f == PerExecutionFormula(workflow, c)) &&
      (roiType == "recurring_task" ==> f == RecurringTaskFormula(workflow, c)) &&
      (roiType == "new_capability" ==> f == NewCapabilityFormula(workflow, c)) &&
      (ParseRoiType(roiType).None? ==> f == NoFormula)
  {
    var config := ConfigFor(configs, workflow.workflowId);
    if config.None? then NoFormula
    else
      var c := config.value;
      match ParseRoiType(EffectiveRoiType(c, workflow))
      case Some(PerExecution) => PerExecutionFormula(workflow, c)
      case Some(RecurringTask) => RecurringTaskFormula(workflow, c)
      case Some(NewCapability) => NewCapabilityFormula(workflow, c)
      case None => NoFormula
  }

  /**
   * With non-negative days, executions and occurrences, a formula never
   * shows a negative amount: every method multiplies positive rates and
   * values by non-negative quantities.
   */
  lemma {:induction false} FormulaAmountNonNegative(workflow: WorkflowROICalculated, configs: seq<WorkflowROIConfig>)
    requires Days(workflow) >= 0.0 && Executions(workflow) >= 0.0
    requires forall i :: 0 <= i < |configs| ==> Occurrences(configs[i]) >= 0.0
    ensures FormulaAmount(GetFormula(workflow, configs)) >= 0.0
  {
    var config := ConfigFor(configs, workflow.workflowId);
    if config.Some? {
      var c := config.value;
      assert Occurrences(c) >= 0.0;
      PerExecutionNonNegative(workflow, c);
      RecurringTaskNonNegative(workflow, c);
      NewCapabilityNonNegative(workflow, c);
    }
  }

  lemma {:induction false} PerExecutionNonNegative(workflow: WorkflowROICalculated, c: WorkflowROIConfig)
    requires Executions(workflow) >= 0.0
    ensures FormulaAmount(PerExecutionFormula(workflow, c)) >= 0.0
  {
    var f := PerExecutionFormula(workflow, c);
    if f.LabourPerExecution? {
      NonNegativeProduct(f.executions, f.minutesPerExecution);
      NonNegativeProduct(f.totalHours, HourlyRate(c));
    }
  }

  lemma {:induction false} RecurringTaskNonNegative(workflow: WorkflowROICalculated, c: WorkflowROIConfig)
    requires Days(workflow) >= 0.0 && Occurrences(c) >= 0.0
    ensures FormulaAmount(RecurringTaskFormula(workflow, c)) >= 0.0
  {
    var f := RecurringTaskFormula(workflow, c);
    if f.LabourRecurring? {
      FrequencyPeriodsMonotone(f.frequency, 0.0, Days(workflow));
      NonNegativeProduct(f.periods, f.occurrences);
      NonNegativeProduct(f.totalOccurrences, MinutesSaved(c));
      NonNegativeProduct(f.totalHours, HourlyRate(c));
    }
  }

  lemma {:induction false} NewCapabilityNonNegative(workflow: WorkflowROICalculated, c: WorkflowROIConfig)
    requires Days(workflow) >= 0.0 && Executions(workflow) >= 0.0
    ensures FormulaAmount(NewCapabilityFormula(workflow, c)) >= 0.0
  {
    var f := NewCapabilityFormula(workflow, c);
    if f.ValueByFrequency? {
      FrequencyPeriodsMonotone(f.frequency, 0.0, Days(workflow));
      NonNegativeProduct(f.periods, f.valuePerPeriod);
    } else if f.ValueByConversion? {
      Utils.ReportValueMonotone(ClientsPerReport(c), ReactivationRate(c), ValuePerClient(c), 0.0, f.executions);
    } else if f.ValueByExecution? {
      NonNegativeProduct(f.executions, f.valuePerExecution);
    }
  }

  lemma NonNegativeProduct(a: real, b: real)
    requires a >= 0.0 && b >= 0.0
    ensures a * b >= 0.0
  {
  }

  /**
   * For a per-execution configuration, more successful executions never
   * lower the labour cost the formula shows.
   */
  lemma {:induction false} PerExecutionMonotone(workflow: WorkflowROICalculated, c: WorkflowROIConfig, more: real)
    requires Executions(workflow) >= 0.0 && more >= Executions(workflow)
    ensures FormulaAmount(PerExecutionFormula(workflow, c))
         <= FormulaAmount(PerExecutionFormula(workflow.(successfulExecutions := Some(more)), c))
  {
    var w2 := workflow.(successfulExecutions := Some(more));
    var f1 := PerExecutionFormula(workflow, c);
    var f2 := PerExecutionFormula(w2, c);
    if f1.LabourPerExecution? {
      assert f2.LabourPerExecution?;
      var k := MinutesSaved(c) * (HourlyRate(c) / 60.0);
      assert f1.totalCost == Executions(workflow) * k;
      assert f2.totalCost == more * k;
      NonNegativeProduct(MinutesSaved(c), HourlyRate(c) / 60.0);
      assert more * k - Executions(workflow) * k == (more - Executions(workflow)) * k;
      NonNegativeProduct(more - Executions(workflow), k);
    } else if f2.LabourPerExecution? {
      NonNegativeProduct(f2.executions, f2.minutesPerExecution);
      NonNegativeProduct(f2.totalHours, HourlyRate(c));
    }
  }

  /**
   * The per-execution saving is additive in the executions: counting two
   * batches of runs together gives the sum of their costs, so each run adds
   * the same `minutes / 60 * rate`.
   */
  lemma PerExecutionAdditive(w1: WorkflowROICalculated, w2: WorkflowROICalculated, w: WorkflowROICalculated, c: WorkflowROIConfig)
    requires Executions(w1) > 0.0 && Executions(w2) > 0.0 && Executions(w) == Executions(w1) + Executions(w2)
    requires MinutesSaved(c) > 0.0 && HourlyRate(c) > 0.0
    ensures PerExecutionFormula(w, c).totalCost ==
      PerExecutionFormula(w1, c).totalCost + PerExecutionFormula(w2, c).totalCost
  {
    var m, r := MinutesSaved(c), HourlyRate(c);
    var e1, e2 := Executions(w1), Executions(w2);
    calc {
      PerExecutionFormula(w, c).totalCost;
      (e1 + e2) * m / 60.0 * r;
      { assert (e1 + e2) * m == e1 * m + e2 * m; }
      (e1 * m + e2 * m) / 60.0 * r;
      e1 * m / 60.0 * r + e2 * m / 60.0 * r;
    }
  }

  /**
   * A `new_capability` configuration with a positive value per frequency but
   * an unknown frequency yields no formula: the later methods are not tried,
   * whatever the conversion and per-execution values are.
   */
  lemma UnknownFrequencyDoesNotFallThrough(workflow: WorkflowROICalculated, configs: seq<WorkflowROIConfig>, c: WorkflowROIConfig)
    requires ConfigFor(configs, workflow.workflowId) == Some(c)
    requires EffectiveRoiType(c, workflow) == "new_capability"
    requires UsesFrequencyValue(c) && ParseFrequency(FrequencyText(c)).None?
    ensures GetFormula(workflow, configs) == NoFormula
  {
  }

  /**
   * For a recurring-task configuration, a workflow deployed for longer never
   * shows a lower labour cost: the fractional periods grow with the days and
   * every other factor is fixed and non-negative.
   */
  lemma {:induction false} RecurringTaskMonotone(workflow: WorkflowROICalculated, c: WorkflowROIConfig, later: real)
    requires 0.0 <= Days(workflow) <= later && Occurrences(c) >= 0.0
    ensures FormulaAmount(RecurringTaskFormula(workflow, c))
         <= FormulaAmount(RecurringTaskFormula(workflow.(daysSinceDeployment := Some(later)), c))
  {
    var w2 := workflow.(daysSinceDeployment := Some(later));
    assert Days(w2) == later;
    var f1, f2 := RecurringTaskFormula(workflow, c), RecurringTaskFormula(w2, c);
    if f1.LabourRecurring? {
      FrequencyPeriodsMonotone(f1.frequency, Days(workflow), later);
      RecurringTaskCost(workflow, c);
      RecurringTaskCost(w2, c);
      assert f2.LabourRecurring? && f2.frequency == f1.frequency;
      assert f1.periods == FrequencyPeriods(f1.frequency, Days(workflow));
      assert f2.periods == FrequencyPeriods(f1.frequency, later);
      LabourCostMonotone(f1.periods, f2.periods, Occurrences(c), MinutesSaved(c), HourlyRate(c),
                         FormulaAmount(f1), FormulaAmount(f2));
    }
  }

  lemma RecurringTaskCost(workflow: WorkflowROICalculated, c: WorkflowROIConfig)
    ensures var f := RecurringTaskFormula(workflow, c);
      f.LabourRecurring? ==>
        MinutesSaved(c) > 0.0 && HourlyRate(c) > 0.0 &&
        FormulaAmount(f) == f.periods * Occurrences(c) * MinutesSaved(c) / 60.0 * HourlyRate(c)
  {
  }

  /** The labour cost chain grows with the number of periods. */
  lemma LabourCostMonotone(p1: real, p2: real, occurrences: real, minutes: real, rate: real, cost1: real, cost2: real)
    requires 0.0 <= p1 <= p2 && occurrences >= 0.0 && minutes >= 0.0 && rate >= 0.0
    requires cost1 == p1 * occurrences * minutes / 60.0 * rate
    requires cost2 == p2 * occurrences * minutes / 60.0 * rate
    ensures cost1 <= cost2
  {
    MulMonotone(p1, p2, occurrences);
    MulMonotone(p1 * occurrences, p2 * occurrences, minutes);
    MulMonotone(p1 * occurrences * minutes, p2 * occurrences * minutes, 1.0 / 60.0);
    assert p1 * occurrences * minutes / 60.0 == p1 * occurrences * minutes * (1.0 / 60.0);
    assert p2 * occurrences * minutes / 60.0 == p2 * occurrences * minutes * (1.0 / 60.0);
    MulMonotone(p1 * occurrences * minutes / 60.0, p2 * occurrences * minutes / 60.0, rate);
  }

  /**
   * For a new-capability configuration, a workflow deployed for longer never
   * shows a lower value: the frequency method grows with the days, and the
   * other two methods do not depend on them.
   */
  lemma {:induction false} NewCapabilityMonotone(workflow: WorkflowROICalculated, c: WorkflowROIConfig, later: real)
    requires 0.0 <= Days(workflow) <= later
    ensures FormulaAmount(NewCapabilityFormula(workflow, c))
         <= FormulaAmount(NewCapabilityFormula(workflow.(daysSinceDeployment := Some(later)), c))
  {
    var w2 := workflow.(daysSinceDeployment := Some(later));
    assert Days(w2) == later && Executions(w2) == Executions(workflow);
    var f1, f2 := NewCapabilityFormula(workflow, c), NewCapabilityFormula(w2, c);
    if f1.ValueByFrequency? {
      FrequencyPeriodsMonotone(f1.frequency, Days(workflow), later);
      MulMonotone(f1.periods, f2.periods, f1.valuePerPeriod);
    }
  }

  lemma MulMonotone(a: real, b: real, k: real)
    requires 0.0 <= a <= b && k >= 0.0
    ensures 0.0 <= a * k <= b * k
  {
    assert b * k - a * k == (b - a) * k;
    NonNegativeProduct(b - a, k);
    NonNegativeProduct(a, k);
  }

  // ----- tool partition (components/KPICardsBreakdown.tsx:335-356) -----

  function ToolName(tool: ClientToolCost): string { tool.tool }

  /** The tool's name contains one of the shared-infrastructure keywords, ignoring case. */
  predicate IsCommonCostName(name: string) {
    var lower := Lower(name);
    Contains(lower, "database") || Contains(lower, "hosting") ||
    Contains(lower, "supabase") || Contains(lower, "llm tokens")
  }

  predicate IsOneTimeTool(tool: ClientToolCost) { tool.recurring == Some(false) }
  predicate IsCommonTool(tool: ClientToolCost) { tool.recurring == Some(true) && IsCommonCostName(tool.tool) }
  predicate IsOtherTool(tool: ClientToolCost) { tool.recurring == Some(true) && !IsCommonCostName(tool.tool) }
  predicate HasRecurringFlag(tool: ClientToolCost) { tool.recurring.Some? }

  /** One-time fees: the tools explicitly marked not recurring, sorted by name. */
  function OneTimeFeeTools(tools: seq<ClientToolCost>): (r: seq<ClientToolCost>)
    ensures SortedByKey(r, ToolName)
    ensures multiset(r) == multiset(Filter(tools, IsOneTimeTool))
  {
    SortByKey(Filter(tools, IsOneTimeTool), ToolName)
  }

  /** Recurring tools whose names mark them as shared infrastructure, sorted by name. */
  function CommonCostTools(tools: seq<ClientToolCost>): (r: seq<ClientToolCost>)
    ensures SortedByKey(r, ToolName)
    ensures multiset(r) == multiset(Filter(tools, IsCommonTool))
  {
    SortByKey(Filter(tools, IsCommonTool), ToolName)
  }

  /** The remaining recurring tools, sorted by name. */
  function OtherTools(tools: seq<ClientToolCost>): (r: seq<ClientToolCost>)
    ensures SortedByKey(r, ToolName)
    ensures multiset(r) == multiset(Filter(tools, IsOtherTool))
  {
    SortByKey(Filter(tools, IsOtherTool), ToolName)
  }

  /**
   * The three lists split exactly the tools whose `recurring` flag is set:
   * every such tool appears in exactly one list, as often as in the input,
   * and a tool without the flag appears in none.
   */
  lemma {:induction false} ToolPartition(tools: seq<ClientToolCost>)
    ensures multiset(OneTimeFeeTools(tools)) + multiset(CommonCostTools(tools)) + multiset(OtherTools(tools))
         == multiset(Filter(tools, HasRecurringFlag))
  {
    forall t: ClientToolCost
      ensures HasRecurringFlag(t) == (IsOneTimeTool(t) || IsCommonTool(t) || IsOtherTool(t))
    {
      match t.recurring
      case Some(flag) => assert flag || t.recurring == Some(false);
      case None =>
    }
    FilterPartition3(tools, IsOneTimeTool, IsCommonTool, IsOtherTool, HasRecurringFlag);
  }

  // ----- workflow lists (components/KPICardsBreakdown.tsx:363-375) -----

  /** `(workflow_name || workflow_id || '').toLowerCase()`. */
  function WorkflowKey(w: WorkflowROICalculated): string {
    Lower(OrText(w.workflowName, w.workflowId))
  }

  predicate HasLaborCost(w: WorkflowROICalculated) { w.laborCostSaved.Some? && w.laborCostSaved.value > 0.0 }
  predicate HasValueCreated(w: WorkflowROICalculated) { w.valueCreated.Some? && w.valueCreated.value > 0.0 }

  function LaborCost(w: WorkflowROICalculated): real { OrReal(w.laborCostSaved, 0.0) }
  function ValueCreated(w: WorkflowROICalculated): real { OrReal(w.valueCreated, 0.0) }

  /** A workflow's labour saving when positive, else 0. */
  function PositiveLaborCost(w: WorkflowROICalculated): real { if HasLaborCost(w) then LaborCost(w) else 0.0 }

  /** The workflows with a positive labour saving, sorted by lower-cased name. */
  function LaborCostWorkflows(workflows: seq<WorkflowROICalculated>): (r: seq<WorkflowROICalculated>)
    ensures SortedByKey(r, WorkflowKey)
    ensures multiset(r) == multiset(Filter(workflows, HasLaborCost))
  {
    SortByKey(Filter(workflows, HasLaborCost), WorkflowKey)
  }

  /** The workflows with a positive value created, sorted by lower-cased name. */
  function ValueCreatedWorkflows(workflows: seq<WorkflowROICalculated>): (r: seq<WorkflowROICalculated>)
    ensures SortedByKey(r, WorkflowKey)
    ensures multiset(r) == multiset(Filter(workflows, HasValueCreated))
  {
    SortByKey(Filter(workflows, HasValueCreated), WorkflowKey)
  }

  /** The labour subtotal (line 536) is the sum of every workflow's positive labour saving. */
  lemma {:induction false} LaborSubtotalIsPositivePart(workflows: seq<WorkflowROICalculated>)
    ensures SumOf(LaborCostWorkflows(workflows), LaborCost) == SumOf(workflows, PositiveLaborCost)
  {
    SumOfPermutation(LaborCostWorkflows(workflows), Filter(workflows, HasLaborCost), LaborCost);
    FilteredLaborSum(workflows);
  }

  lemma {:induction false} FilteredLaborSum(workflows: seq<WorkflowROICalculated>)
    ensures SumOf(Filter(workflows, HasLaborCost), LaborCost) == SumOf(workflows, PositiveLaborCost)
  {
    if workflows != [] {
      var head := if HasLaborCost(workflows[0]) then [workflows[0]] else [];
      FilteredLaborSum(workflows[1..]);
      SumOfAppend(head, Filter(workflows[1..], HasLaborCost), LaborCost);
    }
  }

  /** `implementation_cost_applied || implementation_cost || 0`. */
  function ImplementationCost(w: WorkflowROICalculated): real {
    OrReal(w.implementationCostApplied, OrReal(w.implementationCost, 0.0))
  }

  predicate HasImplementationCost(w: WorkflowROICalculated) { ImplementationCost(w) > 0.0 }

  /** The workflows with a positive implementation cost, in their original order (line 375). */
  function ImplementationCostWorkflows(workflows: seq<WorkflowROICalculated>): (r: seq<WorkflowROICalculated>)
    ensures forall w :: w in r ==> ImplementationCost(w) > 0.0
    ensures forall w :: w in workflows && ImplementationCost(w) > 0.0 ==> w in r
    ensures forall w :: w in workflows ==>
      multiset(r)[w] == if ImplementationCost(w) > 0.0 then multiset(workflows)[w] else 0
  {
    Filter(workflows, HasImplementationCost)
  }

  // ----- development items (components/KPICardsBreakdown.tsx:378-397) -----

  /** A row of the development cost list: a workflow's implementation or a one-time fee. */
  datatype DevelopmentItem =
    | WorkflowItem(id: string, name: string, cost: real)
    | ToolItem(id: string, name: string, cost: real)

  function ItemCost(item: DevelopmentItem): real { item.cost }
  function ItemKey(item: DevelopmentItem): string { Lower(item.name) }

  function WorkflowItems(workflows: seq<WorkflowROICalculated>): (r: seq<DevelopmentItem>)
    ensures |r| == |workflows|
    ensures SumOf(r, ItemCost) == SumOf(workflows, ImplementationCost)
  {
    if workflows == [] then []
    else
      var w := workflows[0];
      [WorkflowItem(w.workflowId, OrText(w.workflowName, w.workflowId), ImplementationCost(w))]
        + WorkflowItems(workflows[1..])
  }

  function ToolCost(tool: ClientToolCost): real { tool.cost }

  function ToolItems(tools: seq<ClientToolCost>): (r: seq<DevelopmentItem>)
    ensures |r| == |tools|
    ensures SumOf(r, ItemCost) == SumOf(tools, ToolCost)
  {
    if tools == [] then []
    else [ToolItem(tools[0].tool, tools[0].tool, tools[0].cost)] + ToolItems(tools[1..])
  }

  /** Implementation costs and one-time fees together, sorted by lower-cased name. */
  function AllDevelopmentItems(workflows: seq<WorkflowROICalculated>, tools: seq<ClientToolCost>): (r: seq<DevelopmentItem>)
    ensures SortedByKey(r, ItemKey)
    ensures multiset(r) == multiset(WorkflowItems(ImplementationCostWorkflows(workflows)) + ToolItems(OneTimeFeeTools(tools)))
    ensures |r| == |ImplementationCostWorkflows(workflows)| + |OneTimeFeeTools(tools)|
  {
    SortByKey(WorkflowItems(ImplementationCostWorkflows(workflows)) + ToolItems(OneTimeFeeTools(tools)), ItemKey)
  }

  // ----- totals -----

  /** Σ implementation costs over the workflows that have one. */
  function ImplementationTotal(workflows: seq<WorkflowROICalculated>): real {
    SumOf(ImplementationCostWorkflows(workflows), ImplementationCost)
  }

  /** Σ full one-time fees, whatever their end dates. */
  function OneTimeFeesTotal(tools: seq<ClientToolCost>): real {
    SumOf(OneTimeFeeTools(tools), ToolCost)
  }

  /** Σ allocations of the recurring tools (common first, then other). */
  function RecurringToolsTotal(workflows: seq<WorkflowROICalculated>, tools: seq<ClientToolCost>, now: Date): real {
    RecurringAllocations(CommonCostTools(tools) + OtherTools(tools), EarliestDeploymentDate(workflows), now)
  }

  function RecurringAllocations(tools: seq<ClientToolCost>, earliest: Option<Date>, now: Date): real {
    if tools == [] then 0.0
    else ToolCostSinceStart(tools[0], earliest, now) + RecurringAllocations(tools[1..], earliest, now)
  }

  /** The ROI card's automation cost (lines 452-455). */
  function TotalAutomationCostBreakdown(workflows: seq<WorkflowROICalculated>, tools: seq<ClientToolCost>, now: Date): real {
    ImplementationTotal(workflows) + OneTimeFeesTotal(tools) + RecurringToolsTotal(workflows, tools, now)
  }

  /** The ROI card: labour saved plus value created, minus the automation cost (lines 457-458). */
  function CalculatedROI(summary: ClientROISummary, workflows: seq<WorkflowROICalculated>,
                         tools: seq<ClientToolCost>, now: Date): real {
    var totalBenefits := OrReal(summary.totalLaborCostSaved, 0.0) + OrReal(summary.totalValueCreated, 0.0);
    totalBenefits - TotalAutomationCostBreakdown(workflows, tools, now)
  }

  /** The Automation Cost card's development part (lines 731-732). */
  function TotalDevelopmentCost(workflows: seq<WorkflowROICalculated>, tools: seq<ClientToolCost>): real {
    ImplementationTotal(workflows) + OneTimeFeesTotal(tools)
  }

  /** The Automation Cost card (line 734). */
  function TotalAutomationCost(workflows: seq<WorkflowROICalculated>, tools: seq<ClientToolCost>, now: Date): real {
    TotalDevelopmentCost(workflows, tools) + RecurringToolsTotal(workflows, tools, now)
  }

  /** The development list's subtotal (line 808): the sum over the merged, re-sorted rows. */
  function DevelopmentSubtotal(workflows: seq<WorkflowROICalculated>, tools: seq<ClientToolCost>): real {
    SumOf(AllDevelopmentItems(workflows, tools), ItemCost)
  }

  /** The tools list as displayed (line 936): the recurring tools re-sorted by name. */
  function DisplayedTools(tools: seq<ClientToolCost>): (r: seq<ClientToolCost>)
    ensures SortedByKey(r, ToolName)
    ensures multiset(r) == multiset(CommonCostTools(tools) + OtherTools(tools))
  {
    SortByKey(CommonCostTools(tools) + OtherTools(tools), ToolName)
  }

  /**
   * The breakdown is internally consistent: the ROI card's automation cost,
   * the Automation Cost card, and the development subtotal plus the tools
   * subtotal are the same number, and the displayed tool rows add up to the
   * tools subtotal.
   */
  lemma {:induction false} BreakdownTotalsAgree(summary: ClientROISummary, workflows: seq<WorkflowROICalculated>,
                                               tools: seq<ClientToolCost>, now: Date)
    ensures TotalAutomationCostBreakdown(workflows, tools, now) == TotalAutomationCost(workflows, tools, now)
    ensures TotalAutomationCost(workflows, tools, now)
         == DevelopmentSubtotal(workflows, tools) + RecurringToolsTotal(workflows, tools, now)
    ensures CalculatedROI(summary, workflows, tools, now)
         == OrReal(summary.totalLaborCostSaved, 0.0) + OrReal(summary.totalValueCreated, 0.0)
            - (DevelopmentSubtotal(workflows, tools) + RecurringToolsTotal(workflows, tools, now))
    ensures RecurringAllocations(DisplayedTools(tools), EarliestDeploymentDate(workflows), now)
         == RecurringToolsTotal(workflows, tools, now)
  {
    DevelopmentSubtotalIsTotal(workflows, tools);
    DisplayedToolsTotal(workflows, tools, now);
  }

  /** Re-sorting the recurring tools for display does not change their total. */
  lemma {:induction false} DisplayedToolsTotal(workflows: seq<WorkflowROICalculated>, tools: seq<ClientToolCost>, now: Date)
    ensures RecurringAllocations(DisplayedTools(tools), EarliestDeploymentDate(workflows), now)
         == RecurringToolsTotal(workflows, tools, now)
  {
    var earliest := EarliestDeploymentDate(workflows);
    RecurringAllocationsPermutation(DisplayedTools(tools), CommonCostTools(tools) + OtherTools(tools), earliest, now);
  }

  /** Re-sorting the merged development rows does not change their sum. */
  lemma {:induction false} DevelopmentSubtotalIsTotal(workflows: seq<WorkflowROICalculated>, tools: seq<ClientToolCost>)
    ensures DevelopmentSubtotal(workflows, tools) == TotalDevelopmentCost(workflows, tools)
  {
    var wi := WorkflowItems(ImplementationCostWorkflows(workflows));
    var ti := ToolItems(OneTimeFeeTools(tools));
    SumOfPermutation(AllDevelopmentItems(workflows, tools), wi + ti, ItemCost);
    SumOfAppend(wi, ti, ItemCost);
  }

  lemma {:induction false} RecurringAllocationsIsSum(tools: seq<ClientToolCost>, earliest: Option<Date>, now: Date)
    ensures RecurringAllocations(tools, earliest, now) == SumOf(tools, t => ToolCostSinceStart(t, earliest, now))
  {
    if tools != [] {
      RecurringAllocationsIsSum(tools[1..], earliest, now);
    }
  }

  lemma RecurringAllocationsPermutation(a: seq<ClientToolCost>, b: seq<ClientToolCost>, earliest: Option<Date>, now: Date)
    requires multiset(a) == multiset(b)
    ensures RecurringAllocations(a, earliest, now) == RecurringAllocations(b, earliest, now)
  {
    var f := t => ToolCostSinceStart(t, earliest, now);
    RecurringAllocationsIsSum(a, earliest, now);
    RecurringAllocationsIsSum(b, earliest, now);
    SumOfPermutation(a, b, f);
  }

  /**
   * With non-negative tool costs the automation cost is never negative, so
   * the ROI never exceeds the benefits.
   */
  lemma {:induction false} AutomationCostNonNegative(summary: ClientROISummary, workflows: seq<WorkflowROICalculated>,
                                                    tools: seq<ClientToolCost>, now: Date)
    requires forall i :: 0 <= i < |tools| ==> tools[i].cost >= 0.0
    ensures TotalAutomationCost(workflows, tools, now) >= 0.0
    ensures CalculatedROI(summary, workflows, tools, now)
         <= OrReal(summary.totalLaborCostSaved, 0.0) + OrReal(summary.totalValueCreated, 0.0)
  {
    PositiveSum(ImplementationCostWorkflows(workflows), ImplementationCost);
    OneTimeFeesNonNegative(tools);
    RecurringToolsNonNegative(workflows, tools, now);
  }

  lemma OneTimeFeesNonNegative(tools: seq<ClientToolCost>)
    requires forall i :: 0 <= i < |tools| ==> tools[i].cost >= 0.0
    ensures OneTimeFeesTotal(tools) >= 0.0
  {
    var oneTime := OneTimeFeeTools(tools);
    forall t | t in oneTime ensures t.cost >= 0.0 {
      assert t in multiset(Filter(tools, IsOneTimeTool));
    }
    PositiveSum(oneTime, ToolCost);
  }

  lemma RecurringToolsNonNegative(workflows: seq<WorkflowROICalculated>, tools: seq<ClientToolCost>, now: Date)
    requires forall i :: 0 <= i < |tools| ==> tools[i].cost >= 0.0
    ensures RecurringToolsTotal(workflows, tools, now) >= 0.0
  {
    var recurring := CommonCostTools(tools) + OtherTools(tools);
    forall t | t in recurring ensures t.cost >= 0.0 {
      if t in CommonCostTools(tools) {
        assert t in multiset(Filter(tools, IsCommonTool));
      } else {
        assert t in multiset(Filter(tools, IsOtherTool));
      }
    }
    AllocationsNonNegative(recurring, EarliestDeploymentDate(workflows), now);
  }

  lemma {:induction false} PositiveSum<T>(s: seq<T>, f: T -> real)
    requires forall x :: x in s ==> f(x) >= 0.0
    ensures SumOf(s, f) >= 0.0
  {
    if s != [] {
      PositiveSum(s[1..], f);
    }
  }

  lemma {:induction false} AllocationsNonNegative(tools: seq<ClientToolCost>, earliest: Option<Date>, now: Date)
    requires forall t :: t in tools ==> t.cost >= 0.0
    ensures RecurringAllocations(tools, earliest, now) >= 0.0
  {
    if tools != [] {
      AllocationsNonNegative(tools[1..], earliest, now);
    }
  }
}
