/**
 * The records and enumerations of the dashboard's Supabase views
 * (types/supabase.ts). Enumerated columns are kept as the text the view
 * returns, because the components compare that text; `Parse…` recovers the
 * enumeration and is the exact inverse of `…Name`.
 */
module Types {
  import opened Common

  /**
   * A calendar instant: milliseconds since the epoch (used for comparisons)
   * together with its calendar year and month 0..11 (used by the
   * month-counting allocators). Date parsing itself is not modelled.
   */
  datatype Date = Date(time: int, year: int, month: int)

  /**
   * `(to.getFullYear() - from.getFullYear()) * 12 + (to.getMonth() -
   * from.getMonth())`: whole calendar months, ignoring the day of the month.
   */
  function MonthDiff(from: Date, to: Date): int {
    (to.year - from.year) * 12 + (to.month - from.month)
  }

  /** `roi_type` (types/supabase.ts:52, 77). */
  datatype RoiType = PerExecution | RecurringTask | NewCapability

  function RoiTypeName(t: RoiType): string {
    match t
    case PerExecution => "per_execution"
    case RecurringTask => "recurring_task"
    case NewCapability => "new_capability"
  }

  function ParseRoiType(s: string): (r: Option<RoiType>)
    ensures r.Some? ==> RoiTypeName(r.value) == s
    ensures r.None? <==> forall t: RoiType :: RoiTypeName(t) != s
  {
    if s == "per_execution" then Some(PerExecution)
    else if s == "recurring_task" then Some(RecurringTask)
    else if s == "new_capability" then Some(NewCapability)
    else None
  }

  /** `frequency` (types/supabase.ts:60). */
  datatype Frequency = Daily | Weekly | Monthly | Quarterly

  function FrequencyName(f: Frequency): string {
    match f
    case Daily => "daily"
    case Weekly => "weekly"
    case Monthly => "monthly"
    case Quarterly => "quarterly"
  }

  function ParseFrequency(s: string): (r: Option<Frequency>)
    ensures r.Some? ==> FrequencyName(r.value) == s
    ensures r.None? <==> forall f: Frequency :: FrequencyName(f) != s
  {
    if s == "daily" then Some(Daily)
    else if s == "weekly" then Some(Weekly)
    else if s == "monthly" then Some(Monthly)
    else if s == "quarterly" then Some(Quarterly)
    else None
  }

  /** A tool's billing `period` (types/supabase.ts:120); `null` is `None`. */
  datatype Period = EveryMonth | EveryQuarter | EveryYear | Every24Months

  function PeriodName(p: Period): string {
    match p
    case EveryMonth => "monthly"
    case EveryQuarter => "quarterly"
    case EveryYear => "yearly"
    case Every24Months => "24months"
  }

  function ParsePeriod(s: string): (r: Option<Period>)
    ensures r.Some? ==> PeriodName(r.value) == s
    ensures r.None? <==> forall p: Period :: PeriodName(p) != s
  {
    if s == "monthly" then Some(EveryMonth)
    else if s == "quarterly" then Some(EveryQuarter)
    else if s == "yearly" then Some(EveryYear)
    else if s == "24months" then Some(Every24Months)
    else None
  }

  /** An execution's `status` (types/supabase.ts:23). */
  datatype ExecutionStatus = Succeeded | Errored

  function StatusName(s: ExecutionStatus): string {
    match s
    case Succeeded => "success"
    case Errored => "error"
  }

  /** `ClientSummary` (types/supabase.ts:4-14), the 24-hour client totals. */
  datatype ClientSummary = ClientSummary(
    clientId: string,
    executions24h: Option<real>,
    success24h: Option<real>,
    errors24h: Option<real>,
    successRate24h: Option<real>)

  /**
   * `RecentExecution` (types/supabase.ts:16-30). `startedAt` is the parsed
   * timestamp; `details` is the text of the details column (a non-string
   * value is represented by its JSON text).
   */
  datatype RecentExecution = RecentExecution(
    executionId: string,
    workflowId: Option<string>,
    workflowName: Option<string>,
    status: ExecutionStatus,
    startedAt: Option<int>,
    durationMs: Option<real>,
    details: Option<string>)

  /** `WorkflowStats` (types/supabase.ts:32-46). */
  datatype WorkflowStats = WorkflowStats(
    workflowId: Option<string>,
    workflowName: Option<string>,
    executions24h: Option<real>,
    success24h: Option<real>,
    errors24h: Option<real>,
    successRate24h: Option<real>)

  /** `WorkflowROIConfig` (types/supabase.ts:48-70), as stored. */
  datatype WorkflowROIConfig = WorkflowROIConfig(
    id: Option<string>,
    workflowId: string,
    clientId: string,
    roiType: string,
    deploymentDate: Option<string>,
    currencyCode: Option<string>,
    workDaysPerWeek: Option<real>,
    manualMinutesSaved: Option<real>,
    hourlyRate: Option<real>,
    implementationCost: Option<real>,
    implementationDate: Option<string>,
    frequency: Option<string>,
    occurrencesPerFrequency: Option<real>,
    valuePerExecution: Option<real>,
    clientsPerReport: Option<real>,
    reactivationRatePercent: Option<real>,
    valuePerClient: Option<real>,
    valuePerFrequency: Option<real>,
    valueDescription: Option<string>,
    notes: Option<string>)

  /** `WorkflowROICalculated` (types/supabase.ts:72-97), one row of the ROI view. */
  datatype WorkflowROICalculated = WorkflowROICalculated(
    workflowId: string,
    workflowName: Option<string>,
    roiType: string,
    deploymentDate: Option<Date>,
    implementationCost: Option<real>,
    daysSinceDeployment: Option<real>,
    successfulExecutions: Option<real>,
    minutesSaved: Option<real>,
    laborCostSaved: Option<real>,
    valueCreated: Option<real>,
    workflowImplementationCost: Option<real>,
    allocatedSetupFee: Option<real>,
    implementationCostApplied: Option<real>,
    currencyCode: Option<string>,
    valueDescription: Option<string>)

  /** `ClientROISummary` (types/supabase.ts:99-114). */
  datatype ClientROISummary = ClientROISummary(
    clientId: string,
    totalMinutesSaved: Option<real>,
    totalHoursSaved: Option<real>,
    totalLaborCostSaved: Option<real>,
    totalValueCreated: Option<real>,
    totalImplementationCosts: Option<real>,
    totalToolCosts: Option<real>,
    totalAutomationCost: Option<real>,
    netRoi: Option<real>,
    currencyCode: Option<string>,
    workflowsWithRoi: Option<real>)

  /**
   * `ClientToolCost` (types/supabase.ts:116-124). `startDate` keeps the
   * difference between a missing and a `null` start date; an empty date
   * string is represented as absent.
   */
  datatype ClientToolCost = ClientToolCost(
    tool: string,
    cost: real,
    recurring: Option<bool>,
    period: Option<Period>,
    startDate: Maybe<Date>,
    endDate: Option<Date>,
    currencyCode: Option<string>)
}
