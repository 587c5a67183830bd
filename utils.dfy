/**
 * The helpers of lib/utils.ts: time, duration and money formatting, the
 * health and duration thresholds, the client-level tool-cost aggregator and
 * its per-workflow share, and the report-value formula. The current time is
 * a parameter.
 */
module Utils {
  import opened Common
  import opened Types

  const MinuteMs: int := 60000
  const HourMs: int := 3600000
  const DayMs: int := 86400000

  // ----- formatTimeAgo (lib/utils.ts:9-25) -----

  /**
   * Elapsed time since `date`, in the largest of minutes, hours and days
   * that fits, always rounded down; under a minute (or with no date) it is
   * "Just now".
   */
  function FormatTimeAgo(date: Option<int>, now: int): (r: Rendered)
    ensures date.None? || now - date.value < MinuteMs ==> r == [Text("Just now")]
    ensures date.Some? && MinuteMs <= now - date.value < HourMs ==>
      |r| == 2 && r[0].Int? && r[1] == Text("m ago") &&
      r[0].n * MinuteMs <= now - date.value < (r[0].n + 1) * MinuteMs
    ensures date.Some? && HourMs <= now - date.value < DayMs ==>
      |r| == 2 && r[0].Int? && r[1] == Text("h ago") &&
      r[0].n * HourMs <= now - date.value < (r[0].n + 1) * HourMs
    ensures date.Some? && DayMs <= now - date.value ==>
      |r| == 2 && r[0].Int? && r[1] == Text("d ago") &&
      r[0].n * DayMs <= now - date.value < (r[0].n + 1) * DayMs
  {
    if date.None? then [Text("Just now")]
    else
      var diffMins := (now - date.value) / MinuteMs;
      if diffMins < 1 then [Text("Just now")]
      else if diffMins < 60 then [Int(diffMins), Text("m ago")]
      else
        var diffHours := diffMins / 60;
        if diffHours < 24 then [Int(diffHours), Text("h ago")]
        else [Int(diffHours / 24), Text("d ago")]
  }

  // ----- formatDuration (lib/utils.ts:27-34) -----

  /**
   * A duration in milliseconds: "-" when missing or 0, raw milliseconds
   * below a second, seconds with one decimal below a minute, and otherwise
   * whole minutes and the whole seconds left over.
   */
  function FormatDuration(ms: Option<int>): (r: Rendered)
    ensures ms.None? || ms.value == 0 ==> r == [Text("-")]
    ensures ms.Some? && ms.value != 0 && ms.value < 1000 ==> r == [Int(ms.value), Text("ms")]
    ensures ms.Some? && 1000 <= ms.value < MinuteMs ==>
      |r| == 2 && r[0].Fixed? && r[0].digits == 1 && r[0].x * 1000.0 == ms.value as real && r[1] == Text("s")
    ensures ms.Some? && MinuteMs <= ms.value ==>
      |r| == 4 && r[0].Int? && r[1] == Text("m ") && r[2].Int? && r[3] == Text("s") &&
      0 <= r[2].n < 60 &&
      r[0].n * MinuteMs + r[2].n * 1000 <= ms.value < r[0].n * MinuteMs + (r[2].n + 1) * 1000
  {
    if ms.None? || ms.value == 0 then [Text("-")]
    else if ms.value < 1000 then [Int(ms.value), Text("ms")]
    else if ms.value < MinuteMs then [Fixed(ms.value as real / 1000.0, 1), Text("s")]
    else
      var minutes := ms.value / MinuteMs;
      var seconds := (ms.value % MinuteMs) / 1000;
      [Int(minutes), Text("m "), Int(seconds), Text("s")]
  }

  // ----- formatDurationSeconds (lib/utils.ts:36-42) -----

  /** A duration in seconds: one decimal below a minute, else whole minutes and seconds. */
  function FormatDurationSeconds(seconds: Option<real>): (r: Rendered)
    ensures !TruthyReal(seconds) ==> r == [Text("-")]
    ensures TruthyReal(seconds) && seconds.value < 60.0 ==> r == [Fixed(seconds.value, 1), Text("s")]
    ensures seconds.Some? && 60.0 <= seconds.value ==>
      |r| == 4 && r[0].Int? && r[1] == Text("m ") && r[2].Int? && r[3] == Text("s") &&
      0 <= r[2].n < 60 &&
      (r[0].n * 60 + r[2].n) as real <= seconds.value < (r[0].n * 60 + r[2].n + 1) as real
  {
    if !TruthyReal(seconds) then [Text("-")]
    else if seconds.value < 60.0 then [Fixed(seconds.value, 1), Text("s")]
    else
      var minutes := (seconds.value / 60.0).Floor;
      var secs := JsRem(seconds.value, 60.0).Floor;
      [Int(minutes), Text("m "), Int(secs), Text("s")]
  }

  // ----- getDurationColor (lib/utils.ts:44-50) -----

  function GetDurationColor(ms: Option<real>): (r: string)
    ensures r == "text-muted-foreground" <==> !TruthyReal(ms)
    ensures r == "text-green-600" <==> TruthyReal(ms) && ms.value < 5000.0
    ensures r == "text-yellow-600" <==> TruthyReal(ms) && 5000.0 <= ms.value < 30000.0
    ensures r == "text-red-600" <==> TruthyReal(ms) && 30000.0 <= ms.value
  {
    if !TruthyReal(ms) then "text-muted-foreground"
    else
      var seconds := ms.value / 1000.0;
      if seconds < 5.0 then "text-green-600"
      else if seconds < 30.0 then "text-yellow-600"
      else "text-red-600"
  }

  /** How alarming a duration colour is. */
  function DurationSeverity(color: string): int {
    if color == "text-red-600" then 2 else if color == "text-yellow-600" then 1 else 0
  }

  /** A longer (non-zero) duration never gets a milder colour. */
  lemma DurationColorMonotone(a: real, b: real)
    requires a != 0.0 && b != 0.0 && a <= b
    ensures DurationSeverity(GetDurationColor(Some(a))) <= DurationSeverity(GetDurationColor(Some(b)))
  {
  }

  // ----- getHealthStatus (lib/utils.ts:52-56) -----

  datatype Health = Healthy | NeedsAttention | Critical

  function HealthName(h: Health): string {
    match h
    case Healthy => "healthy"
    case NeedsAttention => "needs-attention"
    case Critical => "critical"
  }

  function GetHealthStatus(rate: real): (h: Health)
    ensures h == Healthy <==> rate >= 95.0
    ensures h == NeedsAttention <==> 90.0 <= rate < 95.0
    ensures h == Critical <==> rate < 90.0
  {
    if rate >= 95.0 then Healthy
    else if rate >= 90.0 then NeedsAttention
    else Critical
  }

  function HealthRank(h: Health): int {
    match h
    case Healthy => 0
    case NeedsAttention => 1
    case Critical => 2
  }

  /** A higher success rate never has a worse health status. */
  lemma HealthMonotone(a: real, b: real)
    requires a <= b
    ensures HealthRank(GetHealthStatus(b)) <= HealthRank(GetHealthStatus(a))
  {
  }

  // ----- getCurrencySymbol and formatCurrency (lib/utils.ts:59-81) -----

  const Symbols: map<string, string> := map[
    "GBP" := "£", "USD" := "$", "EUR" := "€", "CAD" := "C$", "AUD" := "A$",
    "JPY" := "¥", "CHF" := "CHF", "CNY" := "¥", "INR" := "₹"]

  /** The symbol of a known currency, looked up without regard to case; otherwise the code itself. */
  function GetCurrencySymbol(code: string): (r: string)
    ensures Upper(code) in Symbols ==> r == Symbols[Upper(code)] && r != ""
    ensures Upper(code) !in Symbols ==> r == code
  {
    var upper := Upper(code);
    if upper in Symbols && Symbols[upper] != "" then Symbols[upper] else code
  }

  /**
   * Money rounded to a whole unit: the sign is shown exactly when the
   * rounded value is negative, and the grouped magnitude is within half a
   * unit of the absolute value; it is the magnitude of `Math.round(value)`,
   * so a tie such as -2.5 shows 2.
   */
  function FormatCurrency(value: real, code: string): (r: Rendered)
    ensures |r| == 2 && r[0].Text? && r[1].Grouped?
    ensures r[0].s == (if value < -0.5 then "-" else "") + GetCurrencySymbol(code)
    ensures r[1].g as real - 0.5 <= Abs(value) <= r[1].g as real + 0.5
    ensures r[1].g == if Round(value) < 0 then -Round(value) else Round(value)
  {
    var symbol := GetCurrencySymbol(code);
    var rounded := Round(value);
    if rounded < 0 then [Text("-" + symbol), Grouped(-rounded)]
    else [Text(symbol), Grouped(rounded)]
  }

  // ----- formatHours (lib/utils.ts:83-91) -----

  /** The hours and minutes an "Xh", "Xm" or "Xh Ym" text shows (0 for a part it omits). */
  function HoursAndMinutesShown(r: Rendered): (int, int) {
    if |r| == 2 && r[0].Int? && r[1] == Text("m") then (0, r[0].n)
    else if |r| == 2 && r[0].Int? && r[1] == Text("h") then (r[0].n, 0)
    else if |r| == 4 && r[0].Int? && r[1] == Text("h ") && r[2].Int? && r[3] == Text("m") then (r[0].n, r[2].n)
    else (0, 0)
  }

  /**
   * Minutes as hours and minutes: "0h" for 0; otherwise the whole hours and
   * the whole minutes left over, omitting a part that is 0.
   */
  function FormatHours(minutes: real): (r: Rendered)
    ensures minutes == 0.0 ==> r == [Text("0h")]
    ensures minutes > 0.0 ==>
      var (h, m) := HoursAndMinutesShown(r);
      0 <= m < 60 && 0 <= h && (h * 60 + m) as real <= minutes < (h * 60 + m + 1) as real
    ensures minutes > 0.0 ==>
      var (h, m) := HoursAndMinutesShown(r);
      (h == 0 ==> r == [Int(m), Text("m")]) && (h != 0 && m == 0 ==> r == [Int(h), Text("h")])
  {
    if minutes == 0.0 then [Text("0h")]
    else
      var hours := (minutes / 60.0).Floor;
      var mins := JsRem(minutes, 60.0).Floor;
      if hours == 0 then [Int(mins), Text("m")]
      else if mins == 0 then [Int(hours), Text("h")]
      else [Int(hours), Text("h "), Int(mins), Text("m")]
  }

  // ----- calculateClientToolCosts (lib/utils.ts:159-199) -----

  /** The tool shape this aggregator reads: a start date is required, the period is free text. */
  datatype DatedToolCost = DatedToolCost(cost: real, period: string, startDate: Date, endDate: Option<Date>)

  /** One tool's contribution to `calculateClientToolCosts` up to `endDate`. */
  function ToolCostUntil(tool: DatedToolCost, endDate: Date): (c: real)
    ensures tool.startDate.time > endDate.time ==> c == 0.0
    ensures tool.startDate.time <= endDate.time && tool.endDate.Some? ==> c == tool.cost
    ensures tool.startDate.time <= endDate.time && tool.endDate.None? ==>
      var m := MaxInt(0, MonthDiff(tool.startDate, endDate));
      (tool.period == "monthly" ==> c == tool.cost * m as real) &&
      (tool.period == "quarterly" ==> c == tool.cost * (m / 3) as real) &&
      (tool.period == "yearly" ==> c == tool.cost * MaxInt(0, endDate.year - tool.startDate.year) as real) &&
      (tool.period == "24months" ==> c == tool.cost * (m / 24) as real) &&
      (tool.period !in {"monthly", "quarterly", "yearly", "24months"} ==> c == 0.0)
    ensures tool.cost >= 0.0 ==> c >= 0.0
  {
    if tool.startDate.time > endDate.time then 0.0
    else if tool.endDate.Some? then
      (if endDate.time >= tool.startDate.time then tool.cost else 0.0)
    else
      var months := MaxInt(0, MonthDiff(tool.startDate, endDate));
      if tool.period == "monthly" then Scale(tool.cost, months)
      else if tool.period == "quarterly" then Scale(tool.cost, months / 3)
      else if tool.period == "yearly" then Scale(tool.cost, MaxInt(0, endDate.year - tool.startDate.year))
      else if tool.period == "24months" then Scale(tool.cost, months / 24)
      else 0.0
  }

  /** The client's accumulated tool cost up to `endDate`: the sum of every tool's contribution. */
  function CalculateClientToolCosts(tools: seq<DatedToolCost>, endDate: Date): (total: real)
    ensures total == SumOf(tools, (t: DatedToolCost) => ToolCostUntil(t, endDate))
    ensures (forall i :: 0 <= i < |tools| ==> tools[i].cost >= 0.0) ==> total >= 0.0
  {
    if tools == [] then 0.0
    else ToolCostUntil(tools[0], endDate) + CalculateClientToolCosts(tools[1..], endDate)
  }

  /**
   * A tool with a non-negative cost never costs less at a later end date
   * (a later instant whose calendar month is not earlier).
   */
  lemma ToolCostUntilMonotone(tool: DatedToolCost, end1: Date, end2: Date)
    requires tool.cost >= 0.0
    requires end1.time <= end2.time && 0 <= end1.month < 12 && 0 <= end2.month < 12 && MonthDiff(end1, end2) >= 0
    ensures ToolCostUntil(tool, end1) <= ToolCostUntil(tool, end2)
  {
    var m1 := MaxInt(0, MonthDiff(tool.startDate, end1));
    var m2 := MaxInt(0, MonthDiff(tool.startDate, end2));
    assert MonthDiff(tool.startDate, end2) == MonthDiff(tool.startDate, end1) + MonthDiff(end1, end2);
    assert end1.year <= end2.year;
    if tool.startDate.time <= end1.time && tool.endDate.None? {
      if tool.period == "monthly" {
        ScaleMonotone(tool.cost, m1, m2);
      } else if tool.period == "quarterly" {
        ScaleMonotone(tool.cost, m1 / 3, m2 / 3);
      } else if tool.period == "yearly" {
        ScaleMonotone(tool.cost, MaxInt(0, end1.year - tool.startDate.year), MaxInt(0, end2.year - tool.startDate.year));
      } else if tool.period == "24months" {
        ScaleMonotone(tool.cost, m1 / 24, m2 / 24);
      }
    }
  }

  /** The total over several tools is non-decreasing in the end date as well. */
  lemma {:induction false} ClientToolCostsMonotone(tools: seq<DatedToolCost>, end1: Date, end2: Date)
    requires forall i :: 0 <= i < |tools| ==> tools[i].cost >= 0.0
    requires end1.time <= end2.time && 0 <= end1.month < 12 && 0 <= end2.month < 12 && MonthDiff(end1, end2) >= 0
    ensures CalculateClientToolCosts(tools, end1) <= CalculateClientToolCosts(tools, end2)
  {
    if tools != [] {
      ToolCostUntilMonotone(tools[0], end1, end2);
      ClientToolCostsMonotone(tools[1..], end1, end2);
    }
  }

  // ----- calculateWorkflowAutomationCost (lib/utils.ts:135-156) -----

  /** The implementation cost once the implementation date has passed, else 0. */
  function ImplementationApplied(implementationCost: Option<real>, implementationDate: Option<Date>, endDate: Date): real {
    if implementationDate.Some? && implementationDate.value.time <= endDate.time
    then OrReal(implementationCost, 0.0) else 0.0
  }

  /**
   * One workflow's automation cost: its implementation cost once the
   * implementation date has passed, plus an equal share of the client's tool
   * costs when there are workflows and tools to share.
   */
  function CalculateWorkflowAutomationCost(
    implementationCost: Option<real>, implementationDate: Option<Date>,
    tools: seq<DatedToolCost>, workflowCount: int, endDate: Date): (total: real)
    ensures workflowCount <= 0 || tools == [] ==>
      total == ImplementationApplied(implementationCost, implementationDate, endDate)
    ensures workflowCount > 0 && tools != [] ==>
      total == ImplementationApplied(implementationCost, implementationDate, endDate)
               + CalculateClientToolCosts(tools, endDate) / workflowCount as real
  {
    var implementation := ImplementationApplied(implementationCost, implementationDate, endDate);
    if workflowCount > 0 && |tools| > 0 then
      var toolTotal := CalculateClientToolCosts(tools, endDate);
      implementation + toolTotal / workflowCount as real
    else implementation
  }

  // ----- formatPeriodDisplay (lib/utils.ts:202-215) -----

  /** Only the yearly and 24-month periods are relabelled; every other text is shown as is. */
  function FormatPeriodDisplay(period: string): (r: string)
    ensures period == "yearly" ==> r == "12 months"
    ensures period == "24months" ==> r == "24 months"
    ensures period != "yearly" && period != "24months" ==> r == period
  {
    match period
    case "monthly" => "monthly"
    case "quarterly" => "quarterly"
    case "yearly" => "12 months"
    case "24months" => "24 months"
    case _ => period
  }

  // ----- calculateReportValue (lib/utils.ts:218-226) -----

  /** Expected reactivations (executions × clients × rate%) times the value per client. */
  function CalculateReportValue(clientsPerReport: real, reactivationRate: real, valuePerClient: real, executions: real): real {
    var expectedReactivations := executions * clientsPerReport * (reactivationRate / 100.0);
    expectedReactivations * valuePerClient
  }

  /** With non-negative parameters the report value grows with the number of executions. */
  lemma ReportValueMonotone(clients: real, rate: real, value: real, e1: real, e2: real)
    requires clients >= 0.0 && rate >= 0.0 && value >= 0.0 && 0.0 <= e1 <= e2
    ensures 0.0 <= CalculateReportValue(clients, rate, value, e1) <= CalculateReportValue(clients, rate, value, e2)
  {
    var k := clients * (rate / 100.0) * value;
    assert k >= 0.0;
    assert CalculateReportValue(clients, rate, value, e1) == e1 * k;
    assert CalculateReportValue(clients, rate, value, e2) == e2 * k;
  }
}
