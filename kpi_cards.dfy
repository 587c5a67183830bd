/**
 * The headline KPI cards (components/KPICards.tsx): the defaults taken when
 * one of the six fetches is rejected, the summary figures with their
 * fallbacks, and the two short currency formatters.
 */
module KPICards {
  import opened Common
  import opened Types
  import opened Utils

  // ----- settled fetches (lines 35-55) -----

  /** The outcome of one promise passed to `Promise.allSettled`. */
  datatype Settled<T> = Fulfilled(value: T) | Rejected

  /** A fulfilled value, or the default for a rejected fetch. */
  function ValueOr<T>(s: Settled<T>, default: T): (v: T)
    ensures s.Fulfilled? ==> v == s.value
    ensures s.Rejected? ==> v == default
  {
    match s
    case Fulfilled(x) => x
    case Rejected => default
  }

  /**
   * The client record merged with the tool costs: the record's own fields
   * (none when its fetch failed, as spreading `null` adds none) and the
   * tool list.
   */
  datatype ClientData = ClientData(fields: map<string, string>, toolCosts: seq<ClientToolCost>)

  /** The component state after one refresh. */
  datatype KPIState = KPIState(
    summary: Option<ClientROISummary>,
    workflows: seq<WorkflowROICalculated>,
    client: ClientData,
    totalWorkflows: nat,
    configs: seq<WorkflowROIConfig>)

  /**
   * Every fetch is settled independently: each rejected one leaves its
   * default (no summary, an empty list, a count of 0, a client with no own
   * fields), and a fulfilled one is used as it is. The client's workflows
   * are given by their ids; only their number is kept.
   */
  function AfterFetch(
    summary: Settled<Option<ClientROISummary>>,
    workflows: Settled<seq<WorkflowROICalculated>>,
    client: Settled<Option<map<string, string>>>,
    allWorkflows: Settled<seq<string>>,
    configs: Settled<seq<WorkflowROIConfig>>,
    tools: Settled<seq<ClientToolCost>>): (st: KPIState)
    ensures summary.Rejected? ==> st.summary.None?
    ensures summary.Fulfilled? ==> st.summary == summary.value
    ensures workflows.Rejected? ==> st.workflows == []
    ensures workflows.Fulfilled? ==> st.workflows == workflows.value
    ensures client.Rejected? ==> st.client.fields == map[]
    ensures client.Fulfilled? ==>
      st.client.fields == (if client.value.Some? then client.value.value else map[])
    ensures allWorkflows.Rejected? ==> st.totalWorkflows == 0
    ensures allWorkflows.Fulfilled? ==> st.totalWorkflows == |allWorkflows.value|
    ensures configs.Rejected? ==> st.configs == []
    ensures configs.Fulfilled? ==> st.configs == configs.value
    ensures tools.Rejected? ==> st.client.toolCosts == []
    ensures tools.Fulfilled? ==> st.client.toolCosts == tools.value
  {
    var fields := ValueOr(client, None);
    KPIState(
      ValueOr(summary, None),
      ValueOr(workflows, []),
      ClientData(if fields.Some? then fields.value else map[], ValueOr(tools, [])),
      |ValueOr(allWorkflows, [])|,
      ValueOr(configs, []))
  }

  /**
   * A rejected fetch never discards what the other fetches returned:
   * rejecting any one of the six changes only the part of the state that
   * fetch supplies, which takes its default.
   */
  lemma RejectionIsIsolated(
    summary: Settled<Option<ClientROISummary>>,
    workflows: Settled<seq<WorkflowROICalculated>>,
    client: Settled<Option<map<string, string>>>,
    allWorkflows: Settled<seq<string>>,
    configs: Settled<seq<WorkflowROIConfig>>,
    tools: Settled<seq<ClientToolCost>>)
    ensures var st := AfterFetch(summary, workflows, client, allWorkflows, configs, tools);
      AfterFetch(Rejected, workflows, client, allWorkflows, configs, tools) == st.(summary := None) &&
      AfterFetch(summary, Rejected, client, allWorkflows, configs, tools) == st.(workflows := []) &&
      AfterFetch(summary, workflows, Rejected, allWorkflows, configs, tools) == st.(client := st.client.(fields := map[])) &&
      AfterFetch(summary, workflows, client, Rejected, configs, tools) == st.(totalWorkflows := 0) &&
      AfterFetch(summary, workflows, client, allWorkflows, Rejected, tools) == st.(configs := []) &&
      AfterFetch(summary, workflows, client, allWorkflows, configs, Rejected) == st.(client := st.client.(toolCosts := []))
  {
  }

  // ----- the summary figures (lines 124-138) -----

  datatype Figures = Figures(
    currency: string,
    hoursSaved: real,
    laborCostSaved: real,
    valueCreated: real,
    implementationCosts: real,
    toolCosts: real,
    workflowsCount: real,
    automationCost: real,
    netRoi: real)

  /**
   * Hours saved: the stored hours when non-zero, else the stored minutes
   * over 60 when non-zero, else 0.
   */
  function HoursSaved(data: ClientROISummary): (h: real)
    ensures TruthyReal(data.totalHoursSaved) ==> h == data.totalHoursSaved.value
    ensures !TruthyReal(data.totalHoursSaved) && TruthyReal(data.totalMinutesSaved) ==>
      h * 60.0 == data.totalMinutesSaved.value
    ensures !TruthyReal(data.totalHoursSaved) && !TruthyReal(data.totalMinutesSaved) ==> h == 0.0
  {
    var hours := OrReal(data.totalHoursSaved, 0.0);
    if hours != 0.0 then hours
    else if TruthyReal(data.totalMinutesSaved) then data.totalMinutesSaved.value / 60.0
    else 0.0
  }

  /**
   * The figures the cards show: each missing (or zero) column is 0 and the
   * currency is GBP unless the view names one; automation cost and net ROI
   * are the view's own columns, not recomputed here.
   */
  function SummaryFigures(data: ClientROISummary): (f: Figures)
    ensures f.currency == OrText(data.currencyCode, "GBP") && f.currency != ""
    ensures f.hoursSaved == HoursSaved(data)
    ensures f.laborCostSaved == OrElse(data.totalLaborCostSaved, 0.0)
    ensures f.valueCreated == OrElse(data.totalValueCreated, 0.0)
    ensures f.implementationCosts == OrElse(data.totalImplementationCosts, 0.0)
    ensures f.toolCosts == OrElse(data.totalToolCosts, 0.0)
    ensures f.workflowsCount == OrElse(data.workflowsWithRoi, 0.0)
    ensures f.automationCost == OrElse(data.totalAutomationCost, 0.0)
    ensures f.netRoi == OrElse(data.netRoi, 0.0)
  {
    Figures(
      OrText(data.currencyCode, "GBP"),
      HoursSaved(data),
      OrReal(data.totalLaborCostSaved, 0.0),
      OrReal(data.totalValueCreated, 0.0),
      OrReal(data.totalImplementationCosts, 0.0),
      OrReal(data.totalToolCosts, 0.0),
      OrReal(data.workflowsWithRoi, 0.0),
      OrReal(data.totalAutomationCost, 0.0),
      OrReal(data.netRoi, 0.0))
  }

  /**
   * The net ROI card shows the view's column as it is: changing the labour,
   * value or automation columns leaves it unchanged, so it agrees with
   * labour + value - automation cost only when the view does.
   */
  lemma NetRoiIsTheViewColumn(data: ClientROISummary, labor: Option<real>, value: Option<real>, automation: Option<real>)
    ensures SummaryFigures(data.(totalLaborCostSaved := labor, totalValueCreated := value,
                                 totalAutomationCost := automation)).netRoi
         == SummaryFigures(data).netRoi
  {
  }

  // ----- formatCurrencyWithDecimal (lines 141-150) -----

  /**
   * Money with one decimal: "-" exactly for a negative value, the symbol,
   * then the magnitude in thousands with "K" from 1000 up, otherwise the
   * magnitude itself.
   */
  function FormatCurrencyWithDecimal(value: real, code: string): (r: Rendered)
    ensures |r| == 2 || |r| == 3
    ensures r[0].Text? && r[1].Fixed? && r[1].digits == 1
    ensures r[0].s == (if value < 0.0 then "-" else "") + GetCurrencySymbol(code)
    ensures |r| == 3 <==> Abs(value) >= 1000.0
    ensures |r| == 3 ==> r[2] == Text("K")
  {
    var symbol := GetCurrencySymbol(code);
    var absValue := Abs(value);
    var sign := if value < 0.0 then "-" else "";
    if absValue >= 1000.0 then [Text(sign + symbol), Fixed(absValue / 1000.0, 1), Text("K")]
    else [Text(sign + symbol), Fixed(absValue, 1)]
  }

  /** The amount a `FormatCurrencyWithDecimal` text stands for, before `toFixed` rounds it. */
  function ShownAmount(r: Rendered, code: string): real
    requires |r| >= 2 && r[0].Text? && r[1].Fixed?
  {
    var magnitude := if |r| == 3 then r[1].x * 1000.0 else r[1].x;
    if r[0].s == "-" + GetCurrencySymbol(code) then -magnitude else magnitude
  }

  /** Reading the sign, the digits and the "K" back gives the value that was formatted. */
  lemma WithDecimalRoundTrip(value: real, code: string)
    ensures ShownAmount(FormatCurrencyWithDecimal(value, code), code) == value
  {
    var symbol := GetCurrencySymbol(code);
    var r := FormatCurrencyWithDecimal(value, code);
    if value >= 0.0 {
      assert r[0].s == symbol;
      assert |symbol| < |"-" + symbol|;
    }
  }

  // ----- formatCurrencyK (lines 153-160) -----

  /**
   * Money in whole units, in thousands with a "K" from 1000 up. Removing a
   * trailing ".00" from `formatCurrency`'s text changes nothing, because
   * that text never has decimals.
   */
  function FormatCurrencyK(value: real, code: string): (r: Rendered)
    ensures |r| >= 2 && r[0].Text? && r[1].Grouped?
    ensures r[|r| - 1] == Text("K") <==> Abs(value) >= 1000.0
    ensures var scale := if Abs(value) >= 1000.0 then 1000.0 else 1.0;
            scale * (r[1].g as real - 0.5) <= Abs(value) <= scale * (r[1].g as real + 0.5)
    ensures var scale := if Abs(value) >= 1000.0 then 1000.0 else 1.0;
            r[0].s == (if value < -0.5 * scale then "-" else "") + GetCurrencySymbol(code)
  {
    if Abs(value) >= 1000.0 then
      var r := FormatCurrency(value / 1000.0, code) + [Text("K")];
      assert Abs(value / 1000.0) * 1000.0 == Abs(value);
      r
    else FormatCurrency(value, code)
  }
}
