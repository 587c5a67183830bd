/**
 * The decisions lib/supabase.ts makes before it talks to the database: how
 * `getRecentExecutions` narrows and bounds its query and what it returns
 * for missing results, and how `updateClientTools` replaces a client's
 * tool rows. The queries themselves and their answers are not modelled:
 * a query is described by the filters and the row selection it carries.
 */
module SupabaseQueries {
  import opened Common
  import opened Types
  import ToolCostManager

  // ----- getRecentExecutions (lines 20-83) -----

  /** The optional `filters` argument; a missing argument has every field missing. */
  datatype ExecutionFilters = ExecutionFilters(
    status: Option<string>,
    limit: Option<int>,
    days: Option<int>,
    offset: Option<int>,
    workflowName: Option<string>)

  const NoFilters := ExecutionFilters(None, None, None, None, None)

  /** Which rows of the ordered result are fetched: an inclusive range, or the first `n`. */
  datatype RowSelection = Range(from: int, to: int) | Limit(n: int)

  /**
   * The query sent: always for one client and ordered by start time,
   * newest first; `since` is the lower bound on `started_at` in
   * milliseconds.
   */
  datatype ExecutionQuery = ExecutionQuery(
    clientId: string,
    since: Option<int>,
    status: Option<string>,
    workflowName: Option<string>,
    rows: RowSelection)

  const DayMs: int := 24 * 60 * 60 * 1000
  const MaxRows: int := 1000

  predicate TruthyInt(x: Option<int>) {
    x.Some? && x.value != 0
  }

  /**
   * Builds the query step by step as the source does. The date filter is
   * added only for a non-zero number of days, reaching back that many
   * 24-hour periods from `now`; status and workflow filters only when
   * given and non-empty. With an offset and a non-zero limit the rows are
   * the range [offset, offset + limit - 1]; with a limit alone at most 1000
   * rows; with neither, 1000 rows when days are given and 100 otherwise.
   */
  method BuildExecutionQuery(clientId: string, filters: ExecutionFilters, now: int) returns (query: ExecutionQuery)
    ensures query.clientId == clientId
    ensures query.since.Some? <==> TruthyInt(filters.days)
    ensures query.since.Some? ==> query.since.value == now - filters.days.value * DayMs
    ensures query.status == (if TruthyText(filters.status) then filters.status else None)
    ensures query.workflowName == (if TruthyText(filters.workflowName) then filters.workflowName else None)
    ensures filters.offset.Some? && TruthyInt(filters.limit) ==>
      query.rows == Range(filters.offset.value, filters.offset.value + filters.limit.value - 1)
    ensures filters.offset.None? && TruthyInt(filters.limit) ==>
      query.rows == Limit(MinInt(filters.limit.value, MaxRows))
    ensures !TruthyInt(filters.limit) ==>
      query.rows == Limit(if TruthyInt(filters.days) then MaxRows else 100)
    ensures query.rows.Limit? ==> query.rows.n <= MaxRows
  {
    query := ExecutionQuery(clientId, None, None, None, Limit(0));
    if TruthyInt(filters.days) {
      var threshold := now - filters.days.value * DayMs;
      query := query.(since := Some(threshold));
    }
    if TruthyText(filters.status) {
      query := query.(status := filters.status);
    }
    if TruthyText(filters.workflowName) {
      query := query.(workflowName := filters.workflowName);
    }
    if filters.offset.Some? && TruthyInt(filters.limit) {
      var from := filters.offset.value;
      var to := filters.offset.value + filters.limit.value - 1;
      query := query.(rows := Range(from, to));
    } else if TruthyInt(filters.limit) {
      query := query.(rows := Limit(MinInt(filters.limit.value, MaxRows)));
    } else {
      var defaultLimit := if TruthyInt(filters.days) then MaxRows else 100;
      query := query.(rows := Limit(defaultLimit));
    }
  }

  /** The rows a selection picks out of the ordered, filtered result. */
  function SelectRows<T>(all: seq<T>, rows: RowSelection): (picked: seq<T>)
    ensures rows.Limit? && rows.n >= 0 ==> |picked| == MinInt(rows.n, |all|)
    ensures rows.Range? && 0 <= rows.from <= rows.to ==> |picked| == MaxInt(0, MinInt(rows.to + 1, |all|) - rows.from)
    ensures forall k :: 0 <= k < |picked| && rows.Range? && rows.from >= 0 ==>
      rows.from + k < |all| && picked[k] == all[rows.from + k]
    ensures |picked| <= |all|
    ensures rows.Limit? ==> picked == all[..|picked|]
  {
    match rows
    case Limit(n) => if n <= 0 then [] else all[..MinInt(n, |all|)]
    case Range(from, to) =>
      if from < 0 || from >= |all| || to < from then []
      else all[from..MinInt(to + 1, |all|)]
  }

  /** What the function returns: the rows (none when the answer had none) and the count (0 when missing). */
  datatype ExecutionPage = ExecutionPage(data: seq<RecentExecution>, count: nat)

  function ExecutionResult(data: Option<seq<RecentExecution>>, count: Option<nat>): (r: ExecutionPage)
    ensures data.Some? ==> r.data == data.value
    ensures data.None? ==> r.data == []
    ensures r.count == (if count.Some? then count.value else 0)
  {
    ExecutionPage(OrElse(data, []), if count.Some? then count.value else 0)
  }

  // ----- updateClientTools (lines 185-233) -----

  /**
   * A row as inserted. `endDate` is `None` when the key is left out;
   * `startDate` distinguishes a left-out key from `null`.
   */
  datatype InsertRow = InsertRow(
    clientId: string,
    tool: string,
    cost: real,
    period: Option<string>,
    recurring: bool,
    enabled: bool,
    currencyCode: Option<string>,
    endDate: Option<string>,
    startDate: Maybe<string>)

  /**
   * The row inserted for a tool: cost as given, an empty period or
   * currency becomes null, recurring unless explicitly false, always
   * enabled; the end date key only when there is an end date, the start
   * date key (null when empty) only when the tool is not explicitly
   * one-time.
   */
  predicate InsertedFrom(row: InsertRow, clientId: string, t: ToolCostManager.Tool) {
    row.clientId == clientId && row.tool == t.tool && row.cost == t.cost && row.enabled &&
    row.period == (if TruthyText(t.period) then t.period else None) &&
    (row.recurring <==> t.recurring != Some(false)) &&
    row.currencyCode == (if TruthyText(t.currencyCode) then t.currencyCode else None) &&
    row.endDate == (if TruthyText(t.endDate) then t.endDate else None) &&
    (t.recurring == Some(false) ==> row.startDate == Undefined) &&
    (t.recurring != Some(false) ==>
      row.startDate == (if ToolCostManager.TruthyDate(t.startDate) then t.startDate else Null))
  }

  /**
   * `baseTool` for one tool, built as the source does: the fixed fields
   * first, then the end date and the start date keys when they apply.
   */
  method ToInsertRow(clientId: string, t: ToolCostManager.Tool) returns (row: InsertRow)
    ensures InsertedFrom(row, clientId, t)
  {
    row := InsertRow(clientId, t.tool, t.cost, if TruthyText(t.period) then t.period else None,
                     OrElse(t.recurring, true), true,
                     if TruthyText(t.currencyCode) then t.currencyCode else None, None, Undefined);
    if TruthyText(t.endDate) {
      row := row.(endDate := t.endDate);
    }
    if t.recurring != Some(false) {
      row := row.(startDate := if ToolCostManager.TruthyDate(t.startDate) then t.startDate else Null);
    }
  }

  /**
   * What an update does: the client's stored rows are always deleted
   * first; then, unless the list is empty, one row per tool is inserted.
   */
  datatype ToolUpdate = ToolUpdate(deleteExisting: bool, inserted: seq<InsertRow>)

  method UpdateClientTools(clientId: string, tools: seq<ToolCostManager.Tool>) returns (update: ToolUpdate)
    ensures update.deleteExisting
    ensures |update.inserted| == |tools|
    ensures forall i :: 0 <= i < |tools| ==> InsertedFrom(update.inserted[i], clientId, tools[i])
  {
    if tools == [] {
      return ToolUpdate(true, []);
    }
    var rows: seq<InsertRow> := [];
    var i := 0;
    while i < |tools|
      invariant 0 <= i <= |tools| && |rows| == i
      invariant forall k :: 0 <= k < i ==> InsertedFrom(rows[k], clientId, tools[k])
    {
      var row := ToInsertRow(clientId, tools[i]);
      rows := rows + [row];
      i := i + 1;
    }
    update := ToolUpdate(true, rows);
  }

  /** The client's stored rows after an update: whatever was there is replaced by the inserted rows. */
  function StoredAfter(stored: seq<InsertRow>, update: ToolUpdate): (after: seq<InsertRow>)
    ensures update.deleteExisting ==> after == update.inserted
  {
    (if update.deleteExisting then [] else stored) + update.inserted
  }

  /** Saving an empty list removes every tool the client had. */
  method EmptySaveClearsTools(clientId: string, stored: seq<InsertRow>) returns (after: seq<InsertRow>)
    ensures after == []
  {
    var update := UpdateClientTools(clientId, []);
    after := StoredAfter(stored, update);
  }

  /**
   * A record normalised by the editor's save is inserted as saved: the
   * same recurring flag and start date, and a one-time fee keeps its end
   * date and has no start date.
   */
  method SavedRecordInsertedAsSaved(clientId: string, editorRow: ToolCostManager.ToolRow, clientCurrency: string)
    returns (row: InsertRow)
    ensures var t := ToolCostManager.Normalise(editorRow, clientCurrency);
            row.recurring == t.recurring.value && row.startDate == t.startDate
    ensures var t := ToolCostManager.Normalise(editorRow, clientCurrency);
            !row.recurring ==> row.endDate == t.endDate && row.startDate == Undefined && row.period == None
  {
    var t := ToolCostManager.Normalise(editorRow, clientCurrency);
    row := ToInsertRow(clientId, t);
  }
}
