/**
 * The admin tool-cost editor (components/admin/ToolCostManager.tsx): the
 * default tools merged with the client's stored tools, the row edits, the
 * normalisation applied on save and the unsaved-changes test.
 */
module ToolCostManager {
  import opened Common

  /** A tool-cost record as stored and as held in the editor (without the editor's flags). */
  datatype Tool = Tool(
    tool: string,
    cost: real,
    recurring: Option<bool>,
    period: Option<string>,
    startDate: Maybe<string>,
    endDate: Option<string>,
    currencyCode: Option<string>)

  /** An editor row: the record plus whether it is enabled and whether it is one of the defaults. */
  datatype ToolRow = ToolRow(t: Tool, enabled: bool, isDefault: bool)

  /** The edits the row inputs make (lines 183-196 and the date inputs). */
  datatype Edit = SetCost(cost: real) | SetPeriod(p: string) | SetStartDate(start: string) | SetEndDate(end: string)

  // ----- defaults (lines 32-66) -----

  const DefaultCount: nat := 4

  function DefaultName(i: nat): string
    requires i < DefaultCount
  {
    if i == 0 then "Audit / Initial setup"
    else if i == 1 then "Hosting"
    else if i == 2 then "Supabase"
    else "LLM Tokens"
  }

  /**
   * The i-th default tool; `today` is the date string the one-time audit
   * fee ends on (the module evaluates it once, when it is loaded).
   */
  function DefaultTool(i: nat, today: string, currency: string): (r: ToolRow)
    requires i < DefaultCount
    ensures r.t.tool == DefaultName(i) && r.isDefault
    ensures r.t.recurring == Some(i != 0)
    ensures r.enabled <==> i < 2
  {
    var t :=
      if i == 0 then Tool(DefaultName(0), 0.0, Some(false), None, Undefined, Some(today), Some(currency))
      else if i == 1 then Tool(DefaultName(1), 83.88, Some(true), Some("yearly"), Undefined, None, Some(currency))
      else Tool(DefaultName(i), 0.0, Some(true), Some("monthly"), Undefined, None, Some(currency));
    ToolRow(t, i < 2, true)
  }

  /** The name matches one of the defaults, ignoring case. */
  predicate IsDefaultName(name: string) {
    exists i :: 0 <= i < DefaultCount && Lower(name) == Lower(DefaultName(i))
  }

  // ----- monthly price hint (lines 78-87) -----

  /** The monthly equivalent of a recurring price; 0 for any other period, quarterly included. */
  function GetMonthlyPrice(cost: real, period: string): (r: real)
    ensures period == "yearly" ==> r * 12.0 == cost
    ensures period == "24months" ==> r * 24.0 == cost
    ensures period == "monthly" ==> r == cost
    ensures period !in {"yearly", "24months", "monthly"} ==> r == 0.0
  {
    if period == "yearly" then cost / 12.0
    else if period == "24months" then cost / 24.0
    else if period == "monthly" then cost
    else 0.0
  }

  /**
   * The rounded monthly hint shown under an enabled, recurring row with a
   * period (lines 422 and 440): a disabled row shows no edit panel at all.
   */
  function MonthlyHint(row: ToolRow): (r: Option<int>)
    ensures r.Some? <==> row.enabled && row.t.recurring != Some(false) && TruthyText(row.t.period)
    ensures r.Some? ==> r.value == Round(GetMonthlyPrice(row.t.cost, row.t.period.value))
  {
    if row.enabled && row.t.recurring != Some(false) && TruthyText(row.t.period) then
      Some(Round(GetMonthlyPrice(row.t.cost, row.t.period.value)))
    else None
  }

  // ----- merge of defaults and stored tools (lines 112-148, 296-328) -----

  /** The stored tool whose lower-cased name is `key`; the last one wins, as in a `Map` built from pairs. */
  function LastByName(tools: seq<Tool>, key: string): (r: Option<Tool>)
    ensures r.None? <==> forall i :: 0 <= i < |tools| ==> Lower(tools[i].tool) != key
    ensures r.Some? ==> r.value in tools && Lower(r.value.tool) == key
    ensures forall i ::
      (0 <= i < |tools| && Lower(tools[i].tool) == key && forall j :: i < j < |tools| ==> Lower(tools[j].tool) != key)
      ==> r == Some(tools[i])
    decreases |tools|
  {
    if tools == [] then None
    else
      var last := tools[|tools| - 1];
      if Lower(last.tool) == key then Some(last)
      else
        var front := tools[..|tools| - 1];
        assert forall i :: 0 <= i < |front| ==> front[i] == tools[i];
        LastByName(front, key)
  }

  /** `a || b` on optional date strings. */
  function OrDate(a: Option<string>, b: Option<string>): Option<string> {
    if TruthyText(a) then a else b
  }

  /**
   * The row for the i-th default: the stored tool of that name, enabled,
   * when there is one (on load its missing end date falls back to the
   * default's); the default itself otherwise.
   */
  function DefaultRow(i: nat, existing: seq<Tool>, currency: string, today: string, endDateFallback: bool): (r: ToolRow)
    requires i < DefaultCount
    ensures r.isDefault && Lower(r.t.tool) == Lower(DefaultName(i))
    ensures LastByName(existing, Lower(DefaultName(i))).None? ==> r == DefaultTool(i, today, currency)
    ensures LastByName(existing, Lower(DefaultName(i))).Some? ==>
      var found := LastByName(existing, Lower(DefaultName(i))).value;
      r.enabled && r.t.(endDate := found.endDate) == found &&
      r.t.endDate == (if endDateFallback && !TruthyText(found.endDate)
                      then DefaultTool(i, today, currency).t.endDate else found.endDate)
  {
    var default := DefaultTool(i, today, currency);
    match LastByName(existing, Lower(DefaultName(i)))
    case Some(found) =>
      var end := if endDateFallback then OrDate(found.endDate, default.t.endDate) else found.endDate;
      ToolRow(found.(endDate := end), true, true)
    case None => default
  }

  function DefaultRows(existing: seq<Tool>, currency: string, today: string, endDateFallback: bool): (r: seq<ToolRow>)
    ensures |r| == DefaultCount
    ensures forall i :: 0 <= i < DefaultCount ==> r[i] == DefaultRow(i, existing, currency, today, endDateFallback)
  {
    seq(DefaultCount, i requires 0 <= i < DefaultCount => DefaultRow(i, existing, currency, today, endDateFallback))
  }

  /** The stored tools that are not defaults, in order, each as an enabled non-default row. */
  function CustomRows(existing: seq<Tool>): (r: seq<ToolRow>)
    ensures |r| <= |existing|
    ensures forall row :: row in r ==> !row.isDefault
    decreases |existing|
  {
    if existing == [] then []
    else
      var last := existing[|existing| - 1];
      CustomRows(existing[..|existing| - 1]) + (if IsDefaultName(last.tool) then [] else [ToolRow(last, true, false)])
  }

  /**
   * The custom rows are exactly the stored tools whose names are not
   * defaults, each enabled.
   */
  lemma {:induction false} CustomRowsContents(existing: seq<Tool>)
    ensures forall row :: row in CustomRows(existing) ==> row.enabled && row.t in existing && !IsDefaultName(row.t.tool)
    ensures forall t :: t in existing && !IsDefaultName(t.tool) ==> ToolRow(t, true, false) in CustomRows(existing)
    decreases |existing|
  {
    if existing != [] {
      var last := existing[|existing| - 1];
      var front := existing[..|existing| - 1];
      assert forall t :: t in existing ==> t in front || t == last;
      CustomRowsContents(front);
    }
  }

  /** The editor's rows: the four defaults in order, then every non-default stored tool. */
  function Merged(existing: seq<Tool>, currency: string, today: string, endDateFallback: bool): seq<ToolRow> {
    DefaultRows(existing, currency, today, endDateFallback) + CustomRows(existing)
  }

  // ----- save normalisation (lines 244-268) -----

  predicate TruthyDate(d: Maybe<string>) {
    d.Defined? && d.value != ""
  }

  /**
   * The record saved for an enabled row: its currency falls back to the
   * client's; a row with an end date is a one-time fee (not recurring, no
   * period, start date removed); any other row is recurring and an empty
   * start date becomes null.
   */
  function Normalise(row: ToolRow, clientCurrency: string): (r: Tool)
    ensures r.tool == row.t.tool && r.cost == row.t.cost
    ensures r.currencyCode == Some(OrText(row.t.currencyCode, clientCurrency))
    ensures r.recurring == Some(!TruthyText(row.t.endDate))
    ensures TruthyText(row.t.endDate) ==> r.period == None && r.startDate == Undefined && r.endDate == row.t.endDate
    ensures !TruthyText(row.t.endDate) ==>
      r.period == row.t.period && r.startDate == (if TruthyDate(row.t.startDate) then row.t.startDate else Null)
  {
    var hasEndDate := TruthyText(row.t.endDate);
    var base := row.t.(currencyCode := Some(OrText(row.t.currencyCode, clientCurrency)), recurring := Some(!hasEndDate));
    if hasEndDate then base.(period := None, startDate := Undefined)
    else if !TruthyDate(row.t.startDate) then base.(startDate := Null)
    else base
  }

  /** What a save sends: the enabled rows, normalised, in order. */
  function SaveList(rows: seq<ToolRow>, clientCurrency: string): (r: seq<Tool>)
    ensures |r| <= |rows|
    ensures forall t :: t in r ==> exists row :: row in rows && row.enabled && t == Normalise(row, clientCurrency)
    ensures forall row :: row in rows && row.enabled ==> Normalise(row, clientCurrency) in r
  {
    if rows == [] then []
    else
      assert forall row :: row in rows ==> row == rows[0] || row in rows[1..];
      (if rows[0].enabled then [Normalise(rows[0], clientCurrency)] else []) + SaveList(rows[1..], clientCurrency)
  }

  /**
   * A save keeps the rows' order: saving a concatenation sends the saved
   * rows of each part, one after the other, and a single row is sent
   * exactly when it is enabled.
   */
  lemma {:induction false} SaveListKeepsOrder(a: seq<ToolRow>, b: seq<ToolRow>, clientCurrency: string)
    ensures SaveList(a + b, clientCurrency) == SaveList(a, clientCurrency) + SaveList(b, clientCurrency)
    ensures |a| == 1 ==> SaveList(a, clientCurrency) == if a[0].enabled then [Normalise(a[0], clientCurrency)] else []
  {
    if a == [] {
      assert a + b == b;
    } else {
      assert (a + b)[0] == a[0] && (a + b)[1..] == a[1..] + b;
      SaveListKeepsOrder(a[1..], b, clientCurrency);
      var head := if a[0].enabled then [Normalise(a[0], clientCurrency)] else [];
      ConcatAssociative(head, SaveList(a[1..], clientCurrency), SaveList(b, clientCurrency));
      if |a| == 1 {
        assert a[1..] == [];
      }
    }
  }

  /** The records of the enabled rows, as they stand. */
  function EnabledTools(rows: seq<ToolRow>): (r: seq<Tool>)
    ensures |r| <= |rows|
    ensures forall t :: t in r ==> exists row :: row in rows && row.enabled && t == row.t
  {
    if rows == [] then []
    else
      assert forall row :: row in rows ==> row == rows[0] || row in rows[1..];
      (if rows[0].enabled then [rows[0].t] else []) + EnabledTools(rows[1..])
  }

  /** The enabled records keep the rows' order, as `SaveListKeepsOrder` states for a save. */
  lemma {:induction false} EnabledToolsKeepsOrder(a: seq<ToolRow>, b: seq<ToolRow>)
    ensures EnabledTools(a + b) == EnabledTools(a) + EnabledTools(b)
    ensures |a| == 1 ==> EnabledTools(a) == if a[0].enabled then [a[0].t] else []
  {
    if a == [] {
      assert a + b == b;
    } else {
      assert (a + b)[0] == a[0] && (a + b)[1..] == a[1..] + b;
      EnabledToolsKeepsOrder(a[1..], b);
      var head := if a[0].enabled then [a[0].t] else [];
      ConcatAssociative(head, EnabledTools(a[1..]), EnabledTools(b));
      if |a| == 1 {
        assert a[1..] == [];
      }
    }
  }

  /** The current records are exactly those of the enabled rows. */
  lemma {:induction false} EnabledToolsContents(rows: seq<ToolRow>)
    ensures forall t :: t in EnabledTools(rows) <==> exists row :: row in rows && row.enabled && t == row.t
  {
    if rows != [] {
      EnabledToolsContents(rows[1..]);
      assert forall row :: row in rows <==> row == rows[0] || row in rows[1..];
    }
  }

  // ----- unsaved changes (lines 335-352) -----

  /** An original record is missing from the current ones, or differs in cost, period or start date. */
  predicate Differs(current: Option<Tool>, original: Tool) {
    current.None? || current.value.cost != original.cost || current.value.period != original.period ||
    current.value.startDate != original.startDate
  }

  /** The comparison `hasChanges` makes, by lower-cased name. */
  predicate Changed(current: seq<Tool>, original: seq<Tool>) {
    |current| != |original| ||
    exists i :: 0 <= i < |original| && Differs(LastByName(current, Lower(original[i].tool)), original[i])
  }

  /** No two records share a name, ignoring case. */
  predicate DistinctNames(tools: seq<Tool>) {
    forall i, j :: 0 <= i < j < |tools| ==> Lower(tools[i].tool) != Lower(tools[j].tool)
  }

  predicate DistinctRowNames(rows: seq<ToolRow>) {
    forall i, j :: 0 <= i < j < |rows| ==> Lower(rows[i].t.tool) != Lower(rows[j].t.tool)
  }

  lemma {:induction false} LastByNameDistinct(tools: seq<Tool>, i: int)
    requires DistinctNames(tools) && 0 <= i < |tools|
    ensures LastByName(tools, Lower(tools[i].tool)) == Some(tools[i])
    decreases |tools|
  {
    if i < |tools| - 1 {
      var front := tools[..|tools| - 1];
      assert front[i] == tools[i];
      LastByNameDistinct(front, i);
    }
  }

  /** Compared with itself, a list of distinctly named records has no changes. */
  lemma UnchangedAgainstItself(tools: seq<Tool>)
    requires DistinctNames(tools)
    ensures !Changed(tools, tools)
  {
    forall i | 0 <= i < |tools|
      ensures !Differs(LastByName(tools, Lower(tools[i].tool)), tools[i])
    {
      LastByNameDistinct(tools, i);
    }
  }

  lemma {:induction false} SaveListDistinct(rows: seq<ToolRow>, clientCurrency: string)
    requires DistinctRowNames(rows)
    ensures DistinctNames(SaveList(rows, clientCurrency))
  {
    if rows != [] {
      var rest := rows[1..];
      DistinctRowsTail(rows);
      SaveListDistinct(rest, clientCurrency);
      var tail := SaveList(rest, clientCurrency);
      if rows[0].enabled {
        forall t | t in tail ensures Lower(t.tool) != Lower(rows[0].t.tool) {
          var row :| row in rest && row.enabled && t == Normalise(row, clientCurrency);
          RowNameDiffersFromHead(rows, row);
        }
        DistinctCons(Normalise(rows[0], clientCurrency), tail);
      }
    }
  }

  lemma DistinctRowsTail(rows: seq<ToolRow>)
    requires rows != [] && DistinctRowNames(rows)
    ensures DistinctRowNames(rows[1..])
  {
    var rest := rows[1..];
    forall i, j | 0 <= i < j < |rest| ensures Lower(rest[i].t.tool) != Lower(rest[j].t.tool) {
      assert rest[i] == rows[i + 1] && rest[j] == rows[j + 1];
    }
  }

  lemma RowNameDiffersFromHead(rows: seq<ToolRow>, row: ToolRow)
    requires rows != [] && DistinctRowNames(rows) && row in rows[1..]
    ensures Lower(row.t.tool) != Lower(rows[0].t.tool)
  {
    var k :| 0 <= k < |rows[1..]| && rows[1..][k] == row;
    assert rows[k + 1] == row;
  }

  lemma DistinctCons(x: Tool, tail: seq<Tool>)
    requires DistinctNames(tail)
    requires forall t :: t in tail ==> Lower(t.tool) != Lower(x.tool)
    ensures DistinctNames([x] + tail)
  {
    var r := [x] + tail;
    forall i, j | 0 <= i < j < |r| ensures Lower(r[i].tool) != Lower(r[j].tool) {
      assert r[j] == tail[j - 1] && r[j] in tail;
      if i > 0 {
        assert r[i] == tail[i - 1];
      }
    }
  }

  /** The row names the rows can always be compared by stay distinct through normalisation. */
  lemma SavedListHasNoChanges(rows: seq<ToolRow>, clientCurrency: string)
    requires DistinctRowNames(rows)
    ensures !Changed(SaveList(rows, clientCurrency), SaveList(rows, clientCurrency))
  {
    SaveListDistinct(rows, clientCurrency);
    UnchangedAgainstItself(SaveList(rows, clientCurrency));
  }

  /**
   * As written, `hasChanges` compares the rows as they stand with the list
   * just saved; on a fresh client (no stored tools) the default Hosting row
   * has no start date while its saved copy has a null one, so the editor
   * still reports unsaved changes right after a successful save.
   */
  lemma ChangesReportedAfterSave(today: string, currency: string)
    ensures var rows := Merged([], currency, today, true);
            Changed(EnabledTools(rows), SaveList(rows, currency))
  {
    var d0, d1, d2, d3 := DefaultTool(0, today, currency), DefaultTool(1, today, currency),
                          DefaultTool(2, today, currency), DefaultTool(3, today, currency);
    FreshClientRows(today, currency);
    assert Lower(d0.t.tool)[0] == 'a' && Lower(d1.t.tool)[0] == 'h';
    StillChangedAfterSave(d0, d1, d2, d3, currency);
  }

  /** With no stored tools the rows are exactly the four defaults. */
  lemma FreshClientRows(today: string, currency: string)
    ensures Merged([], currency, today, true)
         == [DefaultTool(0, today, currency), DefaultTool(1, today, currency),
             DefaultTool(2, today, currency), DefaultTool(3, today, currency)]
  {
    var d := DefaultRows([], currency, today, true);
    assert CustomRows([]) == [];
    assert d[0] == DefaultTool(0, today, currency);
    assert d[1] == DefaultTool(1, today, currency);
    assert d[2] == DefaultTool(2, today, currency);
    assert d[3] == DefaultTool(3, today, currency);
  }

  lemma StillChangedAfterSave(d0: ToolRow, d1: ToolRow, d2: ToolRow, d3: ToolRow, currency: string)
    requires d0.enabled && d1.enabled && !d2.enabled && !d3.enabled
    requires d1.t.startDate == Undefined && d1.t.endDate == None
    requires Lower(d0.t.tool) != Lower(d1.t.tool)
    ensures Changed(EnabledTools([d0, d1, d2, d3]), SaveList([d0, d1, d2, d3], currency))
  {
    var rows := [d0, d1, d2, d3];
    TwoEnabledRows(d0, d1, d2, d3, currency);
    var saved, current := SaveList(rows, currency), EnabledTools(rows);
    assert LastByName(current, Lower(saved[1].tool)) == Some(d1.t);
    assert saved[1].startDate == Null;
    assert Differs(LastByName(current, Lower(saved[1].tool)), saved[1]);
  }

  /** With only the first two rows enabled, a save sends those two and the current records are theirs. */
  lemma TwoEnabledRows(d0: ToolRow, d1: ToolRow, d2: ToolRow, d3: ToolRow, currency: string)
    requires d0.enabled && d1.enabled && !d2.enabled && !d3.enabled
    ensures SaveList([d0, d1, d2, d3], currency) == [Normalise(d0, currency), Normalise(d1, currency)]
    ensures EnabledTools([d0, d1, d2, d3]) == [d0.t, d1.t]
  {
    TwoSavedRows(d0, d1, d2, d3, currency);
    TwoCurrentRows(d0, d1, d2, d3);
  }

  lemma TwoSavedRows(d0: ToolRow, d1: ToolRow, d2: ToolRow, d3: ToolRow, currency: string)
    requires d0.enabled && d1.enabled && !d2.enabled && !d3.enabled
    ensures SaveList([d0, d1, d2, d3], currency) == [Normalise(d0, currency), Normalise(d1, currency)]
  {
    var rows := [d0, d1, d2, d3];
    assert rows[1..] == [d1, d2, d3] && rows[1..][1..] == [d2, d3] && rows[1..][1..][1..] == [d3];
    assert SaveList([d3], currency) == [];
    assert SaveList([d2, d3], currency) == [];
    assert SaveList([d1, d2, d3], currency) == [Normalise(d1, currency)];
  }

  lemma TwoCurrentRows(d0: ToolRow, d1: ToolRow, d2: ToolRow, d3: ToolRow)
    requires d0.enabled && d1.enabled && !d2.enabled && !d3.enabled
    ensures EnabledTools([d0, d1, d2, d3]) == [d0.t, d1.t]
  {
    var rows := [d0, d1, d2, d3];
    assert rows[1..] == [d1, d2, d3] && rows[1..][1..] == [d2, d3] && rows[1..][1..][1..] == [d3];
    assert EnabledTools([d3]) == [];
    assert EnabledTools([d2, d3]) == [];
    assert EnabledTools([d1, d2, d3]) == [d1.t];
  }

  // ----- row edits (lines 172-196, 487-518) -----

  /** One field change; an empty start date becomes null, an end date is taken as typed. */
  function ApplyEdit(t: Tool, edit: Edit): (r: Tool)
    ensures r.tool == t.tool
    ensures edit.SetCost? ==> r == t.(cost := edit.cost)
    ensures edit.SetPeriod? ==> r == t.(period := Some(edit.p))
    ensures edit.SetStartDate? ==> r == t.(startDate := if edit.start == "" then Null else Defined(edit.start))
    ensures edit.SetEndDate? ==> r == t.(endDate := Some(edit.end))
  {
    match edit
    case SetCost(c) => t.(cost := c)
    case SetPeriod(p) => t.(period := Some(p))
    case SetStartDate(s) => t.(startDate := if s == "" then Null else Defined(s))
    case SetEndDate(e) => t.(endDate := Some(e))
  }

  /** The four defaults lead the rows, in order, and no other row is a default. */
  predicate DefaultsFirst(rows: seq<ToolRow>) {
    |rows| >= DefaultCount &&
    (forall i :: 0 <= i < |rows| ==> (rows[i].isDefault <==> i < DefaultCount)) &&
    (forall i :: 0 <= i < DefaultCount ==> Lower(rows[i].t.tool) == Lower(DefaultName(i)))
  }

  lemma MergedDefaultsFirst(existing: seq<Tool>, currency: string, today: string, endDateFallback: bool)
    ensures DefaultsFirst(Merged(existing, currency, today, endDateFallback))
  {
    var d := DefaultRows(existing, currency, today, endDateFallback);
    var c := CustomRows(existing);
    var m := Merged(existing, currency, today, endDateFallback);
    forall i | 0 <= i < |m| ensures m[i].isDefault <==> i < DefaultCount {
      if i >= DefaultCount {
        assert m[i] == c[i - DefaultCount] && m[i] in c;
      }
    }
  }

  /**
   * The merge as the source builds it: the default rows, then each stored
   * tool that is not a default appended in turn.
   */
  method MergeRows(existing: seq<Tool>, currency: string, today: string, endDateFallback: bool) returns (merged: seq<ToolRow>)
    ensures merged == Merged(existing, currency, today, endDateFallback)
    ensures DefaultsFirst(merged)
  {
    var defaults := DefaultRows(existing, currency, today, endDateFallback);
    merged := defaults;
    var i := 0;
    while i < |existing|
      invariant 0 <= i <= |existing|
      invariant merged == defaults + CustomRows(existing[..i])
    {
      var tool := existing[i];
      ghost var front := existing[..i + 1];
      assert front[..|front| - 1] == existing[..i] && front[|front| - 1] == tool;
      assert CustomRows(front) == CustomRows(existing[..i]) + (if IsDefaultName(tool.tool) then [] else [ToolRow(tool, true, false)]);
      if !IsDefaultName(tool.tool) {
        merged := merged + [ToolRow(tool, true, false)];
      }
      i := i + 1;
    }
    assert existing[..|existing|] == existing;
    MergedDefaultsFirst(existing, currency, today, endDateFallback);
  }

  /**
   * Default rows only ever form a prefix of the rows, each in its own
   * default position (after a failed load there are none).
   */
  predicate DefaultsLead(rows: seq<ToolRow>) {
    (forall i :: 0 <= i < |rows| && rows[i].isDefault ==>
       i < DefaultCount && Lower(rows[i].t.tool) == Lower(DefaultName(i))) &&
    (forall i, j :: 0 <= i < j < |rows| && rows[j].isDefault ==> rows[i].isDefault)
  }

  /** Appending a non-default row with a fresh name keeps the defaults leading and the names distinct. */
  lemma AppendCustomRow(rows: seq<ToolRow>, row: ToolRow)
    requires DefaultsLead(rows) && !row.isDefault
    requires forall i :: 0 <= i < |rows| ==> Lower(rows[i].t.tool) != Lower(row.t.tool)
    ensures DefaultsLead(rows + [row])
    ensures DefaultsFirst(rows) ==> DefaultsFirst(rows + [row])
    ensures DistinctRowNames(rows) ==> DistinctRowNames(rows + [row])
  {
    assert forall i :: 0 <= i < |rows| ==> (rows + [row])[i] == rows[i];
  }

  const NameMissing := "Please enter a tool name"
  const NameInUse := "A tool with this name already exists"

  /** Some row already has the name, compared case-insensitively. */
  predicate NameTaken(rows: seq<ToolRow>, name: string) {
    exists i :: 0 <= i < |rows| && Lower(rows[i].t.tool) == Lower(name)
  }

  class ToolCostEditor {
    var tools: seq<ToolRow>
    var originalTools: seq<Tool>
    var error: Option<string>
    var clientCurrency: string
    var customToolName: string

    /** Default rows lead the list, in their own order. */
    predicate Valid()
      reads this
    {
      DefaultsLead(tools)
    }

    /** The editor before its first load (lines 69-75). */
    constructor ()
      ensures Valid()
      ensures tools == [] && originalTools == [] && error == None
      ensures clientCurrency == "GBP" && customToolName == ""
    {
      tools := [];
      originalTools := [];
      error := None;
      clientCurrency := "GBP";
      customToolName := "";
    }

    /**
     * The load (lines 89-170): the currency defaults to GBP; when the
     * stored tools arrive they become the originals and the rows are the
     * merge, built by appending the custom tools one by one; when the
     * fetch fails only the error is set.
     */
    method Load(currency: Option<string>, fetched: Option<seq<Tool>>, failure: string, today: string)
      requires Valid()
      modifies this
      ensures Valid()
      ensures clientCurrency == OrText(currency, "GBP") && customToolName == old(customToolName)
      ensures fetched.Some? ==>
        originalTools == fetched.value && error == None && tools == Merged(fetched.value, clientCurrency, today, true)
      ensures fetched.Some? ==> DefaultsFirst(tools)
      ensures fetched.None? ==>
        originalTools == old(originalTools) && tools == old(tools) && error == Some("Failed to load tool costs: " + failure)
    {
      error := None;
      clientCurrency := OrText(currency, "GBP");
      if fetched.None? {
        error := Some("Failed to load tool costs: " + failure);
        return;
      }
      originalTools := fetched.value;
      tools := MergeRows(fetched.value, clientCurrency, today, true);
    }

    /** Enabling or disabling flips that row's flag and nothing else (lines 172-181). */
    method ToggleEnabled(index: int)
      requires Valid() && 0 <= index < |tools|
      modifies this
      ensures Valid()
      ensures DefaultsFirst(old(tools)) ==> DefaultsFirst(tools)
      ensures tools == old(tools)[index := old(tools)[index].(enabled := !old(tools)[index].enabled)]
      ensures originalTools == old(originalTools) && error == old(error)
      ensures clientCurrency == old(clientCurrency) && customToolName == old(customToolName)
    {
      tools := tools[index := tools[index].(enabled := !tools[index].enabled)];
    }

    /** A field change rewrites that row's field and nothing else (lines 183-196). */
    method ChangeTool(index: int, edit: Edit)
      requires Valid() && 0 <= index < |tools|
      modifies this
      ensures Valid()
      ensures DefaultsFirst(old(tools)) ==> DefaultsFirst(tools)
      ensures tools == old(tools)[index := old(tools)[index].(t := ApplyEdit(old(tools)[index].t, edit))]
      ensures originalTools == old(originalTools) && error == old(error)
      ensures clientCurrency == old(clientCurrency) && customToolName == old(customToolName)
    {
      tools := tools[index := tools[index].(t := ApplyEdit(tools[index].t, edit))];
    }

    method SetCustomToolName(name: string)
      modifies this
      ensures customToolName == name
      ensures tools == old(tools) && originalTools == old(originalTools) && error == old(error)
      ensures clientCurrency == old(clientCurrency)
    {
      customToolName := name;
    }

    /**
     * Adding a custom tool (lines 198-226): refused with a message when the
     * trimmed name is empty or already used (ignoring case); otherwise one
     * enabled, recurring, yearly row at cost 0 is appended and the name
     * input is cleared.
     */
    method AddCustomTool()
      requires Valid()
      modifies this
      ensures Valid()
      ensures DefaultsFirst(old(tools)) ==> DefaultsFirst(tools)
      ensures Trim(old(customToolName)) == "" ==>
        tools == old(tools) && error == Some(NameMissing) && customToolName == old(customToolName)
      ensures Trim(old(customToolName)) != "" && NameTaken(old(tools), Trim(old(customToolName))) ==>
        tools == old(tools) && error == Some(NameInUse) && customToolName == old(customToolName)
      ensures Trim(old(customToolName)) != "" && !NameTaken(old(tools), Trim(old(customToolName))) ==>
        tools == old(tools) + [ToolRow(Tool(Trim(old(customToolName)), 0.0, Some(true), Some("yearly"), Undefined, None, Some(clientCurrency)), true, false)] &&
        error == None && customToolName == ""
      ensures originalTools == old(originalTools) && clientCurrency == old(clientCurrency)
      ensures DistinctRowNames(old(tools)) ==> DistinctRowNames(tools)
    {
      var name := Trim(customToolName);
      if name == "" {
        Refuse(NameMissing);
      } else if NameTaken(tools, name) {
        Refuse(NameInUse);
      } else {
        AppendTool(name);
      }
    }

    /** A refused edit: only the error message changes. */
    method Refuse(message: string)
      modifies this
      ensures error == Some(message)
      ensures tools == old(tools) && customToolName == old(customToolName)
      ensures originalTools == old(originalTools) && clientCurrency == old(clientCurrency)
    {
      error := Some(message);
    }

    /** The accepted case of adding: a new enabled yearly row with no cost, and the input cleared. */
    method AppendTool(name: string)
      requires Valid()
      requires !NameTaken(tools, name)
      modifies this
      ensures Valid()
      ensures DefaultsFirst(old(tools)) ==> DefaultsFirst(tools)
      ensures DistinctRowNames(old(tools)) ==> DistinctRowNames(tools)
      ensures tools == old(tools) + [ToolRow(Tool(name, 0.0, Some(true), Some("yearly"), Undefined, None, Some(clientCurrency)), true, false)]
      ensures error == None && customToolName == ""
      ensures originalTools == old(originalTools) && clientCurrency == old(clientCurrency)
    {
      error := None;
      var row := ToolRow(Tool(name, 0.0, Some(true), Some("yearly"), Undefined, None, Some(clientCurrency)), true, false);
      AppendCustomRow(tools, row);
      tools := tools + [row];
      customToolName := "";
    }

    /**
     * Removing a row (lines 228-236): refused with a message for a default
     * tool; otherwise exactly that row goes and the others keep their order.
     */
    method RemoveCustomTool(index: int)
      requires Valid() && 0 <= index < |tools|
      modifies this
      ensures Valid()
      ensures DefaultsFirst(old(tools)) ==> DefaultsFirst(tools)
      ensures old(tools)[index].isDefault ==> tools == old(tools) && error == Some("Cannot remove default tools")
      ensures !old(tools)[index].isDefault ==> tools == old(tools)[..index] + old(tools)[index + 1..] && error == None
      ensures originalTools == old(originalTools) && clientCurrency == old(clientCurrency)
      ensures customToolName == old(customToolName)
    {
      if tools[index].isDefault {
        error := Some("Cannot remove default tools");
        return;
      }
      error := None;
      var before := tools;
      tools := tools[..index] + tools[index + 1..];
      forall i | 0 <= i < |tools| ensures tools[i] == (if i < index then before[i] else before[i + 1]) {
      }
    }

    /**
     * Saving (lines 238-293): the normalised enabled rows are sent; when the
     * write succeeds they become the originals, otherwise only the error is
     * set. The rows themselves are left as they are.
     */
    method Save(failure: Option<string>) returns (sent: seq<Tool>)
      requires Valid()
      modifies this
      ensures Valid()
      ensures sent == SaveList(tools, clientCurrency)
      ensures tools == old(tools) && clientCurrency == old(clientCurrency) && customToolName == old(customToolName)
      ensures failure.None? ==> originalTools == sent && error == None
      ensures failure.Some? ==>
        originalTools == old(originalTools) && error == Some("Failed to save tool costs: " + failure.value)
    {
      error := None;
      sent := SaveList(tools, clientCurrency);
      if failure.Some? {
        error := Some("Failed to save tool costs: " + failure.value);
      } else {
        originalTools := sent;
      }
    }

    /**
     * Cancelling (lines 295-333): the rows are rebuilt from the originals
     * (without the load's end-date fallback), the error and the name
     * input are cleared.
     */
    method Cancel(today: string)
      requires Valid()
      modifies this
      ensures Valid()
      ensures tools == Merged(originalTools, clientCurrency, today, false) && DefaultsFirst(tools)
      ensures error == None && customToolName == ""
      ensures originalTools == old(originalTools) && clientCurrency == old(clientCurrency)
    {
      tools := MergeRows(originalTools, clientCurrency, today, false);
      error := None;
      customToolName := "";
    }

    /** `hasChanges` as written: the enabled rows as they stand against the originals. */
    predicate HasChanges()
      reads this
    {
      Changed(EnabledTools(tools), originalTools)
    }

    /** The intended test: what a save would send against the originals. */
    predicate HasUnsavedChanges()
      reads this
    {
      Changed(SaveList(tools, clientCurrency), originalTools)
    }
  }

  /**
   * With the intended test, a successful save leaves nothing unsaved
   * whenever the row names are distinct (which adding a tool maintains).
   */
  method SaveThenNoUnsavedChanges(editor: ToolCostEditor)
    requires editor.Valid() && DistinctRowNames(editor.tools)
    modifies editor
    ensures !editor.HasUnsavedChanges()
  {
    var _ := editor.Save(None);
    SavedListHasNoChanges(editor.tools, editor.clientCurrency);
  }
}
