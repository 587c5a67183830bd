/**
 * The recent-executions table (components/RecentExecutions.tsx): the
 * workflow options, the client-side workflow and "work done" filters, the
 * 20-row pages and the active filter count.
 */
module RecentExecutions {
  import opened Common
  import opened Types

  const ItemsPerPage: nat := 20

  // ----- workflow options (lines 70-72) -----

  /** The non-empty workflow names of the rows, in row order, repeats included. */
  function Names(data: seq<RecentExecution>): (names: seq<string>)
    ensures forall n :: n in names <==> exists i :: 0 <= i < |data| && data[i].workflowName == Some(n) && n != ""
  {
    if data == [] then []
    else
      var rest := Names(data[1..]);
      var head := if TruthyText(data[0].workflowName) then [data[0].workflowName.value] else [];
      assert forall n :: n in rest <==> exists i :: 1 <= i < |data| && data[i].workflowName == Some(n) && n != "" by {
        forall n ensures n in rest ==> exists i :: 1 <= i < |data| && data[i].workflowName == Some(n) && n != "" {
          if n in rest {
            var j :| 0 <= j < |data[1..]| && data[1..][j].workflowName == Some(n) && n != "";
            assert data[j + 1] == data[1..][j];
          }
        }
        forall n ensures (exists i :: 1 <= i < |data| && data[i].workflowName == Some(n) && n != "") ==> n in rest {
          if exists i :: 1 <= i < |data| && data[i].workflowName == Some(n) && n != "" {
            var i :| 1 <= i < |data| && data[i].workflowName == Some(n) && n != "";
            assert data[1..][i - 1] == data[i];
          }
        }
      }
      head + rest
  }

  /** Each value of `s` exactly once (`Array.from(new Set(s))`); the order is left open, as the options are sorted afterwards. */
  function Unique(s: seq<string>): (r: seq<string>)
    ensures forall x :: multiset(r)[x] == if x in s then 1 else 0
  {
    if s == [] then []
    else
      var front := s[..|s| - 1];
      var last := s[|s| - 1];
      assert s == front + [last];
      var rest := Unique(front);
      if last in rest then rest else rest + [last]
  }

  function Identity(s: string): string { s }

  /** The workflow filter's options: each non-empty name once, in code-unit order. */
  function WorkflowOptions(data: seq<RecentExecution>): (options: seq<string>)
    ensures SortedByKey(options, Identity)
    ensures forall n :: multiset(options)[n] == if n in Names(data) then 1 else 0
  {
    SortByKey(Unique(Names(data)), Identity)
  }

  /** An option is offered exactly for a name some row carries. */
  lemma WorkflowOptionsContents(data: seq<RecentExecution>, n: string)
    ensures n in WorkflowOptions(data) <==>
      exists i :: 0 <= i < |data| && data[i].workflowName == Some(n) && n != ""
  {
    var options := WorkflowOptions(data);
    assert n in options <==> multiset(options)[n] > 0;
  }

  /** No option is offered twice. */
  lemma WorkflowOptionsDistinct(data: seq<RecentExecution>)
    ensures forall i, j :: 0 <= i < j < |WorkflowOptions(data)| ==> WorkflowOptions(data)[i] != WorkflowOptions(data)[j]
  {
    var options := WorkflowOptions(data);
    forall i, j | 0 <= i < j < |options| ensures options[i] != options[j] {
      TwiceCounted(options, i, j);
    }
  }

  /** A value at two positions is counted at least twice. */
  lemma TwiceCounted(s: seq<string>, i: nat, j: nat)
    requires i < j < |s|
    ensures s[i] == s[j] ==> multiset(s)[s[i]] >= 2
  {
    assert s == s[..i] + [s[i]] + s[i + 1..j] + [s[j]] + s[j + 1..];
  }

  // ----- the client-side filter (lines 74-88) -----

  /**
   * Details that report no work: missing, empty, or starting with "no" in
   * any letter case ("No action", "NO", but also "Notified").
   */
  predicate NoWorkDone(e: RecentExecution) {
    !TruthyText(e.details) || StartsWith(Lower(e.details.value), "no")
  }

  predicate Passes(e: RecentExecution, workflowFilter: string, onlyWorkDone: bool) {
    (workflowFilter == "all" || e.workflowName == Some(workflowFilter)) &&
    (onlyWorkDone ==> !NoWorkDone(e))
  }

  function FilteredData(data: seq<RecentExecution>, workflowFilter: string, onlyWorkDone: bool): (rows: seq<RecentExecution>)
    ensures forall e :: e in rows <==> e in data && Passes(e, workflowFilter, onlyWorkDone)
    ensures multiset(rows) <= multiset(data)
    ensures forall e :: e in data ==>
      multiset(rows)[e] == if Passes(e, workflowFilter, onlyWorkDone) then multiset(data)[e] else 0
  {
    Filter(data, (e: RecentExecution) => Passes(e, workflowFilter, onlyWorkDone))
  }

  /**
   * The filter keeps the table's order (newest first): the rows shown for a
   * concatenation are the rows shown for each part, one after the other.
   */
  lemma FilteredDataKeepsOrder(a: seq<RecentExecution>, b: seq<RecentExecution>, workflowFilter: string, onlyWorkDone: bool)
    ensures FilteredData(a + b, workflowFilter, onlyWorkDone) ==
      FilteredData(a, workflowFilter, onlyWorkDone) + FilteredData(b, workflowFilter, onlyWorkDone)
  {
    FilterAppend(a, b, (e: RecentExecution) => Passes(e, workflowFilter, onlyWorkDone));
  }

  /** Turning on "work done only" never shows a row that was hidden without it. */
  lemma {:induction false} WorkDoneOnlyNarrows(data: seq<RecentExecution>, workflowFilter: string)
    ensures multiset(FilteredData(data, workflowFilter, true)) <= multiset(FilteredData(data, workflowFilter, false))
  {
    FilterNarrows(data, (e: RecentExecution) => Passes(e, workflowFilter, true),
                  (e: RecentExecution) => Passes(e, workflowFilter, false));
  }

  lemma {:induction false} FilterNarrows<T>(s: seq<T>, p: T -> bool, q: T -> bool)
    requires forall x :: p(x) ==> q(x)
    ensures multiset(Filter(s, p)) <= multiset(Filter(s, q))
  {
    if s != [] {
      FilterNarrows(s[1..], p, q);
      assert Filter(s, p) == (if p(s[0]) then [s[0]] else []) + Filter(s[1..], p);
      assert Filter(s, q) == (if q(s[0]) then [s[0]] else []) + Filter(s[1..], q);
    }
  }

  /**
   * Any details that merely start with the letters "no", in any case (such
   * as "Notified the client" or "Nothing to do"), count as no work done and
   * are hidden under "work done only", whatever the workflow filter.
   */
  lemma NotifiedCountsAsNoWork(e: RecentExecution, s: string, workflowFilter: string)
    requires e.details == Some(s) && |s| >= 2 && Lower(s)[..2] == "no"
    ensures !Passes(e, workflowFilter, true)
  {
  }

  // ----- pagination (lines 91-94, 244-265) -----

  function TotalPages(n: nat): (pages: nat)
    ensures pages * ItemsPerPage >= n
    ensures pages == 0 || (pages - 1) * ItemsPerPage < n
  {
    CeilDiv(n, ItemsPerPage)
  }

  /** `slice((page - 1) * 20, (page - 1) * 20 + 20)`, which stops at the end of the list. */
  function Page<T>(rows: seq<T>, page: nat): (shown: seq<T>)
    requires page >= 1
    ensures |shown| <= ItemsPerPage
    ensures page < TotalPages(|rows|) ==> |shown| == ItemsPerPage
    ensures page > TotalPages(|rows|) ==> shown == []
    ensures forall k :: 0 <= k < |shown| ==>
      (page - 1) * ItemsPerPage + k < |rows| && shown[k] == rows[(page - 1) * ItemsPerPage + k]
  {
    var start := (page - 1) * ItemsPerPage;
    var end := start + ItemsPerPage;
    if start >= |rows| then [] else rows[start..if end <= |rows| then end else |rows|]
  }

  /** Pages 1 to `k` one after another. */
  function PagesUpTo<T>(rows: seq<T>, k: nat): seq<T> {
    if k == 0 then [] else PagesUpTo(rows, k - 1) + Page(rows, k)
  }

  /** The pages together are the filtered list: every row on exactly one page, in order. */
  lemma {:induction false} PagesPartition<T>(rows: seq<T>)
    ensures PagesUpTo(rows, TotalPages(|rows|)) == rows
  {
    var total := TotalPages(|rows|);
    PagesPrefix(rows, total);
    assert MinInt(total * ItemsPerPage, |rows|) == |rows|;
  }

  lemma {:induction false} PagesPrefix<T>(rows: seq<T>, k: nat)
    ensures PagesUpTo(rows, k) == rows[..MinInt(k * ItemsPerPage, |rows|)]
  {
    if k > 0 {
      PagesPrefix(rows, k - 1);
      var start := (k - 1) * ItemsPerPage;
      if start >= |rows| {
        assert MinInt(k * ItemsPerPage, |rows|) == |rows|;
      } else {
        assert rows[..start] + Page(rows, k) == rows[..MinInt(k * ItemsPerPage, |rows|)];
      }
    }
  }

  /** "Previous" stops at page 1. */
  function PrevPage(page: int): (p: int)
    ensures p >= 1
    ensures page > 1 ==> p == page - 1
  {
    MaxInt(1, page - 1)
  }

  /** "Next" stops at the last page. */
  function NextPage(page: int, totalPages: nat): (p: int)
    ensures p <= totalPages
    ensures page < totalPages ==> p == page + 1
  {
    MinInt(totalPages, page + 1)
  }

  /** The buttons keep a page that is in range in range. */
  lemma PageButtonsStayInRange(page: int, totalPages: nat)
    requires 1 <= page <= totalPages
    ensures 1 <= PrevPage(page) <= totalPages
    ensures 1 <= NextPage(page, totalPages) <= totalPages
  {
  }

  /** "Showing a-b of n": the first and last row numbers of a non-empty page. */
  function ShowingRange(page: nat, n: nat): (range: (int, int))
    requires page >= 1
    ensures range.1 <= n
    ensures 1 <= page <= TotalPages(n) && n > 0 ==> 1 <= range.0 <= range.1 && range.1 - range.0 < ItemsPerPage
  {
    var start := (page - 1) * ItemsPerPage;
    (start + 1, MinInt(start + ItemsPerPage, n))
  }

  // ----- filters (lines 33-37, 49, 96-102) -----

  datatype Filters = Filters(status: string, workflow: string, days: int, onlyWorkDone: bool)

  /** The filters a fresh table starts with. */
  const Initial := Filters("all", "all", 1, true)

  function ActiveFilterCount(f: Filters): (count: nat)
    ensures count <= 3
    ensures count == 0 <==> f.status == "all" && f.workflow == "all" && !f.onlyWorkDone
  {
    (if f.status != "all" then 1 else 0) + (if f.workflow != "all" then 1 else 0) + (if f.onlyWorkDone then 1 else 0)
  }

  /** "Clear all": status and workflow back to all and work-done-only back on; days are kept. */
  function ClearAllFilters(f: Filters): (g: Filters)
    ensures g.days == f.days
    ensures ActiveFilterCount(g) == 1
    ensures g == Initial.(days := f.days)
  {
    f.(status := "all", workflow := "all", onlyWorkDone := true)
  }

  /** Clearing twice is clearing once. */
  lemma ClearAllIdempotent(f: Filters)
    ensures ClearAllFilters(ClearAllFilters(f)) == ClearAllFilters(f)
  {
  }

  /**
   * The status filter sent with the fetch (100 rows of the chosen number of
   * days, the status only when it is not "all"); after each fetch the
   * table returns to page 1.
   */
  datatype Request = Request(limit: nat, days: int, status: Option<string>)

  function FetchRequest(f: Filters): (r: Request)
    ensures r.limit == 100 && r.days == f.days
    ensures r.status.Some? <==> f.status != "all"
    ensures r.status.Some? ==> r.status.value == f.status
  {
    Request(100, f.days, if f.status != "all" then Some(f.status) else None)
  }

  const PageAfterFetch: nat := 1
}
