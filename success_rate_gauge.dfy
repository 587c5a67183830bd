/**
 * The success-rate gauge (components/SuccessRateGauge.tsx): the 24-hour
 * success rate, the workflows shown as segments (filtered, named, sorted,
 * merged by workflow id), the segment boundaries, the needle and the
 * segment colours and labels.
 */
module SuccessRateGauge {
  import opened Common
  import opened Types
  import DesignTokens

  // ----- success rate (lines 104-115) -----

  /**
   * The rate to one decimal: from the success and error counts when they
   * add up to more than 0, otherwise from the stored rate.
   */
  function SuccessRate(summary: ClientSummary): (r: real)
    ensures var s, e := OrElse(summary.success24h, 0.0), OrElse(summary.errors24h, 0.0);
            s + e > 0.0 ==> -0.05 <= r - s / (s + e) * 100.0 <= 0.05
    ensures var s, e := OrElse(summary.success24h, 0.0), OrElse(summary.errors24h, 0.0);
            s + e <= 0.0 ==> -0.05 <= r - OrElse(summary.successRate24h, 0.0) <= 0.05
  {
    var successful := OrElse(summary.success24h, 0.0);
    var failed := OrElse(summary.errors24h, 0.0);
    var total := successful + failed;
    if total > 0.0 then Round(successful / total * 100.0 * 10.0) as real / 10.0
    else Round(OrElse(summary.successRate24h, 0.0) * 10.0) as real / 10.0
  }

  /** With non-negative counts and some executions, the rate lies in [0, 100]. */
  lemma SuccessRateBounds(summary: ClientSummary)
    requires OrElse(summary.success24h, 0.0) >= 0.0 && OrElse(summary.errors24h, 0.0) >= 0.0
    requires OrElse(summary.success24h, 0.0) + OrElse(summary.errors24h, 0.0) > 0.0
    ensures 0.0 <= SuccessRate(summary) <= 100.0
  {
    var s, e := OrElse(summary.success24h, 0.0), OrElse(summary.errors24h, 0.0);
    var x := s / (s + e) * 100.0 * 10.0;
    assert s / (s + e) <= 1.0 by {
      assert s <= s + e;
    }
    assert 0.0 <= x <= 1000.0;
  }

  // ----- angles (lines 137-144, 257) -----

  /** 0% is 180 degrees (left), 100% is 0 degrees (right), linearly in between. */
  function PercentageToAngle(percent: real): (angle: real)
    ensures percent == 0.0 ==> angle == 180.0
    ensures percent == 100.0 ==> angle == 0.0
    ensures 0.0 <= percent <= 100.0 ==> 0.0 <= angle <= 180.0
  {
    180.0 - (percent / 100.0) * (180.0 - 0.0)
  }

  lemma AngleDecreasing(p: real, q: real)
    requires p <= q
    ensures PercentageToAngle(q) <= PercentageToAngle(p)
  {
  }

  /** The needle caps the rate at 100, so it never passes the right end of the arc. */
  function NeedleAngle(successRate: real): (angle: real)
    ensures angle >= 0.0
    ensures successRate >= 100.0 ==> angle == 0.0
    ensures successRate <= 100.0 ==> angle == PercentageToAngle(successRate)
  {
    PercentageToAngle(MinReal(successRate, 100.0))
  }

  // ----- workflows shown (lines 177-200) -----

  /** A workflow as the gauge uses it, counts defaulted to 0. */
  datatype GaugeRow = GaugeRow(workflowId: Option<string>, workflowName: string, executions: real, success: real, errors: real)

  function Executions(row: GaugeRow): real { row.executions }

  /** The filter at lines 180-190: some executions and a success rate above 0. */
  predicate HasSuccessfulExecutions(stat: WorkflowStats) {
    var executions := OrReal(stat.executions24h, 0.0);
    if executions == 0.0 then false
    else
      var success := OrReal(stat.success24h, 0.0);
      var rate := if executions > 0.0 then (success / executions) * 100.0 else 0.0;
      rate > 0.0
  }

  /** A workflow is kept exactly when both its executions and its successes are positive. */
  lemma KeptIffPositive(stat: WorkflowStats)
    ensures HasSuccessfulExecutions(stat) <==>
      OrReal(stat.executions24h, 0.0) > 0.0 && OrReal(stat.success24h, 0.0) > 0.0
  {
    var e, s := OrReal(stat.executions24h, 0.0), OrReal(stat.success24h, 0.0);
    if e > 0.0 {
      if s > 0.0 {
        assert s / e > 0.0;
      } else {
        assert s / e <= 0.0;
      }
    }
  }

  /** The first ROI row of the workflow (`find`). */
  function FindRoi(roi: seq<WorkflowROICalculated>, id: Option<string>): (r: Option<WorkflowROICalculated>)
    ensures r.Some? ==> r.value in roi && id == Some(r.value.workflowId)
    ensures r.None? ==> forall i :: 0 <= i < |roi| ==> id != Some(roi[i].workflowId)
    ensures forall i ::
      (0 <= i < |roi| && id == Some(roi[i].workflowId) && forall j :: 0 <= j < i ==> id != Some(roi[j].workflowId))
      ==> r == Some(roi[i])
  {
    if roi == [] then None
    else if id == Some(roi[0].workflowId) then Some(roi[0])
    else
      assert forall i :: 1 <= i < |roi| ==> roi[i] == roi[1..][i - 1];
      FindRoi(roi[1..], id)
  }

  /** The name shown: the ROI row's, else the workflow's, else its id, else "Unknown". */
  function ToGaugeRow(stat: WorkflowStats, roi: seq<WorkflowROICalculated>): (r: GaugeRow)
    ensures r.workflowId == stat.workflowId && r.executions == OrReal(stat.executions24h, 0.0)
    ensures r.success == OrReal(stat.success24h, 0.0) && r.errors == OrReal(stat.errors24h, 0.0)
    ensures r.workflowName != ""
    ensures var found := FindRoi(roi, stat.workflowId);
      var roiName := if found.Some? then found.value.workflowName else None;
      (TruthyText(roiName) ==> r.workflowName == roiName.value) &&
      (!TruthyText(roiName) && TruthyText(stat.workflowName) ==> r.workflowName == stat.workflowName.value) &&
      (!TruthyText(roiName) && !TruthyText(stat.workflowName) && TruthyText(stat.workflowId) ==>
        r.workflowName == stat.workflowId.value) &&
      (!TruthyText(roiName) && !TruthyText(stat.workflowName) && !TruthyText(stat.workflowId) ==>
        r.workflowName == "Unknown")
  {
    var found := FindRoi(roi, stat.workflowId);
    var roiName := if found.Some? then found.value.workflowName else None;
    var name := OrText(roiName, OrText(stat.workflowName, OrText(stat.workflowId, "Unknown")));
    GaugeRow(stat.workflowId, name, OrReal(stat.executions24h, 0.0),
             OrReal(stat.success24h, 0.0), OrReal(stat.errors24h, 0.0))
  }

  function ToGaugeRows(stats: seq<WorkflowStats>, roi: seq<WorkflowROICalculated>): (r: seq<GaugeRow>)
    ensures |r| == |stats|
    ensures forall i :: 0 <= i < |stats| ==> r[i] == ToGaugeRow(stats[i], roi)
  {
    if stats == [] then [] else [ToGaugeRow(stats[0], roi)] + ToGaugeRows(stats[1..], roi)
  }

  /** The kept workflows as gauge rows, most executions first. */
  function WorkflowsWithExecutions(stats: seq<WorkflowStats>, roi: seq<WorkflowROICalculated>): (r: seq<GaugeRow>)
    ensures SortedDesc(r, Executions)
    ensures multiset(r) == multiset(ToGaugeRows(Filter(stats, HasSuccessfulExecutions), roi))
    ensures forall row :: row in r ==> row.executions > 0.0 && row.success > 0.0
  {
    var kept := Filter(stats, HasSuccessfulExecutions);
    var rows := ToGaugeRows(kept, roi);
    forall row | row in rows ensures row.executions > 0.0 && row.success > 0.0 {
      var i :| 0 <= i < |rows| && rows[i] == row;
      KeptIffPositive(kept[i]);
    }
    var r := SortDesc(rows, Executions);
    assert forall row :: row in r ==> row in multiset(rows);
    r
  }

  // ----- merging by workflow id (lines 202-219) -----

  /** Σ of `f` over the rows with the given id. */
  function SumWhere(rows: seq<GaugeRow>, id: Option<string>, f: GaugeRow -> real): real
    decreases |rows|
  {
    if rows == [] then 0.0
    else
      var last := rows[|rows| - 1];
      SumWhere(rows[..|rows| - 1], id, f) + (if last.workflowId == id then f(last) else 0.0)
  }

  function Success(row: GaugeRow): real { row.success }
  function Errors(row: GaugeRow): real { row.errors }

  /** The index of the first row with the given id; `|rows|` when there is none. */
  function FirstIndex(rows: seq<GaugeRow>, id: Option<string>): (k: nat)
    ensures k <= |rows|
    ensures k < |rows| ==> rows[k].workflowId == id
    ensures forall i :: 0 <= i < k ==> rows[i].workflowId != id
  {
    if rows == [] then 0
    else if rows[0].workflowId == id then 0
    else 1 + FirstIndex(rows[1..], id)
  }

  /** No two rows share a workflow id. */
  predicate DistinctIds(rows: seq<GaugeRow>) {
    forall i, j :: 0 <= i < j < |rows| ==> rows[i].workflowId != rows[j].workflowId
  }

  /**
   * `entry` is the merged row for its id: the first row with that id, its
   * counts replaced by the sums over all rows with that id.
   */
  predicate MergedFor(rows: seq<GaugeRow>, entry: GaugeRow) {
    var k := FirstIndex(rows, entry.workflowId);
    k < |rows| && entry.workflowName == rows[k].workflowName &&
    entry.executions == SumWhere(rows, entry.workflowId, Executions) &&
    entry.success == SumWhere(rows, entry.workflowId, Success) &&
    entry.errors == SumWhere(rows, entry.workflowId, Errors)
  }

  /** Every row's id has an entry. */
  predicate Covered(rows: seq<GaugeRow>, unique: seq<GaugeRow>) {
    forall i :: 0 <= i < |rows| ==> HasEntry(unique, rows[i].workflowId)
  }

  predicate HasEntry(unique: seq<GaugeRow>, id: Option<string>) {
    exists j :: 0 <= j < |unique| && unique[j].workflowId == id
  }

  /** Every entry is the merge of the rows with its id. */
  predicate AllMerged(rows: seq<GaugeRow>, unique: seq<GaugeRow>) {
    forall j :: 0 <= j < |unique| ==> MergedFor(rows, unique[j])
  }

  /** `unique` is the merge of `rows`. */
  predicate MergeOf(rows: seq<GaugeRow>, unique: seq<GaugeRow>) {
    |unique| <= |rows| && DistinctIds(unique) && Covered(rows, unique) && AllMerged(rows, unique) &&
    SumOf(unique, Executions) == SumOf(rows, Executions)
  }

  /** Adding one row's counts to an entry. */
  function AddCounts(entry: GaugeRow, row: GaugeRow): GaugeRow {
    entry.(executions := entry.executions + row.executions, success := entry.success + row.success,
           errors := entry.errors + row.errors)
  }

  lemma {:induction false} SumWhereAbsent(rows: seq<GaugeRow>, id: Option<string>, f: GaugeRow -> real)
    requires forall i :: 0 <= i < |rows| ==> rows[i].workflowId != id
    ensures SumWhere(rows, id, f) == 0.0
    decreases |rows|
  {
    if rows != [] {
      SumWhereAbsent(rows[..|rows| - 1], id, f);
    }
  }

  lemma SumWhereSnoc(p: seq<GaugeRow>, row: GaugeRow, id: Option<string>, f: GaugeRow -> real)
    ensures SumWhere(p + [row], id, f) == SumWhere(p, id, f) + (if row.workflowId == id then f(row) else 0.0)
  {
    assert (p + [row])[..|p|] == p;
  }

  lemma {:induction false} FirstIndexSnoc(p: seq<GaugeRow>, row: GaugeRow, id: Option<string>)
    ensures FirstIndex(p + [row], id) ==
      if FirstIndex(p, id) < |p| then FirstIndex(p, id)
      else if row.workflowId == id then |p| else |p| + 1
  {
    if p != [] {
      assert (p + [row])[1..] == p[1..] + [row];
      FirstIndexSnoc(p[1..], row, id);
    }
  }

  lemma {:induction false} SumOfUpdate(s: seq<GaugeRow>, k: nat, x: GaugeRow)
    requires k < |s|
    ensures SumOf(s[k := x], Executions) == SumOf(s, Executions) - s[k].executions + x.executions
  {
    if k > 0 {
      assert s[k := x][1..] == s[1..][k - 1 := x];
      SumOfUpdate(s[1..], k - 1, x);
    } else {
      assert s[k := x][1..] == s[1..];
    }
  }

  /** An entry for an id already seen stays the merge once the row is added to it. */
  lemma MergedForSnoc(p: seq<GaugeRow>, row: GaugeRow, entry: GaugeRow)
    requires MergedFor(p, entry)
    ensures MergedFor(p + [row], if entry.workflowId == row.workflowId then AddCounts(entry, row) else entry)
  {
    var id := entry.workflowId;
    FirstIndexSnoc(p, row, id);
    assert (p + [row])[FirstIndex(p, id)] == p[FirstIndex(p, id)];
    SumWhereSnoc(p, row, id, Executions);
    SumWhereSnoc(p, row, id, Success);
    SumWhereSnoc(p, row, id, Errors);
  }

  /** A row whose id is new is the merge of the rows so far with its id. */
  lemma MergedForNew(p: seq<GaugeRow>, row: GaugeRow)
    requires forall i :: 0 <= i < |p| ==> p[i].workflowId != row.workflowId
    ensures MergedFor(p + [row], row)
  {
    var id := row.workflowId;
    FirstIndexSnoc(p, row, id);
    SumWhereAbsent(p, id, Executions);
    SumWhereAbsent(p, id, Success);
    SumWhereAbsent(p, id, Errors);
    SumWhereSnoc(p, row, id, Executions);
    SumWhereSnoc(p, row, id, Success);
    SumWhereSnoc(p, row, id, Errors);
    assert (p + [row])[|p|] == row;
  }

  lemma AllMergedMerge(p: seq<GaugeRow>, unique: seq<GaugeRow>, row: GaugeRow, k: nat)
    requires AllMerged(p, unique) && DistinctIds(unique)
    requires k < |unique| && unique[k].workflowId == row.workflowId
    ensures AllMerged(p + [row], unique[k := AddCounts(unique[k], row)])
  {
    var u := unique[k := AddCounts(unique[k], row)];
    forall j | 0 <= j < |u| ensures MergedFor(p + [row], u[j]) {
      MergedForSnoc(p, row, unique[j]);
      if j < k {
        assert unique[j].workflowId != unique[k].workflowId;
      } else if j > k {
        assert unique[k].workflowId != unique[j].workflowId;
      }
    }
  }

  lemma CoveredMerge(p: seq<GaugeRow>, unique: seq<GaugeRow>, row: GaugeRow, k: nat)
    requires Covered(p, unique)
    requires k < |unique| && unique[k].workflowId == row.workflowId
    ensures Covered(p + [row], unique[k := AddCounts(unique[k], row)])
  {
    var u := unique[k := AddCounts(unique[k], row)];
    var q := p + [row];
    forall i | 0 <= i < |q| ensures HasEntry(u, q[i].workflowId) {
      if i < |p| {
        assert q[i] == p[i];
        assert HasEntry(unique, p[i].workflowId);
        var j :| 0 <= j < |unique| && unique[j].workflowId == p[i].workflowId;
        assert 0 <= j < |u| && u[j].workflowId == q[i].workflowId;
      } else {
        assert q[i] == row;
        assert 0 <= k < |u| && u[k].workflowId == q[i].workflowId;
      }
    }
  }

  lemma MergeStep(p: seq<GaugeRow>, unique: seq<GaugeRow>, row: GaugeRow, k: nat)
    requires MergeOf(p, unique) && k < |unique| && unique[k].workflowId == row.workflowId
    ensures MergeOf(p + [row], unique[k := AddCounts(unique[k], row)])
  {
    AllMergedMerge(p, unique, row, k);
    CoveredMerge(p, unique, row, k);
    DistinctMerge(unique, row, k);
    SumMerge(p, unique, row, k);
  }

  lemma DistinctMerge(unique: seq<GaugeRow>, row: GaugeRow, k: nat)
    requires DistinctIds(unique) && k < |unique| && unique[k].workflowId == row.workflowId
    ensures DistinctIds(unique[k := AddCounts(unique[k], row)])
  {
    var u := unique[k := AddCounts(unique[k], row)];
    forall i, j | 0 <= i < j < |u| ensures u[i].workflowId != u[j].workflowId {
      assert u[i].workflowId == unique[i].workflowId && u[j].workflowId == unique[j].workflowId;
    }
  }

  lemma SumMerge(p: seq<GaugeRow>, unique: seq<GaugeRow>, row: GaugeRow, k: nat)
    requires SumOf(unique, Executions) == SumOf(p, Executions) && k < |unique|
    ensures SumOf(unique[k := AddCounts(unique[k], row)], Executions) == SumOf(p + [row], Executions)
  {
    SumOfUpdate(unique, k, AddCounts(unique[k], row));
    SumOfAppend(p, [row], Executions);
  }

  /** A row whose id has no entry has not been seen. */
  lemma UnseenId(p: seq<GaugeRow>, unique: seq<GaugeRow>, row: GaugeRow)
    requires Covered(p, unique)
    requires forall j :: 0 <= j < |unique| ==> unique[j].workflowId != row.workflowId
    ensures forall i :: 0 <= i < |p| ==> p[i].workflowId != row.workflowId
  {
    forall i | 0 <= i < |p| ensures p[i].workflowId != row.workflowId {
      assert HasEntry(unique, p[i].workflowId);
    }
  }

  lemma AllMergedAppend(p: seq<GaugeRow>, unique: seq<GaugeRow>, row: GaugeRow)
    requires AllMerged(p, unique) && Covered(p, unique)
    requires forall j :: 0 <= j < |unique| ==> unique[j].workflowId != row.workflowId
    ensures AllMerged(p + [row], unique + [row])
  {
    var u := unique + [row];
    UnseenId(p, unique, row);
    forall j | 0 <= j < |u| ensures MergedFor(p + [row], u[j]) {
      if j < |unique| {
        assert u[j] == unique[j];
        MergedForSnoc(p, row, unique[j]);
      } else {
        MergedForNew(p, row);
      }
    }
  }

  lemma CoveredAppend(p: seq<GaugeRow>, unique: seq<GaugeRow>, row: GaugeRow)
    requires Covered(p, unique)
    ensures Covered(p + [row], unique + [row])
  {
    var u := unique + [row];
    var q := p + [row];
    forall i | 0 <= i < |q| ensures HasEntry(u, q[i].workflowId) {
      if i < |p| {
        assert q[i] == p[i];
        assert HasEntry(unique, p[i].workflowId);
        var j :| 0 <= j < |unique| && unique[j].workflowId == p[i].workflowId;
        assert 0 <= j < |u| && u[j].workflowId == q[i].workflowId;
      } else {
        assert q[i] == row;
        assert 0 <= |unique| < |u| && u[|unique|].workflowId == q[i].workflowId;
      }
    }
  }

  lemma AppendStep(p: seq<GaugeRow>, unique: seq<GaugeRow>, row: GaugeRow)
    requires MergeOf(p, unique)
    requires forall j :: 0 <= j < |unique| ==> unique[j].workflowId != row.workflowId
    ensures MergeOf(p + [row], unique + [row])
  {
    AllMergedAppend(p, unique, row);
    CoveredAppend(p, unique, row);
    DistinctAppend(unique, row);
    SumOfAppend(unique, [row], Executions);
    SumOfAppend(p, [row], Executions);
  }

  lemma DistinctAppend(unique: seq<GaugeRow>, row: GaugeRow)
    requires DistinctIds(unique)
    requires forall j :: 0 <= j < |unique| ==> unique[j].workflowId != row.workflowId
    ensures DistinctIds(unique + [row])
  {
    var u := unique + [row];
    forall i, j | 0 <= i < j < |u| ensures u[i].workflowId != u[j].workflowId {
      assert u[i] == unique[i];
      if j < |unique| {
        assert u[j] == unique[j];
      } else {
        assert u[j] == row;
      }
    }
  }

  /**
   * The merge as the source does it: the rows in order, a new id starting
   * an entry, a repeated id adding its counts to that entry.
   */
  method Deduplicate(rows: seq<GaugeRow>) returns (unique: seq<GaugeRow>)
    ensures MergeOf(rows, unique)
  {
    unique := [];
    ghost var seen: seq<GaugeRow> := [];
    var n := 0;
    while n < |rows|
      invariant 0 <= n <= |rows| && seen == rows[..n]
      invariant MergeOf(seen, unique)
    {
      var row := rows[n];
      var k := IndexOfId(unique, row.workflowId);
      if k < |unique| {
        MergeStep(seen, unique, row, k);
        unique := unique[k := AddCounts(unique[k], row)];
      } else {
        AppendStep(seen, unique, row);
        unique := unique + [row];
      }
      PrefixSnoc(rows, n);
      seen := seen + [row];
      n := n + 1;
    }
    assert rows[..n] == rows;
  }

  lemma PrefixSnoc<T>(s: seq<T>, n: nat)
    requires n < |s|
    ensures s[..n + 1] == s[..n] + [s[n]]
  {
  }

  /** The position of the entry with the given id, or `|entries|` when there is none. */
  method IndexOfId(entries: seq<GaugeRow>, id: Option<string>) returns (k: nat)
    ensures k <= |entries|
    ensures k < |entries| ==> entries[k].workflowId == id
    ensures k == |entries| ==> forall j :: 0 <= j < |entries| ==> entries[j].workflowId != id
  {
    k := 0;
    while k < |entries| && entries[k].workflowId != id
      invariant 0 <= k <= |entries|
      invariant forall j :: 0 <= j < k ==> entries[j].workflowId != id
    {
      k := k + 1;
    }
  }

  /** The gauge's workflows: kept, named, merged by id and re-sorted, most executions first. */
  method UniqueWorkflows(stats: seq<WorkflowStats>, roi: seq<WorkflowROICalculated>) returns (u: seq<GaugeRow>)
    ensures SortedDesc(u, Executions) && DistinctIds(u)
    ensures MergeOf(WorkflowsWithExecutions(stats, roi), u)
    ensures SumOf(u, Executions) == SumOf(WorkflowsWithExecutions(stats, roi), Executions)
    ensures forall row :: row in u ==> row.executions > 0.0
  {
    var rows := WorkflowsWithExecutions(stats, roi);
    var merged := Deduplicate(rows);
    forall j | 0 <= j < |merged| ensures merged[j].executions > 0.0 {
      assert MergedFor(rows, merged[j]);
      SumWherePositive(rows, merged[j].workflowId, FirstIndex(rows, merged[j].workflowId));
    }
    u := SortDesc(merged, Executions);
    SumOfPermutation(u, merged, Executions);
    DistinctIdsPermutation(merged, u);
    MergeOfPermutation(rows, merged, u);
    forall row | row in u ensures row.executions > 0.0 {
      assert row in multiset(merged);
    }
  }

  /** Re-ordering the entries keeps them the merge of the same rows. */
  lemma MergeOfPermutation(rows: seq<GaugeRow>, a: seq<GaugeRow>, b: seq<GaugeRow>)
    requires MergeOf(rows, a) && multiset(a) == multiset(b)
    ensures MergeOf(rows, b)
  {
    assert |a| == |multiset(a)| == |multiset(b)| == |b|;
    DistinctIdsPermutation(a, b);
    forall i | 0 <= i < |rows| ensures HasEntry(b, rows[i].workflowId) {
      assert HasEntry(a, rows[i].workflowId);
      var j :| 0 <= j < |a| && a[j].workflowId == rows[i].workflowId;
      assert a[j] in multiset(b);
      var k :| 0 <= k < |b| && b[k] == a[j];
    }
    forall j | 0 <= j < |b| ensures MergedFor(rows, b[j]) {
      assert b[j] in multiset(a);
      var k :| 0 <= k < |a| && a[k] == b[j];
    }
    SumOfPermutation(b, a, Executions);
  }

  lemma {:induction false} SumWherePositive(rows: seq<GaugeRow>, id: Option<string>, i: nat)
    requires forall row :: row in rows ==> row.executions > 0.0
    requires i < |rows| && rows[i].workflowId == id
    ensures SumWhere(rows, id, Executions) > 0.0
    decreases |rows|
  {
    var front := rows[..|rows| - 1];
    if i < |rows| - 1 {
      assert front[i] == rows[i];
      SumWhereNonNegative(front[..|front|], id);
      SumWherePositive(front, id, i);
    } else {
      SumWhereNonNegative(front, id);
    }
  }

  lemma {:induction false} SumWhereNonNegative(rows: seq<GaugeRow>, id: Option<string>)
    requires forall row :: row in rows ==> row.executions > 0.0
    ensures SumWhere(rows, id, Executions) >= 0.0
    decreases |rows|
  {
    if rows != [] {
      SumWhereNonNegative(rows[..|rows| - 1], id);
    }
  }

  lemma DistinctIdsPermutation(a: seq<GaugeRow>, b: seq<GaugeRow>)
    requires DistinctIds(a) && multiset(a) == multiset(b)
    ensures DistinctIds(b)
  {
    forall i, j | 0 <= i < j < |b| ensures b[i].workflowId != b[j].workflowId {
      assert b[i] in multiset(a) && b[j] in multiset(a);
      var p :| 0 <= p < |a| && a[p] == b[i];
      var q :| 0 <= q < |a| && a[q] == b[j];
      if p == q {
        assert multiset(b)[b[i]] >= 2 by {
          assert b == b[..i] + [b[i]] + b[i + 1..];
          assert b[j] in b[i + 1..] by {
            assert b[i + 1..][j - i - 1] == b[j];
          }
        }
        CountAtMostOne(a, p);
        assert false;
      }
    }
  }

  lemma CountAtMostOne(a: seq<GaugeRow>, p: nat)
    requires DistinctIds(a) && p < |a|
    ensures multiset(a)[a[p]] == 1
  {
    assert a == a[..p] + [a[p]] + a[p + 1..];
    var front, back := a[..p], a[p + 1..];
    forall i | 0 <= i < |front| ensures front[i] != a[p] {
      assert front[i] == a[i];
    }
    forall i | 0 <= i < |back| ensures back[i] != a[p] {
      assert back[i] == a[p + 1 + i];
    }
    assert a[p] !in front;
    assert a[p] !in back;
    assert multiset(a[..p])[a[p]] == 0;
    assert multiset(a[p + 1..])[a[p]] == 0;
  }

  // ----- segment boundaries (lines 223-240) -----

  /** The percentage of the total reached by the first `i` rows. */
  function CumulativePercent(rows: seq<GaugeRow>, i: nat, total: real): real
    requires i <= |rows| && total != 0.0
  {
    100.0 * SumOf(rows[..i], Executions) / total
  }

  /**
   * The boundaries, built by pushing the running percentage after each
   * row and overwriting the last with 100; [0, 100] without executions.
   */
  method SegmentBoundaries(rows: seq<GaugeRow>) returns (b: seq<real>)
    ensures var total := SumOf(rows, Executions);
            total > 0.0 ==>
              |b| == |rows| + 1 && b[0] == 0.0 && b[|rows|] == 100.0 &&
              forall i :: 0 <= i < |rows| ==> b[i] == CumulativePercent(rows, i, total)
    ensures SumOf(rows, Executions) <= 0.0 ==> b == [0.0, 100.0]
  {
    var total := SumOf(rows, Executions);
    b := [0.0];
    if total > 0.0 {
      var cumulative := 0.0;
      var i := 0;
      while i < |rows|
        invariant 0 <= i <= |rows| && |b| == i + 1 && b[0] == 0.0
        invariant cumulative == CumulativePercent(rows, i, total)
        invariant forall k :: 1 <= k <= i ==> b[k] == CumulativePercent(rows, k, total)
      {
        var percent := (rows[i].executions / total) * 100.0;
        PrefixSumStep(rows, i);
        PercentStep(SumOf(rows[..i], Executions), rows[i].executions, total);
        cumulative := cumulative + percent;
        b := b + [cumulative];
        i := i + 1;
      }
      b := b[|b| - 1 := 100.0];
    } else {
      b := [0.0, 100.0];
    }
  }

  /** Adding one row's percentage to the running percentage of the rows before it. */
  lemma PercentStep(a: real, b: real, t: real)
    requires t != 0.0
    ensures 100.0 * a / t + (b / t) * 100.0 == 100.0 * (a + b) / t
  {
    assert (b / t) * 100.0 == 100.0 * b / t;
    assert 100.0 * a / t + 100.0 * b / t == (100.0 * a + 100.0 * b) / t;
  }

  lemma PrefixSumStep(rows: seq<GaugeRow>, i: nat)
    requires i < |rows|
    ensures SumOf(rows[..i + 1], Executions) == SumOf(rows[..i], Executions) + rows[i].executions
  {
    assert rows[..i + 1] == rows[..i] + [rows[i]];
    SumOfAppend(rows[..i], [rows[i]], Executions);
  }

  /**
   * Overwriting the last boundary changes nothing in exact arithmetic: the
   * running percentage after all rows is 100.
   */
  lemma LastBoundaryIsHundred(rows: seq<GaugeRow>)
    requires SumOf(rows, Executions) > 0.0
    ensures CumulativePercent(rows, |rows|, SumOf(rows, Executions)) == 100.0
  {
    assert rows[..|rows|] == rows;
    var total := SumOf(rows, Executions);
    assert 100.0 * total / total == 100.0;
  }

  /**
   * With positive executions the boundaries never decrease, and the width
   * of segment i is that workflow's share of the executions.
   */
  lemma SegmentWidth(rows: seq<GaugeRow>, i: nat)
    requires SumOf(rows, Executions) > 0.0 && i < |rows|
    ensures var total := SumOf(rows, Executions);
            CumulativePercent(rows, i + 1, total) - CumulativePercent(rows, i, total) == 100.0 * rows[i].executions / total
    ensures rows[i].executions >= 0.0 ==>
      CumulativePercent(rows, i, SumOf(rows, Executions)) <= CumulativePercent(rows, i + 1, SumOf(rows, Executions))
  {
    PrefixSumStep(rows, i);
    ShareOfSum(SumOf(rows[..i], Executions), rows[i].executions, SumOf(rows, Executions));
  }

  lemma ShareOfSum(a: real, b: real, t: real)
    requires t > 0.0
    ensures 100.0 * (a + b) / t - 100.0 * a / t == 100.0 * b / t
    ensures b >= 0.0 ==> 100.0 * a / t <= 100.0 * (a + b) / t
  {
    assert 100.0 * (a + b) / t == 100.0 * a / t + 100.0 * b / t;
    if b >= 0.0 {
      assert 100.0 * b / t >= 0.0;
    }
  }

  // ----- colours and labels (lines 245-254, 383-392) -----

  /** `colorPalette`: seven of the main palette's colours, as `rgb` text. */
  const Palette: seq<string> := [
    DesignTokens.MainPrimary[1].rgb, DesignTokens.MainPrimary[2].rgb,
    DesignTokens.MainSecondary[1].rgb, DesignTokens.MainSecondary[2].rgb,
    DesignTokens.MainSecondary[3].rgb, DesignTokens.MainSecondary[4].rgb,
    DesignTokens.MainTertiary[2].rgb]

  /** `colorPalette.slice(0, segmentCount)[index]`: segments past the seventh get no colour. */
  function SegmentColor(index: nat, segmentCount: nat): (c: Option<string>)
    ensures c.Some? <==> index < segmentCount && index < |Palette|
    ensures c.Some? ==> c.value == Palette[index]
  {
    var colors := Palette[..MinInt(segmentCount, |Palette|)];
    if index < |colors| then Some(colors[index]) else None
  }

  /** A segment's label is shown only when it is at least 3% of the executions. */
  function ShowLabel(row: GaugeRow, total: real): (shown: bool)
    ensures shown <==> total > 0.0 && (row.executions / total) * 100.0 >= 3.0
  {
    var segmentPercent := if total > 0.0 then (row.executions / total) * 100.0 else 0.0;
    total > 0.0 && !(segmentPercent < 3.0)
  }
}
