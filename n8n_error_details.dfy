/**
 * The "Filter and Transform" code node of the n8n collector workflow
 * (n8n-workflows/QUICK_FIX_add_error_details.js): it keeps the executions
 * of the tracked workflows, computes each one's duration, assembles a
 * details text for failed executions from the error information n8n
 * records, and emits one database record per kept execution, or a single
 * skip marker when none is kept.
 */
module N8nErrorDetails {
  import opened Common

  // ----- the input -----

  /** An execution id as n8n gives it: text or a number. */
  datatype ExecutionId = IdText(text: string) | IdNumber(n: nat)

  /** A timestamp: its text, and the instant it parses to in milliseconds. */
  datatype Stamp = Stamp(text: string, ms: int)

  /** `exec.data.resultData.error`; `causeMessage` is `error.cause.message`. */
  datatype MainError = MainError(message: Option<string>, description: Option<string>, causeMessage: Option<string>)

  /** The error of a node's first run. */
  datatype NodeError = NodeError(message: Option<string>, description: Option<string>)

  /** One node's entry in `runData`: its runs (absent when `null`), each with an optional error. */
  datatype NodeEntry = NodeEntry(name: string, runs: Option<seq<Option<NodeError>>>)

  /** `exec.data.resultData`; `runData` lists the nodes in the order `for...in` visits them. */
  datatype ResultData = ResultData(error: Option<MainError>, runData: Option<seq<NodeEntry>>)

  datatype Execution = Execution(
    id: ExecutionId,
    workflowId: string,
    finished: Option<bool>,
    mode: Option<string>,
    startedAt: Option<Stamp>,
    stoppedAt: Option<Stamp>,
    status: string,
    resultData: Option<ResultData>,
    lastNodeExecuted: Option<string>)

  // ----- the output -----

  datatype Record = Record(
    clientId: string,
    workflowId: string,
    executionId: string,
    finished: bool,
    mode: Option<string>,
    startedAt: Option<string>,
    stoppedAt: Option<string>,
    durationMs: Option<int>,
    status: string,
    details: Option<string>)

  datatype Item = Emit(record: Record) | Skip(message: string)

  const SkipMessage := "No executions for tracked workflows"
  const NoDetails := "Execution failed - no error details available"
  const Separator := " | "

  // ----- helpers -----

  predicate TruthyStamp(s: Option<Stamp>) {
    s.Some? && s.value.text != ""
  }

  /** `String(exec.id)`. */
  function IdString(id: ExecutionId): string {
    match id
    case IdText(text) => text
    case IdNumber(n) => NatToString(n)
  }

  /** The parts joined with the separator between neighbours (`Array.prototype.join`). */
  function Join(parts: seq<string>, sep: string): string {
    if parts == [] then ""
    else if |parts| == 1 then parts[0]
    else parts[0] + sep + Join(parts[1..], sep)
  }

  /** Every part appears in the joined text. */
  lemma {:induction false} JoinContains(parts: seq<string>, sep: string, i: nat)
    requires i < |parts|
    ensures Contains(Join(parts, sep), parts[i])
  {
    var joined := Join(parts, sep);
    if i == 0 {
      assert StartsWith(joined[0..], parts[0]) by {
        if |parts| > 1 {
          assert joined == parts[0] + (sep + Join(parts[1..], sep));
        }
      }
    } else {
      var rest := Join(parts[1..], sep);
      JoinContains(parts[1..], sep, i - 1);
      var k :| 0 <= k <= |rest| - |parts[i]| && StartsWith(rest[k..], parts[i]);
      var head := parts[0] + sep;
      assert joined == head + rest;
      assert joined[|head| + k..] == rest[k..];
    }
  }

  // ----- the error parts (lines 33-58) -----

  /** Message, description and "Cause: ..." of the main error, each when non-empty. */
  function MainErrorParts(exec: Execution): seq<string> {
    if exec.resultData.Some? && exec.resultData.value.error.Some? then
      var e := exec.resultData.value.error.value;
      (if TruthyText(e.message) then [e.message.value] else []) +
      (if TruthyText(e.description) then [e.description.value] else []) +
      (if TruthyText(e.causeMessage) then ["Cause: " + e.causeMessage.value] else [])
    else []
  }

  /** "Failed at: ..." when the last executed node is known. */
  function LastNodeParts(exec: Execution): seq<string> {
    if TruthyText(exec.lastNodeExecuted) then ["Failed at: " + exec.lastNodeExecuted.value] else []
  }

  /** The first run's error of a node, when it has one. */
  function FirstRunError(entry: NodeEntry): Option<NodeError> {
    if entry.runs.Some? && |entry.runs.value| > 0 then entry.runs.value[0] else None
  }

  /** "node: message" (or the description, or "Error") for a node whose first run failed. */
  function NodePart(name: string, e: NodeError): string {
    name + ": " + (if TruthyText(e.message) then e.message.value
                   else if TruthyText(e.description) then e.description.value
                   else "Error")
  }

  /** One part per node whose first run has an error, in visiting order. */
  function NodeParts(entries: seq<NodeEntry>): (parts: seq<string>)
    ensures |parts| <= |entries|
  {
    if entries == [] then []
    else
      var front := entries[..|entries| - 1];
      var last := entries[|entries| - 1];
      NodeParts(front) + (if FirstRunError(last).Some? then [NodePart(last.name, FirstRunError(last).value)] else [])
  }

  function RunData(exec: Execution): seq<NodeEntry> {
    if exec.resultData.Some? && exec.resultData.value.runData.Some? then exec.resultData.value.runData.value else []
  }

  /** All parts, in the order the script collects them. */
  function ErrorParts(exec: Execution): seq<string> {
    MainErrorParts(exec) + LastNodeParts(exec) + NodeParts(RunData(exec))
  }

  /**
   * The details of a failed execution: the parts collected one check
   * after another (the main error, the last node, then each node whose
   * first run has an error), joined with " | ", or the fixed fallback when
   * there are none.
   */
  method ErrorDetails(exec: Execution) returns (details: string)
    ensures ErrorParts(exec) == [] ==> details == NoDetails
    ensures ErrorParts(exec) != [] ==> details == Join(ErrorParts(exec), Separator)
  {
    var errorParts: seq<string> := [];
    if exec.resultData.Some? && exec.resultData.value.error.Some? {
      var error := exec.resultData.value.error.value;
      if TruthyText(error.message) {
        errorParts := errorParts + [error.message.value];
      }
      if TruthyText(error.description) {
        errorParts := errorParts + [error.description.value];
      }
      if TruthyText(error.causeMessage) {
        errorParts := errorParts + ["Cause: " + error.causeMessage.value];
      }
    }
    assert errorParts == MainErrorParts(exec);
    if TruthyText(exec.lastNodeExecuted) {
      errorParts := errorParts + ["Failed at: " + exec.lastNodeExecuted.value];
    }
    assert errorParts == MainErrorParts(exec) + LastNodeParts(exec);
    if exec.resultData.Some? && exec.resultData.value.runData.Some? {
      var nodeParts := NodeErrorParts(exec.resultData.value.runData.value);
      errorParts := errorParts + nodeParts;
    }
    assert errorParts == ErrorParts(exec);
    details := if |errorParts| > 0 then Join(errorParts, Separator) else NoDetails;
  }

  /** Step 3: one part per node whose first run has an error, visiting the nodes in order. */
  method NodeErrorParts(runData: seq<NodeEntry>) returns (parts: seq<string>)
    ensures parts == NodeParts(runData)
  {
    parts := [];
    var i := 0;
    while i < |runData|
      invariant 0 <= i <= |runData|
      invariant parts == NodeParts(runData[..i])
    {
      var entry := runData[i];
      assert runData[..i + 1][..i] == runData[..i] && runData[..i + 1][i] == entry;
      if entry.runs.Some? && |entry.runs.value| > 0 && entry.runs.value[0].Some? {
        var nodeError := entry.runs.value[0].value;
        parts := parts + [NodePart(entry.name, nodeError)];
      }
      i := i + 1;
    }
    assert runData[..|runData|] == runData;
  }

  /** Every part is non-empty, so a failed execution never gets an empty details text. */
  lemma {:induction false} PartsAreNonEmpty(exec: Execution)
    ensures forall p :: p in ErrorParts(exec) ==> p != []
  {
    NodePartsAreNonEmpty(RunData(exec));
  }

  lemma {:induction false} NodePartsAreNonEmpty(entries: seq<NodeEntry>)
    ensures forall p :: p in NodeParts(entries) ==> p != []
  {
    if entries != [] {
      NodePartsAreNonEmpty(entries[..|entries| - 1]);
    }
  }

  /** A node whose first run failed is named in the details. */
  lemma {:induction false} FailedNodeIsReported(entries: seq<NodeEntry>, j: nat)
    requires j < |entries| && FirstRunError(entries[j]).Some?
    ensures NodePart(entries[j].name, FirstRunError(entries[j]).value) in NodeParts(entries)
  {
    var front := entries[..|entries| - 1];
    if j < |entries| - 1 {
      assert entries[j] == front[j];
      FailedNodeIsReported(front, j);
    }
  }

  /** So the details text of such an execution contains "node: message" for that node. */
  lemma DetailsNameFailedNode(exec: Execution, j: nat)
    requires j < |RunData(exec)| && FirstRunError(RunData(exec)[j]).Some?
    ensures var part := NodePart(RunData(exec)[j].name, FirstRunError(RunData(exec)[j]).value);
            Contains(Join(ErrorParts(exec), Separator), part)
  {
    var entries := RunData(exec);
    var part := NodePart(entries[j].name, FirstRunError(entries[j]).value);
    FailedNodeIsReported(entries, j);
    var parts := ErrorParts(exec);
    assert part in parts;
    var i :| 0 <= i < |parts| && parts[i] == part;
    JoinContains(parts, Separator, i);
  }

  // ----- one record (lines 22-31, 61-81) -----

  /** `Math.round(stopped - started)` when both timestamps are present, else null. */
  function Duration(exec: Execution): (d: Option<int>)
    ensures d.Some? <==> TruthyStamp(exec.startedAt) && TruthyStamp(exec.stoppedAt)
    ensures d.Some? ==> d.value + exec.startedAt.value.ms == exec.stoppedAt.value.ms
  {
    if TruthyStamp(exec.startedAt) && TruthyStamp(exec.stoppedAt) then
      Some(exec.stoppedAt.value.ms - exec.startedAt.value.ms)
    else None
  }

  function StampText(s: Option<Stamp>): (t: Option<string>)
    ensures t.Some? <==> TruthyStamp(s)
    ensures t.Some? ==> t.value == s.value.text
  {
    if TruthyStamp(s) then Some(s.value.text) else None
  }

  /** The details for a failed execution's record. */
  function DetailsText(exec: Execution): (text: string)
    ensures text != []
    ensures ErrorParts(exec) == [] ==> text == NoDetails
    ensures ErrorParts(exec) != [] ==> text == Join(ErrorParts(exec), Separator)
  {
    var parts := ErrorParts(exec);
    if parts == [] then NoDetails
    else
      PartsAreNonEmpty(exec);
      assert parts[0] in parts;
      JoinContains(parts, Separator, 0);
      Join(parts, Separator)
  }

  /**
   * The record emitted for a kept execution: the id as text, `finished`
   * false unless true, mode and timestamps null when empty, the status as
   * given, and details only for the status "error".
   */
  function ToRecord(clientId: string, exec: Execution): (r: Record)
    ensures r.clientId == clientId && r.workflowId == exec.workflowId && r.status == exec.status
    ensures r.executionId == IdString(exec.id)
    ensures r.finished <==> exec.finished == Some(true)
    ensures r.mode == (if TruthyText(exec.mode) then exec.mode else None)
    ensures r.startedAt == StampText(exec.startedAt) && r.stoppedAt == StampText(exec.stoppedAt)
    ensures r.durationMs == Duration(exec)
    ensures r.details.Some? <==> exec.status == "error"
    ensures r.details.Some? ==> r.details.value == DetailsText(exec) && r.details.value != []
  {
    Record(clientId, exec.workflowId, IdString(exec.id), OrElse(exec.finished, false),
           if TruthyText(exec.mode) then exec.mode else None,
           StampText(exec.startedAt), StampText(exec.stoppedAt), Duration(exec), exec.status,
           if exec.status == "error" then Some(DetailsText(exec)) else None)
  }

  /** The record for one kept execution, built as the loop body builds it. */
  method TransformExecution(clientId: string, exec: Execution) returns (record: Record)
    ensures record == ToRecord(clientId, exec)
  {
    var durationMs: Option<int> := None;
    if TruthyStamp(exec.startedAt) && TruthyStamp(exec.stoppedAt) {
      durationMs := Some(exec.stoppedAt.value.ms - exec.startedAt.value.ms);
    }
    assert durationMs == Duration(exec);
    var details: Option<string> := None;
    if exec.status == "error" {
      var text := ErrorDetails(exec);
      details := Some(text);
    }
    assert details == ToRecord(clientId, exec).details;
    record := Record(clientId, exec.workflowId, IdString(exec.id), OrElse(exec.finished, false),
                     if TruthyText(exec.mode) then exec.mode else None,
                     StampText(exec.startedAt), StampText(exec.stoppedAt), durationMs, exec.status, details);
  }

  // ----- the node (lines 9-20, 68-88) -----

  predicate Tracked(exec: Execution, workflowIds: seq<string>) {
    exec.workflowId in workflowIds
  }

  /** The executions of the tracked workflows, in input order. */
  function Kept(execs: seq<Execution>, workflowIds: seq<string>): (kept: seq<Execution>)
    ensures |kept| <= |execs|
  {
    if execs == [] then []
    else
      var last := execs[|execs| - 1];
      Kept(execs[..|execs| - 1], workflowIds) + (if Tracked(last, workflowIds) then [last] else [])
  }

  /** An execution is kept exactly when it is in the input and its workflow is tracked. */
  lemma {:induction false} KeptExactlyTracked(execs: seq<Execution>, workflowIds: seq<string>, e: Execution)
    ensures e in Kept(execs, workflowIds) <==> e in execs && Tracked(e, workflowIds)
  {
    if execs != [] {
      var front := execs[..|execs| - 1];
      KeptExactlyTracked(front, workflowIds, e);
      assert execs == front + [execs[|execs| - 1]];
    }
  }

  /**
   * The node's output: one record per execution of a tracked workflow, in
   * input order, or the single skip marker when there is none.
   */
  method Transform(clientId: string, workflowIds: seq<string>, execs: seq<Execution>) returns (items: seq<Item>)
    ensures Kept(execs, workflowIds) == [] ==> items == [Skip(SkipMessage)]
    ensures Kept(execs, workflowIds) != [] ==>
      |items| == |Kept(execs, workflowIds)| &&
      forall j :: 0 <= j < |items| ==> items[j] == Emit(ToRecord(clientId, Kept(execs, workflowIds)[j]))
  {
    var results: seq<Item> := [];
    ghost var kept: seq<Execution> := [];
    var i := 0;
    while i < |execs|
      invariant 0 <= i <= |execs|
      invariant kept == Kept(execs[..i], workflowIds)
      invariant |results| == |kept|
      invariant forall j :: 0 <= j < |results| ==> results[j] == Emit(ToRecord(clientId, kept[j]))
    {
      var exec := execs[i];
      assert execs[..i + 1][..i] == execs[..i] && execs[..i + 1][i] == exec;
      if exec.workflowId in workflowIds {
        var record := TransformExecution(clientId, exec);
        results := results + [Emit(record)];
        kept := kept + [exec];
      }
      i := i + 1;
    }
    assert execs[..|execs|] == execs;
    if |results| == 0 {
      return [Skip(SkipMessage)];
    }
    items := results;
  }
}
