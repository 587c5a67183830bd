/**
 * The server-paginated execution history (components/ExecutionHistoryTable.tsx):
 * the filter state, the page reset when a filter changes, the request for
 * one page of 20 rows, the page buttons, the active filter count, and the
 * message shown when a fetch fails.
 */
module ExecutionHistoryTable {
  import opened Common
  import opened Types
  import SupabaseQueries
  import RecentExecutions

  const ItemsPerPage: nat := 20

  // ----- the error message (lines 91-128) -----

  /** The `message` property of a thrown object, by its `typeof`. */
  datatype MessageValue =
    | MessageText(text: string)
    | MessageObject(json: Option<string>)   // the JSON text; `None` when stringifying throws
    | MessageOther                          // a number, boolean or undefined

  /** The `error` property of a thrown object (tried only when there is no `message`). */
  datatype ErrorValue =
    | ErrorText(text: string)
    | ErrorWithMessage(text: string)         // an object with a `message`, as `String(...)` prints it
    | ErrorOther

  /** What a failed fetch throws. */
  datatype Thrown =
    | ErrorInstance(message: string)
    | ThrownObject(messageKey: Option<MessageValue>, errorKey: Option<ErrorValue>)
    | ThrownText(text: string)
    | ThrownOther                            // null, undefined, a number or a boolean

  // The two longer texts are written in two parts so that the verifier can
  // look at their characters one by one.
  const DefaultMessage := "Failed to load executions." + " Please try again."
  const StringifyFailed := "An error occurred while processing the request"
  const JsonMessage := "An error occurred while loading executions." + " Please refresh the page."

  predicate LooksLikeJson(s: string) {
    StartsWith(s, "{") || StartsWith(s, "[")
  }

  /** The final clean-up: trimmed, and replaced by a fixed text when it looks like JSON. */
  function Cleaned(m: string): (r: string)
    ensures !LooksLikeJson(r)
    ensures r == [] || (!IsSpace(r[0]) && !IsSpace(r[|r| - 1]))
    ensures LooksLikeJson(Trim(m)) ==> r == JsonMessage
    ensures r == Trim(m) <==> !LooksLikeJson(Trim(m))
  {
    JsonMessageIsClean();
    if LooksLikeJson(Trim(m)) then JsonMessage else Trim(m)
  }

  lemma JsonMessageIsClean()
    ensures !LooksLikeJson(JsonMessage)
    ensures !IsSpace(JsonMessage[0]) && !IsSpace(JsonMessage[|JsonMessage| - 1])
  {
    var head := "An error occurred while loading executions.";
    assert JsonMessage[0] == head[0] == 'A';
    assert JsonMessage[..1] == ['A'];
  }

  /**
   * The message chosen before the clean-up: the error's own message
   * (unless empty), a non-blank string `message`, an object `message` as
   * JSON cut to 200 characters, an `error` string or the text of its
   * message, a thrown string, and the default text otherwise.
   */
  function ChosenMessage(err: Thrown): string {
    match err
    case ErrorInstance(message) => if message != "" then message else DefaultMessage
    case ThrownObject(messageKey, errorKey) =>
      if messageKey.Some? then
        match messageKey.value
        case MessageText(text) => if Trim(text) != "" then text else DefaultMessage
        case MessageObject(json) => if json.Some? then json.value[..MinInt(200, |json.value|)] else StringifyFailed
        case MessageOther => DefaultMessage
      else if errorKey.Some? then
        match errorKey.value
        case ErrorText(text) => text
        case ErrorWithMessage(text) => if text != "" then text else DefaultMessage
        case ErrorOther => DefaultMessage
      else DefaultMessage
    case ThrownText(text) => text
    case ThrownOther => DefaultMessage
  }

  /**
   * The message shown for a failed fetch, reassigned step by step as the
   * source does: the chosen message, cleaned.
   */
  method ExtractErrorMessage(err: Thrown) returns (errorMessage: string)
    ensures errorMessage == Cleaned(ChosenMessage(err))
  {
    errorMessage := DefaultMessage;
    match err {
      case ErrorInstance(message) =>
        errorMessage := if message != "" then message else errorMessage;
      case ThrownObject(message, error) =>
        if message.Some? {
          match message.value {
            case MessageText(text) =>
              if Trim(text) != "" {
                errorMessage := text;
              }
            case MessageObject(json) =>
              if json.Some? {
                errorMessage := json.value[..MinInt(200, |json.value|)];
              } else {
                errorMessage := StringifyFailed;
              }
            case MessageOther =>
          }
        } else if error.Some? {
          match error.value {
            case ErrorText(text) =>
              errorMessage := text;
            case ErrorWithMessage(text) =>
              errorMessage := if text != "" then text else errorMessage;
            case ErrorOther =>
          }
        }
      case ThrownText(text) =>
        errorMessage := text;
      case ThrownOther =>
    }
    assert errorMessage == ChosenMessage(err);
    errorMessage := CleanUp(errorMessage);
  }

  /** The last step: trim, and replace what looks like JSON with the fixed text. */
  method CleanUp(message: string) returns (cleaned: string)
    ensures cleaned == Cleaned(message)
  {
    cleaned := Trim(message);
    if LooksLikeJson(cleaned) {
      cleaned := JsonMessage;
    }
  }

  /** The default text needs no cleaning. */
  lemma DefaultIsClean()
    ensures Cleaned(DefaultMessage) == DefaultMessage
  {
    CleanTextIsKept(DefaultMessage);
  }

  lemma CleanTextIsKept(s: string)
    requires |s| > 0 && !IsSpace(s[0]) && !IsSpace(s[|s| - 1]) && !LooksLikeJson(s)
    ensures Cleaned(s) == s
  {
  }

  /** With nothing usable thrown, the default text is shown. */
  lemma NothingUsableShowsDefault(err: Thrown)
    requires || err.ThrownOther?
             || (err.ErrorInstance? && err.message == "")
             || (err.ThrownObject? && err.messageKey == Some(MessageOther))
             || (err.ThrownObject? && err.messageKey.None? && (err.errorKey.None? || err.errorKey == Some(ErrorOther)))
    ensures Cleaned(ChosenMessage(err)) == DefaultMessage
  {
    assert ChosenMessage(err) == DefaultMessage;
    DefaultIsClean();
  }

  /**
   * A non-blank string `message` is shown trimmed (unless it looks like
   * JSON), whatever the `error` key holds.
   */
  lemma MessageKeyWins(text: string, errorKey: Option<ErrorValue>)
    requires Trim(text) != "" && !LooksLikeJson(Trim(text))
    ensures Cleaned(ChosenMessage(ThrownObject(Some(MessageText(text)), errorKey))) == Trim(text)
  {
  }

  /**
   * A blank string `message` gives the default text: the `error` key is
   * not consulted once a `message` key exists.
   */
  lemma BlankMessageIgnoresErrorKey(text: string, errorKey: Option<ErrorValue>)
    requires Trim(text) == ""
    ensures Cleaned(ChosenMessage(ThrownObject(Some(MessageText(text)), errorKey))) == DefaultMessage
  {
    DefaultIsClean();
  }

  /**
   * A non-null object or array `message` is never shown: its JSON text
   * starts with "{" or "[", so the clean-up replaces it with the fixed text.
   * (A `null` message stringifies to "null", which is shown.)
   */
  lemma ObjectMessageIsReplaced(json: string, errorKey: Option<ErrorValue>)
    requires LooksLikeJson(json)
    ensures Cleaned(ChosenMessage(ThrownObject(Some(MessageObject(Some(json))), errorKey))) == JsonMessage
  {
    var cut := json[..MinInt(200, |json|)];
    assert json[..1] == "{" || json[..1] == "[";
    assert cut[0] == json[0] && !IsSpace(cut[0]);
    var trimmed := Trim(cut);
    assert trimmed[..1] == json[..1];
  }

  // ----- the details cell (lines 306-311) -----

  /** "-" for missing details, otherwise the text cut to 100 characters plus "..." when longer. */
  function DetailsCell(details: Option<string>): (cell: string)
    ensures !TruthyText(details) ==> cell == "-"
    ensures TruthyText(details) && |details.value| <= 100 ==> cell == details.value
    ensures TruthyText(details) && |details.value| > 100 ==>
      |cell| == 103 && StartsWith(details.value, cell[..100]) && cell[100..] == "..."
  {
    if !TruthyText(details) then "-"
    else if |details.value| > 100 then details.value[..100] + "..."
    else details.value
  }

  // ----- the table state (lines 24-53, 61-75, 166-174, 322-363) -----

  /** The summary under the table: a filtered count, or the range of row numbers shown. */
  datatype ShowingText = FilteredCount(shown: nat, total: nat) | RowRange(first: int, last: int, total: nat)

  class HistoryTable {
    var statusFilter: string
    var workflowFilter: string
    var daysFilter: int
    var currentPage: int
    /** The filters the last effect run saw (the source keeps them in refs). */
    var prevStatus: string
    var prevWorkflow: string
    var prevDays: int
    var data: seq<RecentExecution>
    var totalCount: nat
    var error: Option<string>

    /** The filters have not changed since the last effect run. */
    predicate Synced()
      reads this
    {
      prevStatus == statusFilter && prevWorkflow == workflowFilter && prevDays == daysFilter
    }

    /** A fresh table: all statuses and workflows, the last day, page 1, nothing loaded. */
    constructor()
      ensures statusFilter == "all" && workflowFilter == "all" && daysFilter == 1 && currentPage == 1
      ensures Synced() && data == [] && totalCount == 0 && error.None?
    {
      statusFilter, workflowFilter, daysFilter, currentPage := "all", "all", 1, 1;
      prevStatus, prevWorkflow, prevDays := "all", "all", 1;
      data, totalCount, error := [], 0, None;
    }

    function TotalPages(): (pages: nat)
      reads this
      ensures pages * ItemsPerPage >= totalCount
      ensures pages == 0 || (pages - 1) * ItemsPerPage < totalCount
    {
      CeilDiv(totalCount, ItemsPerPage)
    }

    /** One for each filter away from its default (all, all, one day). */
    function ActiveFilterCount(): (count: nat)
      reads this
      ensures count <= 3
      ensures count == 0 <==> statusFilter == "all" && workflowFilter == "all" && daysFilter == 1
    {
      (if statusFilter != "all" then 1 else 0) + (if workflowFilter != "all" then 1 else 0) +
      (if daysFilter != 1 then 1 else 0)
    }

    /**
     * The line under the table: with any filter away from its default the
     * number of rows received and the total ("(filtered)"); otherwise the
     * row numbers of the current page and the total.
     */
    function ShowingLine(): (line: ShowingText)
      reads this
      ensures line.FilteredCount? <==> ActiveFilterCount() > 0
      ensures line.FilteredCount? ==> line.shown == |data| && line.total == totalCount
      ensures line.RowRange? ==> line.total == totalCount && line.last <= totalCount
      ensures line.RowRange? ==> line.first == (currentPage - 1) * ItemsPerPage + 1
      ensures line.RowRange? && 1 <= currentPage <= TotalPages() ==>
        line.first <= line.last && line.last - line.first < ItemsPerPage
    {
      if statusFilter != "all" || workflowFilter != "all" || daysFilter != 1 then
        FilteredCount(|data|, totalCount)
      else
        RowRange((currentPage - 1) * ItemsPerPage + 1, MinInt(currentPage * ItemsPerPage, totalCount), totalCount)
    }

    method SetStatusFilter(status: string)
      modifies this
      ensures statusFilter == status
      ensures workflowFilter == old(workflowFilter) && daysFilter == old(daysFilter) && currentPage == old(currentPage)
      ensures prevStatus == old(prevStatus) && prevWorkflow == old(prevWorkflow) && prevDays == old(prevDays)
      ensures data == old(data) && totalCount == old(totalCount) && error == old(error)
    {
      statusFilter := status;
    }

    method SetWorkflowFilter(workflow: string)
      modifies this
      ensures workflowFilter == workflow
      ensures statusFilter == old(statusFilter) && daysFilter == old(daysFilter) && currentPage == old(currentPage)
      ensures prevStatus == old(prevStatus) && prevWorkflow == old(prevWorkflow) && prevDays == old(prevDays)
      ensures data == old(data) && totalCount == old(totalCount) && error == old(error)
    {
      workflowFilter := workflow;
    }

    method SetDaysFilter(days: int)
      modifies this
      ensures daysFilter == days
      ensures statusFilter == old(statusFilter) && workflowFilter == old(workflowFilter) && currentPage == old(currentPage)
      ensures prevStatus == old(prevStatus) && prevWorkflow == old(prevWorkflow) && prevDays == old(prevDays)
      ensures data == old(data) && totalCount == old(totalCount) && error == old(error)
    {
      daysFilter := days;
    }

    /** "Clear all": every filter back to its default; the count drops to 0. */
    method ClearAllFilters()
      modifies this
      ensures statusFilter == "all" && workflowFilter == "all" && daysFilter == 1
      ensures ActiveFilterCount() == 0
      ensures currentPage == old(currentPage)
      ensures prevStatus == old(prevStatus) && prevWorkflow == old(prevWorkflow) && prevDays == old(prevDays)
      ensures data == old(data) && totalCount == old(totalCount) && error == old(error)
    {
      statusFilter, workflowFilter, daysFilter := "all", "all", 1;
    }

    /**
     * The fetch effect: when any filter differs from the last run the page
     * goes back to 1 and the filters are remembered; a page change alone
     * keeps the page. The request asks for 20 rows from offset
     * (page - 1) * 20 for the chosen days, with the status and workflow
     * only when they are not "all".
     */
    method RunEffect() returns (filters: SupabaseQueries.ExecutionFilters)
      modifies this
      ensures Synced()
      ensures old(Synced()) ==> currentPage == old(currentPage)
      ensures !old(Synced()) ==> currentPage == 1
      ensures statusFilter == old(statusFilter) && workflowFilter == old(workflowFilter) && daysFilter == old(daysFilter)
      ensures data == old(data) && totalCount == old(totalCount) && error.None?
      ensures filters.offset == Some((currentPage - 1) * ItemsPerPage) && filters.limit == Some(ItemsPerPage)
      ensures filters.days == Some(daysFilter)
      ensures filters.status == (if statusFilter != "all" then Some(statusFilter) else None)
      ensures filters.workflowName == (if workflowFilter != "all" then Some(workflowFilter) else None)
    {
      var filtersChanged := prevStatus != statusFilter || prevDays != daysFilter || prevWorkflow != workflowFilter;
      var pageToUse := if filtersChanged then 1 else currentPage;
      if filtersChanged {
        currentPage := 1;
        error := None;
        prevStatus := statusFilter;
        prevDays := daysFilter;
        prevWorkflow := workflowFilter;
      }
      error := None;
      var offset := (pageToUse - 1) * ItemsPerPage;
      filters := SupabaseQueries.ExecutionFilters(
        if statusFilter != "all" then Some(statusFilter) else None,
        Some(ItemsPerPage), Some(daysFilter), Some(offset),
        if workflowFilter != "all" then Some(workflowFilter) else None);
    }

    /** A fetch answered: the page's rows and the count (0 when missing), and no error. */
    method ReceivePage(page: SupabaseQueries.ExecutionPage)
      modifies this
      ensures data == page.data && totalCount == page.count && error.None?
      ensures statusFilter == old(statusFilter) && workflowFilter == old(workflowFilter) && daysFilter == old(daysFilter)
      ensures currentPage == old(currentPage) && prevStatus == old(prevStatus) && prevWorkflow == old(prevWorkflow) && prevDays == old(prevDays)
    {
      data := page.data;
      totalCount := page.count;
      error := None;
    }

    /** A fetch failed: the extracted message, no rows and a count of 0. */
    method ReceiveFailure(err: Thrown)
      modifies this
      ensures error.Some? && !LooksLikeJson(error.value)
      ensures data == [] && totalCount == 0 && TotalPages() == 0
      ensures statusFilter == old(statusFilter) && workflowFilter == old(workflowFilter) && daysFilter == old(daysFilter)
      ensures currentPage == old(currentPage) && prevStatus == old(prevStatus) && prevWorkflow == old(prevWorkflow) && prevDays == old(prevDays)
    {
      var message := ExtractErrorMessage(err);
      ShowFailure(message);
    }

    /** The failure state: the message, no rows and a count of 0. */
    method ShowFailure(message: string)
      modifies this
      ensures error == Some(message)
      ensures data == [] && totalCount == 0 && TotalPages() == 0
      ensures statusFilter == old(statusFilter) && workflowFilter == old(workflowFilter) && daysFilter == old(daysFilter)
      ensures currentPage == old(currentPage) && prevStatus == old(prevStatus) && prevWorkflow == old(prevWorkflow) && prevDays == old(prevDays)
    {
      error := Some(message);
      data := [];
      totalCount := 0;
    }

    method FirstPage()
      modifies this
      ensures currentPage == 1
      ensures statusFilter == old(statusFilter) && workflowFilter == old(workflowFilter) && daysFilter == old(daysFilter)
      ensures prevStatus == old(prevStatus) && prevWorkflow == old(prevWorkflow) && prevDays == old(prevDays) && data == old(data) && totalCount == old(totalCount) && error == old(error)
    {
      currentPage := 1;
    }

    method PreviousPage()
      modifies this
      ensures currentPage == MaxInt(1, old(currentPage) - 1)
      ensures statusFilter == old(statusFilter) && workflowFilter == old(workflowFilter) && daysFilter == old(daysFilter)
      ensures prevStatus == old(prevStatus) && prevWorkflow == old(prevWorkflow) && prevDays == old(prevDays) && data == old(data) && totalCount == old(totalCount) && error == old(error)
    {
      currentPage := MaxInt(1, currentPage - 1);
    }

    method NextPage()
      modifies this
      ensures currentPage == MinInt(TotalPages(), old(currentPage) + 1)
      ensures statusFilter == old(statusFilter) && workflowFilter == old(workflowFilter) && daysFilter == old(daysFilter)
      ensures prevStatus == old(prevStatus) && prevWorkflow == old(prevWorkflow) && prevDays == old(prevDays) && data == old(data) && totalCount == old(totalCount) && error == old(error)
    {
      currentPage := MinInt(TotalPages(), currentPage + 1);
    }

    method LastPage()
      modifies this
      ensures currentPage == TotalPages()
      ensures statusFilter == old(statusFilter) && workflowFilter == old(workflowFilter) && daysFilter == old(daysFilter)
      ensures prevStatus == old(prevStatus) && prevWorkflow == old(prevWorkflow) && prevDays == old(prevDays) && data == old(data) && totalCount == old(totalCount) && error == old(error)
    {
      currentPage := TotalPages();
    }
  }

  /**
   * The rows the server returns for page p, the range [(p - 1) * 20,
   * (p - 1) * 20 + 19] of its ordered result, are the rows the
   * client-side table shows on its page p of the same list.
   */
  lemma ServerPageMatchesClientPage(all: seq<RecentExecution>, page: nat)
    requires page >= 1
    ensures SupabaseQueries.SelectRows(all, SupabaseQueries.Range((page - 1) * ItemsPerPage, (page - 1) * ItemsPerPage + ItemsPerPage - 1))
         == RecentExecutions.Page(all, page)
  {
  }

  /** The page buttons keep a page that is in range in range. */
  method ButtonsStayInRange(table: HistoryTable, button: nat)
    requires 1 <= table.currentPage <= table.TotalPages()
    modifies table
    ensures 1 <= table.currentPage <= table.TotalPages()
  {
    if button == 0 {
      table.FirstPage();
    } else if button == 1 {
      table.PreviousPage();
    } else if button == 2 {
      table.NextPage();
    } else {
      table.LastPage();
    }
  }

  /**
   * Changing a filter while on a later page fetches page 1 under the new
   * filter; moving between pages with the filters unchanged fetches the
   * page moved to.
   */
  method FilterChangeFetchesFirstPage(table: HistoryTable, status: string)
    requires table.Synced() && status != table.statusFilter
    modifies table
    ensures table.currentPage == 1
  {
    table.SetStatusFilter(status);
    var filters := table.RunEffect();
    assert filters.offset == Some(0);
  }

  method PageChangeKeepsFilters(table: HistoryTable)
    requires table.Synced() && 1 <= table.currentPage < table.TotalPages()
    modifies table
    ensures table.currentPage == old(table.currentPage) + 1
    ensures table.Synced()
  {
    table.NextPage();
    var filters := table.RunEffect();
    assert filters.offset == Some(old(table.currentPage) * ItemsPerPage);
  }
}
