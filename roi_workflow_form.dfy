/**
 * The per-workflow ROI configuration form
 * (components/admin/ROIWorkflowForm.tsx): its initial state from an
 * existing configuration, and the record `handleSubmit` builds from it.
 */
module ROIWorkflowForm {
  import opened Common
  import opened Types

  /**
   * A numeric input's text: empty, or a number. `parseFloat` of a number's
   * text is the number and `parseInt` truncates it; `parseFloat('')` is
   * NaN, which `|| d` replaces by `d`.
   */
  datatype Entry = Blank | Num(x: real)

  function ParseFloatOr(e: Entry, d: real): (r: real)
    ensures e.Num? && e.x != 0.0 ==> r == e.x
    ensures e.Blank? || e.x == 0.0 ==> r == d
  {
    if e.Num? && e.x != 0.0 then e.x else d
  }

  function ParseIntOr(e: Entry, d: real): (r: real)
    ensures e.Num? && Trunc(e.x) != 0 ==> r == Trunc(e.x) as real
    ensures e.Blank? || Trunc(e.x) == 0 ==> r == d
  {
    if e.Num? && Trunc(e.x) != 0 then Trunc(e.x) as real else d
  }

  /** `n?.toString() || fallback` for a stored number: a number's text is never empty. */
  function EntryOf(n: Option<real>, fallback: Entry): Entry {
    if n.Some? then Num(n.value) else fallback
  }

  /** The form's inputs, as text (numbers as `Entry`). */
  datatype FormState = FormState(
    roiType: string,
    deploymentDate: string,
    implementationCost: Entry,
    implementationDate: string,
    notes: string,
    manualMinutesSaved: Entry,
    hourlyRate: Entry,
    frequency: string,
    occurrencesPerFrequency: Entry,
    workDaysPerWeek: Entry,
    valuePerExecution: Entry,
    newCapabilityFrequency: string,
    valuePerFrequency: Entry,
    clientsPerReport: Entry,
    reactivationRatePercent: Entry,
    valuePerClient: Entry,
    valueDescription: string)

  /**
   * The initial inputs (lines 38-110): each from the existing configuration
   * when it has the value, otherwise per_execution, empty text, and the
   * defaults 0 for the implementation cost, 1 occurrence and 5 work days.
   */
  function InitialForm(existing: Option<WorkflowROIConfig>): (f: FormState)
    ensures existing.None? ==>
      f.roiType == "per_execution" && f.implementationCost == Num(0.0) &&
      f.occurrencesPerFrequency == Num(1.0) && f.workDaysPerWeek == Num(5.0) &&
      f.manualMinutesSaved == Blank && f.hourlyRate == Blank && f.valuePerExecution == Blank &&
      f.valuePerFrequency == Blank && f.clientsPerReport == Blank && f.reactivationRatePercent == Blank &&
      f.valuePerClient == Blank && f.frequency == "" && f.newCapabilityFrequency == "" &&
      f.deploymentDate == "" && f.implementationDate == "" && f.notes == "" && f.valueDescription == ""
    ensures existing.Some? ==> var c := existing.value;
      f.roiType == OrText(Some(c.roiType), "per_execution") &&
      f.frequency == OrText(c.frequency, "") && f.newCapabilityFrequency == f.frequency &&
      f.deploymentDate == OrText(c.deploymentDate, "") && f.implementationDate == OrText(c.implementationDate, "") &&
      f.notes == OrText(c.notes, "") && f.valueDescription == OrText(c.valueDescription, "")
    ensures existing.Some? ==> var c := existing.value;
      f.implementationCost == (if c.implementationCost.Some? then Num(c.implementationCost.value) else Num(0.0)) &&
      f.occurrencesPerFrequency == (if c.occurrencesPerFrequency.Some? then Num(c.occurrencesPerFrequency.value) else Num(1.0)) &&
      f.workDaysPerWeek == (if c.workDaysPerWeek.Some? then Num(c.workDaysPerWeek.value) else Num(5.0))
    ensures existing.Some? ==> var c := existing.value;
      f.manualMinutesSaved == (if c.manualMinutesSaved.Some? then Num(c.manualMinutesSaved.value) else Blank) &&
      f.hourlyRate == (if c.hourlyRate.Some? then Num(c.hourlyRate.value) else Blank) &&
      f.valuePerExecution == (if c.valuePerExecution.Some? then Num(c.valuePerExecution.value) else Blank) &&
      f.valuePerFrequency == (if c.valuePerFrequency.Some? then Num(c.valuePerFrequency.value) else Blank)
    ensures existing.Some? ==> var c := existing.value;
      f.clientsPerReport == (if c.clientsPerReport.Some? then Num(c.clientsPerReport.value) else Blank) &&
      f.reactivationRatePercent == (if c.reactivationRatePercent.Some? then Num(c.reactivationRatePercent.value) else Blank) &&
      f.valuePerClient == (if c.valuePerClient.Some? then Num(c.valuePerClient.value) else Blank)
  {
    match existing
    case None =>
      FormState("per_execution", "", Num(0.0), "", "", Blank, Blank, "", Num(1.0), Num(5.0),
                Blank, "", Blank, Blank, Blank, Blank, "")
    case Some(c) =>
      var frequency := OrText(c.frequency, "");
      FormState(
        OrText(Some(c.roiType), "per_execution"),
        OrText(c.deploymentDate, ""),
        EntryOf(c.implementationCost, Num(0.0)),
        OrText(c.implementationDate, ""),
        OrText(c.notes, ""),
        EntryOf(c.manualMinutesSaved, Blank),
        EntryOf(c.hourlyRate, Blank),
        frequency,
        EntryOf(c.occurrencesPerFrequency, Num(1.0)),
        EntryOf(c.workDaysPerWeek, Num(5.0)),
        EntryOf(c.valuePerExecution, Blank),
        frequency,
        EntryOf(c.valuePerFrequency, Blank),
        EntryOf(c.clientsPerReport, Blank),
        EntryOf(c.reactivationRatePercent, Blank),
        EntryOf(c.valuePerClient, Blank),
        OrText(c.valueDescription, ""))
  }

  /**
   * The record sent on submit. For the deployment date, the implementation
   * date and the notes, `None` is an explicit null. For the numeric fields
   * and the frequency, `None` is a key the record does not carry (an update
   * then leaves the stored value as it was). The value description can be
   * either: `Undefined` for a missing key, `Null` for an explicit null.
   */
  datatype Payload = Payload(
    workflowId: string,
    clientId: string,
    roiType: string,
    deploymentDate: Option<string>,
    currencyCode: string,
    implementationCost: real,
    implementationDate: Option<string>,
    notes: Option<string>,
    manualMinutesSaved: Option<real>,
    hourlyRate: Option<real>,
    frequency: Option<string>,
    occurrencesPerFrequency: Option<real>,
    workDaysPerWeek: Option<real>,
    valuePerFrequency: Option<real>,
    clientsPerReport: Option<real>,
    reactivationRatePercent: Option<real>,
    valuePerClient: Option<real>,
    valuePerExecution: Option<real>,
    valueDescription: Maybe<string>)

  /** `s || null`. */
  function NullIfEmpty(s: string): (r: Option<string>)
    ensures r.None? <==> s == ""
    ensures r.Some? ==> r.value == s
  {
    if s == "" then None else Some(s)
  }

  /** No key of the per-execution or recurring groups. */
  predicate NoLabourFields(p: Payload) {
    p.manualMinutesSaved.None? && p.hourlyRate.None? && p.occurrencesPerFrequency.None? && p.workDaysPerWeek.None?
  }

  /** No key of the new-capability groups other than the frequency. */
  predicate NoValueFields(p: Payload) {
    p.valuePerFrequency.None? && p.clientsPerReport.None? && p.reactivationRatePercent.None? &&
    p.valuePerClient.None? && p.valuePerExecution.None? && p.valueDescription.Undefined?
  }

  /**
   * `handleSubmit`'s record (lines 118-153): the common keys, then the keys
   * of the chosen ROI type, assigned one after another.
   */
  method BuildConfig(form: FormState, workflowId: string, clientId: string, clientCurrency: string) returns (p: Payload)
    ensures p.workflowId == workflowId && p.clientId == clientId && p.roiType == form.roiType
    ensures p.deploymentDate == NullIfEmpty(form.deploymentDate) && p.implementationDate == NullIfEmpty(form.implementationDate)
    ensures p.notes == NullIfEmpty(form.notes) && p.currencyCode == clientCurrency
    ensures p.implementationCost == ParseFloatOr(form.implementationCost, 0.0)
    ensures form.roiType == "per_execution" ==>
      p.manualMinutesSaved == Some(ParseIntOr(form.manualMinutesSaved, 0.0)) &&
      p.hourlyRate == Some(ParseFloatOr(form.hourlyRate, 0.0)) &&
      p.frequency.None? && p.occurrencesPerFrequency.None? && p.workDaysPerWeek.None? && NoValueFields(p)
    ensures form.roiType == "recurring_task" ==>
      p.frequency == Some(form.frequency) &&
      p.occurrencesPerFrequency == Some(ParseIntOr(form.occurrencesPerFrequency, 1.0)) &&
      p.manualMinutesSaved == Some(ParseIntOr(form.manualMinutesSaved, 0.0)) &&
      p.hourlyRate == Some(ParseFloatOr(form.hourlyRate, 0.0)) &&
      p.workDaysPerWeek == Some(ParseIntOr(form.workDaysPerWeek, 5.0)) && NoValueFields(p)
    ensures form.roiType == "new_capability" ==>
      NoLabourFields(p) && p.valueDescription == (if form.valueDescription == "" then Null else Defined(form.valueDescription))
    ensures form.roiType == "new_capability" && form.newCapabilityFrequency != "" && form.valuePerFrequency.Num? ==>
      p.frequency == Some(form.newCapabilityFrequency) && p.valuePerFrequency == Some(form.valuePerFrequency.x) &&
      p.clientsPerReport.None? && p.reactivationRatePercent.None? && p.valuePerClient.None? && p.valuePerExecution.None?
    ensures form.roiType == "new_capability" && !(form.newCapabilityFrequency != "" && form.valuePerFrequency.Num?) &&
            form.clientsPerReport.Num? && form.reactivationRatePercent.Num? && form.valuePerClient.Num? ==>
      p.frequency.None? && p.valuePerFrequency.None? && p.valuePerExecution.None? &&
      p.clientsPerReport == Some(Trunc(form.clientsPerReport.x) as real) &&
      p.reactivationRatePercent == Some(form.reactivationRatePercent.x) && p.valuePerClient == Some(form.valuePerClient.x)
    ensures form.roiType == "new_capability" && !(form.newCapabilityFrequency != "" && form.valuePerFrequency.Num?) &&
            !(form.clientsPerReport.Num? && form.reactivationRatePercent.Num? && form.valuePerClient.Num?) ==>
      p.frequency.None? && p.valuePerFrequency.None? && p.clientsPerReport.None? &&
      p.reactivationRatePercent.None? && p.valuePerClient.None? &&
      p.valuePerExecution == (if form.valuePerExecution.Num? then Some(form.valuePerExecution.x) else None)
    ensures form.roiType !in {"per_execution", "recurring_task", "new_capability"} ==>
      NoLabourFields(p) && NoValueFields(p) && p.frequency.None?
  {
    p := Payload(workflowId, clientId, form.roiType, NullIfEmpty(form.deploymentDate), clientCurrency,
                 ParseFloatOr(form.implementationCost, 0.0), NullIfEmpty(form.implementationDate), NullIfEmpty(form.notes),
                 None, None, None, None, None, None, None, None, None, None, Undefined);
    if form.roiType == "per_execution" {
      p := p.(manualMinutesSaved := Some(ParseIntOr(form.manualMinutesSaved, 0.0)));
      p := p.(hourlyRate := Some(ParseFloatOr(form.hourlyRate, 0.0)));
    } else if form.roiType == "recurring_task" {
      p := p.(frequency := Some(form.frequency));
      p := p.(occurrencesPerFrequency := Some(ParseIntOr(form.occurrencesPerFrequency, 1.0)));
      p := p.(manualMinutesSaved := Some(ParseIntOr(form.manualMinutesSaved, 0.0)));
      p := p.(hourlyRate := Some(ParseFloatOr(form.hourlyRate, 0.0)));
      p := p.(workDaysPerWeek := Some(ParseIntOr(form.workDaysPerWeek, 5.0)));
    } else if form.roiType == "new_capability" {
      if form.newCapabilityFrequency != "" && form.valuePerFrequency.Num? {
        p := p.(frequency := Some(form.newCapabilityFrequency));
        p := p.(valuePerFrequency := Some(form.valuePerFrequency.x));
      } else if form.clientsPerReport.Num? && form.reactivationRatePercent.Num? && form.valuePerClient.Num? {
        p := p.(clientsPerReport := Some(Trunc(form.clientsPerReport.x) as real));
        p := p.(reactivationRatePercent := Some(form.reactivationRatePercent.x));
        p := p.(valuePerClient := Some(form.valuePerClient.x));
      } else if form.valuePerExecution.Num? {
        p := p.(valuePerExecution := Some(form.valuePerExecution.x));
      }
      p := p.(valueDescription := if form.valueDescription == "" then Null else Defined(form.valueDescription));
    }
  }

  /** Whether the submit updates the existing configuration or creates one (lines 155-159). */
  datatype SubmitAction = Create | Update(id: string)

  function ChooseAction(existing: Option<WorkflowROIConfig>): (a: SubmitAction)
    ensures a.Update? <==> existing.Some? && TruthyText(existing.value.id)
    ensures a.Update? ==> a.id == existing.value.id.value
  {
    if existing.Some? && TruthyText(existing.value.id) then Update(existing.value.id.value) else Create
  }

  /** A whole-number value that is not 0. */
  predicate WholeNonZero(v: Option<real>) {
    v.Some? && v.value != 0.0 && Trunc(v.value) as real == v.value
  }

  /**
   * Opening a stored per-execution configuration and submitting it
   * unchanged writes back its minutes and rate when they are non-zero (the
   * minutes as a whole number) and its implementation cost.
   */
  method ResubmitPerExecution(c: WorkflowROIConfig, clientCurrency: string) returns (p: Payload)
    requires c.roiType == "per_execution"
    ensures WholeNonZero(c.manualMinutesSaved) ==> p.manualMinutesSaved == c.manualMinutesSaved
    ensures c.hourlyRate.Some? && c.hourlyRate.value != 0.0 ==> p.hourlyRate == c.hourlyRate
    ensures p.implementationCost == OrReal(c.implementationCost, 0.0)
    ensures p.roiType == "per_execution" && NoValueFields(p)
  {
    var form := InitialForm(Some(c));
    p := BuildConfig(form, c.workflowId, c.clientId, clientCurrency);
  }
}
