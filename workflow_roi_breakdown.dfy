/**
 * The per-workflow ROI cards (components/WorkflowROIBreakdown.tsx): the
 * value, net ROI and hours each card shows, the ROI-type badge, the status
 * icon, and which optional sections a card displays.
 */
module WorkflowROIBreakdown {
  import opened Common
  import opened Types
  import opened Utils
  import WorkflowROIContribution

  // ----- the ROI-type badge (lines 55-63) -----

  datatype BadgeVariant = Default | Secondary | Outline

  datatype Badge = Badge(caption: string, variant: BadgeVariant)

  /** The badge of a known ROI type. */
  function KnownBadge(t: RoiType): Badge {
    match t
    case PerExecution => Badge("Per Execution", Default)
    case RecurringTask => Badge("Recurring Task", Secondary)
    case NewCapability => Badge("New Capability", Outline)
  }

  /**
   * The badge for the `roi_type` text: the fixed label and variant of a
   * known type, otherwise the raw text with the default variant.
   */
  function RoiTypeBadge(roiType: string): (b: Badge)
    ensures forall t: RoiType :: RoiTypeName(t) == roiType ==> b == KnownBadge(t)
    ensures (forall t: RoiType :: RoiTypeName(t) != roiType) ==> b == Badge(roiType, Default)
  {
    match ParseRoiType(roiType)
    case Some(t) => KnownBadge(t)
    case None => Badge(roiType, Default)
  }

  /** Two known ROI types never share a badge. */
  lemma KnownBadgesDistinct(t1: RoiType, t2: RoiType)
    requires RoiTypeBadge(RoiTypeName(t1)) == RoiTypeBadge(RoiTypeName(t2))
    ensures t1 == t2
  {
    assert RoiTypeBadge(RoiTypeName(t1)) == KnownBadge(t1);
    assert RoiTypeBadge(RoiTypeName(t2)) == KnownBadge(t2);
  }

  // ----- one card (lines 120-133, 141, 185-233) -----

  /** The icon beside the name: blue for a new capability, green otherwise. */
  datatype StatusIcon = BlueCheck | GreenCheck

  /** What a card shows for one workflow row. */
  datatype Card = Card(
    name: string,
    nameTruncated: bool,     // shown with a tooltip
    currency: string,
    icon: StatusIcon,
    daysActive: real,
    value: real,
    netRoi: real,
    netRoiPositive: bool,    // green rather than red
    hoursSaved: real,
    executions: real,
    showTimeSaved: bool,
    showExecutions: bool,
    showCostBreakdown: bool,
    totalCost: real,
    workflowCost: real,
    setupFee: real,
    showCostParts: bool,
    showWorkflowCost: bool,
    showSetupFee: bool,
    showDescription: bool)

  /**
   * The card's value: the labour cost saved when it is non-zero, else the
   * value created when that is non-zero, else 0.
   */
  function CardValue(w: WorkflowROICalculated): (v: real)
    ensures TruthyReal(w.laborCostSaved) ==> v == w.laborCostSaved.value
    ensures !TruthyReal(w.laborCostSaved) && TruthyReal(w.valueCreated) ==> v == w.valueCreated.value
    ensures !TruthyReal(w.laborCostSaved) && !TruthyReal(w.valueCreated) ==> v == 0.0
  {
    OrReal(w.laborCostSaved, OrReal(w.valueCreated, 0.0))
  }

  /**
   * Net ROI: the card's value less the implementation cost applied to this
   * workflow; the workflow-specific cost and the setup fee are displayed
   * but not subtracted again, and no tool cost is subtracted at all.
   */
  function NetRoi(w: WorkflowROICalculated): (roi: real)
    ensures roi == CardValue(w) - OrReal(w.implementationCostApplied, 0.0)
    ensures !TruthyReal(w.implementationCostApplied) ==> roi == CardValue(w)
  {
    CardValue(w) - OrReal(w.implementationCostApplied, 0.0)
  }

  /** Hours saved: the minutes over 60 when they are non-zero, else 0. */
  function HoursSaved(w: WorkflowROICalculated): (h: real)
    ensures h > 0.0 <==> TruthyReal(w.minutesSaved) && w.minutesSaved.value > 0.0
    ensures TruthyReal(w.minutesSaved) ==> h * 60.0 == w.minutesSaved.value
  {
    if TruthyReal(w.minutesSaved) then w.minutesSaved.value / 60.0 else 0.0
  }

  /** The card for one workflow row. */
  function ToCard(w: WorkflowROICalculated): (c: Card)
    ensures c.value == CardValue(w) && c.netRoi == NetRoi(w)
    ensures c.netRoiPositive <==> c.value >= c.totalCost
    ensures c.showCostParts ==> c.showCostBreakdown && (c.workflowCost > 0.0 || c.setupFee > 0.0)
    ensures c.showWorkflowCost <==> c.showCostParts && c.workflowCost > 0.0
    ensures c.showSetupFee <==> c.showCostParts && c.setupFee > 0.0
  {
    var name := WorkflowROIContribution.WorkflowName(w);
    var value := CardValue(w);
    var workflowCost := OrReal(w.workflowImplementationCost, 0.0);
    var setupFee := OrReal(w.allocatedSetupFee, 0.0);
    var totalCost := OrReal(w.implementationCostApplied, 0.0);
    var netRoi := value - totalCost;
    var hours := HoursSaved(w);
    var executions := OrReal(w.successfulExecutions, 0.0);
    var breakdown := totalCost > 0.0;
    var parts := breakdown && (workflowCost > 0.0 || setupFee > 0.0);
    Card(name, |name| > 40, OrText(w.currencyCode, "GBP"),
         if w.roiType == "new_capability" then BlueCheck else GreenCheck,
         OrReal(w.daysSinceDeployment, 0.0),
         value, netRoi, netRoi >= 0.0, hours, executions,
         w.roiType != "new_capability" && hours > 0.0,
         executions > 0.0,
         breakdown, totalCost, workflowCost, setupFee,
         parts, parts && workflowCost > 0.0, parts && setupFee > 0.0,
         TruthyText(w.valueDescription))
  }

  /**
   * The card's heading: the workflow's display name, cut when longer than
   * 40 characters, the currency (GBP by default) and a blue check for a new
   * capability, a green one otherwise.
   */
  lemma CardHeading(w: WorkflowROICalculated)
    ensures ToCard(w).name == WorkflowROIContribution.WorkflowName(w)
    ensures ToCard(w).nameTruncated <==> |ToCard(w).name| > 40
    ensures ToCard(w).currency == OrText(w.currencyCode, "GBP")
    ensures ToCard(w).icon == BlueCheck <==> w.roiType == "new_capability"
  {
  }

  /**
   * Which parts of the card are shown: time saved only for a positive
   * figure on a workflow that is not a new capability, executions only
   * when there were some, the cost breakdown only for a positive applied
   * cost, the description only when there is one.
   */
  lemma CardSections(w: WorkflowROICalculated)
    ensures ToCard(w).showTimeSaved <==>
      w.roiType != "new_capability" && w.minutesSaved.Some? && w.minutesSaved.value > 0.0
    ensures ToCard(w).showExecutions <==> w.successfulExecutions.Some? && w.successfulExecutions.value > 0.0
    ensures ToCard(w).showCostBreakdown <==>
      w.implementationCostApplied.Some? && w.implementationCostApplied.value > 0.0
    ensures ToCard(w).showDescription <==> TruthyText(w.valueDescription)
  {
  }

  /**
   * Changing a workflow's tool-related cost columns (its own implementation
   * cost or its share of the setup fee) never changes the net ROI its card
   * shows: only the applied implementation cost is subtracted.
   */
  lemma NetRoiIgnoresCostParts(w: WorkflowROICalculated, workflowCost: Option<real>, setupFee: Option<real>)
    ensures NetRoi(w.(workflowImplementationCost := workflowCost, allocatedSetupFee := setupFee)) == NetRoi(w)
  {
  }

  /**
   * The card's value and the treemap's revenue value prefer the two columns
   * in opposite order: they agree exactly unless both are non-zero and
   * different.
   */
  lemma CardAndTreemapValues(w: WorkflowROICalculated)
    ensures CardValue(w) == WorkflowROIContribution.RawValue(w, WorkflowROIContribution.Revenue) <==>
      !(TruthyReal(w.laborCostSaved) && TruthyReal(w.valueCreated) && w.laborCostSaved.value != w.valueCreated.value)
  {
    WorkflowROIContribution.RevenueSource(w);
  }

  /** A card that shows time saved has a positive "Xh Ym" figure, never "0h". */
  lemma TimeSavedNeverZeroHours(w: WorkflowROICalculated)
    requires ToCard(w).showTimeSaved
    ensures FormatHours(OrReal(w.minutesSaved, 0.0)) != [Text("0h")]
  {
    var m := OrReal(w.minutesSaved, 0.0);
    assert m > 0.0;
    assert HoursAndMinutesShown([Text("0h")]) == (0, 0);
  }
}
