/**
 * The workflow ROI treemap (components/WorkflowROIContribution.tsx): the
 * per-workflow value in revenue or hours mode, the kept and sorted cells
 * with their colours, the minutes label, the cell text layout with name
 * truncation, and the placement of the hover tooltip.
 */
module WorkflowROIContribution {
  import opened Common
  import opened Types
  import opened Utils
  import opened DesignTokens

  /** The two views the toggle switches between. */
  datatype ViewMode = Revenue | Hours

  /** One treemap cell before layout. */
  datatype TreemapItem = TreemapItem(
    name: string,
    value: real,
    color: string,
    workflowId: string,
    rawValue: real,
    minutesSaved: Option<real>)

  function Value(item: TreemapItem): real { item.value }

  // ----- treemap data (lines 96-122, 143) -----

  /** The name shown for a workflow: its name, else its id, else "Unknown". */
  function WorkflowName(w: WorkflowROICalculated): (name: string)
    ensures name != ""
    ensures TruthyText(w.workflowName) ==> name == w.workflowName.value
    ensures !TruthyText(w.workflowName) && w.workflowId != "" ==> name == w.workflowId
  {
    OrText(w.workflowName, if w.workflowId != "" then w.workflowId else "Unknown")
  }

  /**
   * The value before clamping: in revenue mode the value created, else the
   * labour cost saved (a 0 counts as missing), else 0; in hours mode the
   * minutes saved divided by 60.
   */
  function RawValue(w: WorkflowROICalculated, mode: ViewMode): real {
    match mode
    case Revenue => OrReal(w.valueCreated, OrReal(w.laborCostSaved, 0.0))
    case Hours => OrReal(w.minutesSaved, 0.0) / 60.0
  }

  /** Revenue mode takes the value created whenever it is non-zero, and never adds the two. */
  lemma RevenueSource(w: WorkflowROICalculated)
    ensures TruthyReal(w.valueCreated) ==> RawValue(w, Revenue) == w.valueCreated.value
    ensures !TruthyReal(w.valueCreated) && TruthyReal(w.laborCostSaved) ==> RawValue(w, Revenue) == w.laborCostSaved.value
    ensures !TruthyReal(w.valueCreated) && !TruthyReal(w.laborCostSaved) ==> RawValue(w, Revenue) == 0.0
  {
  }

  /** The workflow at position `index` as a cell: clamped at 0, coloured by its position in the input. */
  function ToItem(w: WorkflowROICalculated, index: nat, mode: ViewMode): (item: TreemapItem)
    ensures item.value >= 0.0
    ensures item.value > 0.0 <==> RawValue(w, mode) > 0.0
    ensures item.value > 0.0 ==> item.value == RawValue(w, mode)
    ensures item.color == TreemapRgb(index % |TreemapColors|)
    ensures item.name == WorkflowName(w) && item.workflowId == w.workflowId
  {
    var value := RawValue(w, mode);
    TreemapItem(WorkflowName(w), MaxReal(0.0, value), TreemapRgb(index % |TreemapColors|),
                w.workflowId, value, w.minutesSaved)
  }

  /** `data.map((workflow, index) => ...)`. */
  function Items(data: seq<WorkflowROICalculated>, mode: ViewMode): (items: seq<TreemapItem>)
    ensures |items| == |data|
    ensures forall i :: 0 <= i < |data| ==> items[i] == ToItem(data[i], i, mode)
  {
    seq(|data|, i requires 0 <= i < |data| => ToItem(data[i], i, mode))
  }

  predicate Positive(item: TreemapItem) { item.value > 0.0 }

  /** The cells drawn: positive values only, largest first. */
  function TreemapData(data: seq<WorkflowROICalculated>, mode: ViewMode): (cells: seq<TreemapItem>)
    ensures SortedDesc(cells, Value)
    ensures multiset(cells) == multiset(Filter(Items(data, mode), Positive))
    ensures forall c :: c in cells ==> c.value > 0.0
  {
    var kept := Filter(Items(data, mode), Positive);
    var cells := SortDesc(kept, Value);
    PositiveAfterSort(kept, cells);
    cells
  }

  /** Sorting keeps only the values it was given, so every sorted cell is positive. */
  lemma PositiveAfterSort(kept: seq<TreemapItem>, cells: seq<TreemapItem>)
    requires forall c :: c in kept ==> Positive(c)
    requires multiset(cells) == multiset(kept)
    ensures forall c :: c in cells ==> c.value > 0.0
  {
    forall c | c in cells ensures c.value > 0.0 {
      assert c in multiset(kept);
      assert c in kept;
    }
  }

  /**
   * A cell is drawn exactly when it is the cell of some workflow with a
   * positive value, coloured by that workflow's position before filtering
   * and sorting.
   */
  lemma TreemapDataContents(data: seq<WorkflowROICalculated>, mode: ViewMode, c: TreemapItem)
    ensures c in TreemapData(data, mode) <==>
      exists i :: 0 <= i < |data| && RawValue(data[i], mode) > 0.0 && c == ToItem(data[i], i, mode)
  {
    if c in TreemapData(data, mode) {
      var i := CellSource(data, mode, c);
    }
    if exists i :: 0 <= i < |data| && RawValue(data[i], mode) > 0.0 && c == ToItem(data[i], i, mode) {
      var i :| 0 <= i < |data| && RawValue(data[i], mode) > 0.0 && c == ToItem(data[i], i, mode);
      CellDrawn(data, mode, i);
    }
  }

  /** Every drawn cell comes from one workflow with a positive value. */
  lemma CellSource(data: seq<WorkflowROICalculated>, mode: ViewMode, c: TreemapItem) returns (i: nat)
    requires c in TreemapData(data, mode)
    ensures i < |data| && RawValue(data[i], mode) > 0.0 && c == ToItem(data[i], i, mode)
  {
    var items := Items(data, mode);
    assert c in items && c.value > 0.0 by {
      var kept := Filter(items, Positive);
      assert c in multiset(TreemapData(data, mode));
      assert c in multiset(kept);
      assert c in kept;
    }
    var k :| 0 <= k < |items| && items[k] == c;
    i := k;
  }

  /** Every workflow with a positive value is drawn. */
  lemma CellDrawn(data: seq<WorkflowROICalculated>, mode: ViewMode, i: nat)
    requires i < |data| && RawValue(data[i], mode) > 0.0
    ensures ToItem(data[i], i, mode) in TreemapData(data, mode)
  {
    var items := Items(data, mode);
    var c := items[i];
    assert Positive(c);
    assert c in Filter(items, Positive);
    assert c in multiset(TreemapData(data, mode));
  }

  /** The currency of the first row, else GBP. */
  function Currency(data: seq<WorkflowROICalculated>): (code: string)
    ensures code != ""
    ensures data != [] && TruthyText(data[0].currencyCode) ==> code == data[0].currencyCode.value
  {
    if data != [] then OrText(data[0].currencyCode, "GBP") else "GBP"
  }

  // ----- the minutes label (lines 179-192, 385-398) -----

  /**
   * The label in hours mode: the whole minutes as "0m", "Xm", "Xh" or
   * "Xh Ym", a part that is 0 left out.
   */
  function MinutesDisplay(minutesSaved: Option<real>): (r: Rendered)
    ensures var m := OrReal(minutesSaved, 0.0).Floor;
            m == 0 ==> r == [Text("0m")]
    ensures var m := OrReal(minutesSaved, 0.0).Floor;
            m >= 1 ==>
              var (h, mins) := HoursAndMinutesShown(r);
              0 <= mins < 60 && h * 60 + mins == m
  {
    var minutes := OrReal(minutesSaved, 0.0).Floor;
    if minutes == 0 then [Text("0m")]
    else if minutes < 60 then [Int(minutes), Text("m")]
    else
      var hours := minutes / 60;
      var mins := minutes % 60;
      if mins == 0 then [Int(hours), Text("h")]
      else [Int(hours), Text("h "), Int(mins), Text("m")]
  }

  /** From one minute up, the label is what `formatHours` prints for the same minutes. */
  lemma MinutesDisplayAgreesWithFormatHours(m: real)
    requires m >= 1.0
    ensures MinutesDisplay(Some(m)) == FormatHours(m)
  {
    var k := m.Floor;
    var q, r := k / 60, k % 60;
    assert k == 60 * q + r;
    assert (m / 60.0).Floor == q by {
      assert q as real <= m / 60.0 < (q + 1) as real;
    }
    assert Trunc(m / 60.0) == q;
    assert JsRem(m, 60.0).Floor == r by {
      assert JsRem(m, 60.0) == m - 60.0 * q as real;
      assert r as real <= m - 60.0 * q as real < (r + 1) as real;
    }
  }

  // ----- cell text layout (lines 153-160, 195-209, 240-281) -----

  /** How a cell is drawn. */
  datatype CellLayout =
    | Nothing     // too small, or the root node
    | RectOnly    // the rectangle without text
    | OneLine     // "name (value)" on one line
    | TwoLines    // the (possibly truncated) name above "(value)"

  /**
   * The estimated width of "name (value)": 9 px per name character and 8
   * px per character of " (", the value and ")".
   */
  function FullTextWidth(nameLength: nat, valueLength: nat): nat {
    nameLength * 9 + (valueLength + 3) * 8
  }

  /**
   * How a cell is drawn: nothing for a cell under a pixel or the root, the
   * bare rectangle when it is not over 60 × 30 px, else one line exactly
   * when the estimated text fits in the width less 20 px and the cell is
   * over 120 px wide, else two lines.
   */
  function Layout(width: real, height: real, depth: nat, nameLength: nat, valueLength: nat): (layout: CellLayout)
    ensures layout == Nothing <==> width < 1.0 || height < 1.0 || depth == 0
    ensures layout == OneLine || layout == TwoLines <==>
      layout != Nothing && width > 60.0 && height > 30.0
    ensures layout != Nothing && width > 60.0 && height > 30.0 ==>
      (layout == OneLine <==> width > 120.0 && FullTextWidth(nameLength, valueLength) as real <= width - 20.0)
  {
    if width < 1.0 || height < 1.0 || depth == 0 then Nothing
    else if !(width > 60.0 && height > 30.0) then RectOnly
    else if FullTextWidth(nameLength, valueLength) as real <= width - 20.0 && width > 120.0 then OneLine
    else TwoLines
  }

  /** A cell is skipped exactly when it is under a pixel in either direction or is the root. */
  lemma SmallCellsSkipped(width: real, height: real, depth: nat, nameLength: nat, valueLength: nat)
    ensures Layout(width, height, depth, nameLength, valueLength) == Nothing <==>
      width < 1.0 || height < 1.0 || depth == 0
  {
  }

  /**
   * A drawn cell over 60 × 30 px always carries a label, on one line when
   * the full text fits a cell over 120 px wide and on two lines otherwise.
   */
  lemma LabelShownInLargeCells(width: real, height: real, depth: nat, nameLength: nat, valueLength: nat)
    requires width > 60.0 && height > 30.0 && depth != 0
    ensures var layout := Layout(width, height, depth, nameLength, valueLength);
      (layout == OneLine || layout == TwoLines) &&
      (layout == OneLine <==> width > 120.0 && FullTextWidth(nameLength, valueLength) as real <= width - 20.0)
  {
  }

  /** `Math.floor((width - 20) / 9)`: how many name characters the cell holds. */
  function MaxChars(width: real): int {
    ((width - 20.0) / 9.0).Floor
  }

  /**
   * The name on the first of two lines: cut to `maxChars - 3` characters
   * plus "..." when it is longer than `maxChars` (a negative cut keeps
   * nothing, as `substring` does).
   */
  function TruncateName(name: string, width: real): (shown: string)
    ensures var maxChars := MaxChars(width);
            !(maxChars > 0 && |name| > maxChars) ==> shown == name
    ensures var maxChars := MaxChars(width);
            maxChars >= 3 && |name| > maxChars ==>
              |shown| == maxChars && shown == name[..maxChars - 3] + "..."
  {
    var maxChars := MaxChars(width);
    if maxChars > 0 && |name| > maxChars then
      name[..if maxChars - 3 > 0 then maxChars - 3 else 0] + "..."
    else name
  }

  /** A cell wide enough for a label (over 60 px) never shows a name longer than it holds. */
  lemma TruncatedNameFits(name: string, width: real)
    requires width > 60.0
    ensures |TruncateName(name, width)| <= MaxChars(width) || TruncateName(name, width) == name
  {
    assert MaxChars(width) >= 4 by {
      assert (width - 20.0) / 9.0 > 4.0;
    }
  }

  /** When the full text fits on one line the name also fits untruncated. */
  lemma OneLineNeedsNoTruncation(name: string, valueLength: nat, width: real, height: real, depth: nat)
    requires Layout(width, height, depth, |name|, valueLength) == OneLine
    ensures TruncateName(name, width) == name
  {
    var maxChars := MaxChars(width);
    assert |name| as real * 9.0 <= width - 20.0;
    assert |name| as real <= (width - 20.0) / 9.0;
    assert |name| <= maxChars;
  }

  // ----- the tooltip (lines 374-414) -----

  /** The tooltip's estimated width: 7 px per character plus 72, kept within [200, 500]. */
  function TooltipWidth(contentLength: nat): (w: int)
    ensures 200 <= w <= 500
    ensures 200 <= contentLength * 7 + 72 <= 500 ==> w == contentLength * 7 + 72
  {
    MinInt(500, MaxInt(200, contentLength * 7 + 72))
  }

  /** Where the tooltip is drawn, relative to the container. */
  datatype Placement = Placement(left: real, top: real)

  /**
   * Left of the cursor by 20 px, kept 10 px inside the container's left
   * edge and (with a known width) its right edge; 40 px above the cursor,
   * kept within [10, 350].
   */
  function TooltipPlacement(contentLength: nat, mouseX: real, mouseY: real, containerWidth: real): (p: Placement)
    ensures p.left >= 10.0
    ensures 10.0 <= p.top <= 350.0
    ensures var w := TooltipWidth(contentLength) as real;
            containerWidth > 0.0 && containerWidth - w - 10.0 >= 10.0 ==> p.left + w + 10.0 <= containerWidth
    ensures var w := TooltipWidth(contentLength) as real;
            p.left > 10.0 ==> p.left <= mouseX - w - 20.0
    ensures 10.0 <= mouseY - 40.0 <= 350.0 ==> p.top == mouseY - 40.0
  {
    var w := TooltipWidth(contentLength) as real;
    var tooltipLeft := mouseX - w - 20.0;
    var maxLeft := if containerWidth > 0.0 then containerWidth - w - 10.0 else mouseX - w - 20.0;
    var finalLeft := MaxReal(10.0, MinReal(tooltipLeft, maxLeft));
    var top := MaxReal(10.0, MinReal(mouseY - 40.0, 350.0));
    Placement(finalLeft, top)
  }

  /** The minutes the tooltip shows: those of the first drawn cell with the hovered name (`find`). */
  function HoveredMinutes(cells: seq<TreemapItem>, name: string): (minutes: Option<real>)
    ensures forall i ::
      (0 <= i < |cells| && cells[i].name == name && forall j :: 0 <= j < i ==> cells[j].name != name)
      ==> minutes == cells[i].minutesSaved
    ensures (forall i :: 0 <= i < |cells| ==> cells[i].name != name) ==> minutes.None?
  {
    if cells == [] then None
    else if cells[0].name == name then cells[0].minutesSaved
    else
      var rest := HoveredMinutes(cells[1..], name);
      assert forall i :: 1 <= i < |cells| ==> cells[i] == cells[1..][i - 1];
      rest
  }
}
