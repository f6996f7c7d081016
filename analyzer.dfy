/** The report builders of MainWindow.xaml.cs. The list box they write to is
    a `Report` object whose `lines` only grow; each builder is a method proved
    to append exactly the lines a specification function of the document
    describes, and the lemmas state what those lines are. */
module Analyzer {
  import opened Wrappers
  import opened Faults
  import opened Text
  import opened Xml
  import opened Address
  import opened Spreadsheet
  import opened Resolve
  import opened ClassicChart
  import ExtendedChart
  import opened Pivot

  // ----- DetectFormulas -----

  const FORMULAS_ERROR := "Error detecting formulas: "

  predicate HasFormula(c: Cell) { c.formula.Some? }

  /** `Descendants<Cell>().Where(c => c.CellFormula != null)`. */
  function FormulaCells(cells: seq<Cell>): (r: seq<Cell>)
    ensures |r| <= |cells|
    ensures forall c :: c in r <==> c in cells && HasFormula(c)
    ensures (forall i :: 0 <= i < |cells| ==> HasFormula(cells[i])) ==> r == cells
  {
    if cells == [] then [] else (if HasFormula(cells[0]) then [cells[0]] else []) + FormulaCells(cells[1..])
  }

  /** The selection keeps the sheet's order and multiplicity: no cells give
      none, and one more cell adds itself at the end exactly when it has a
      formula. */
  lemma {:induction false} FormulaCellsSnoc(cells: seq<Cell>, c: Cell)
    ensures FormulaCells([]) == []
    ensures FormulaCells(cells + [c]) == FormulaCells(cells) + (if HasFormula(c) then [c] else [])
    decreases |cells|
  {
    var last := if HasFormula(c) then [c] else [];
    if cells == [] {
      assert cells + [c] == [c];
      assert FormulaCells([c]) == last + FormulaCells([]);
    } else {
      var head := if HasFormula(cells[0]) then [cells[0]] else [];
      assert (cells + [c])[0] == cells[0];
      assert (cells + [c])[1..] == cells[1..] + [c];
      FormulaCellsSnoc(cells[1..], c);
      AppendAssoc(head, FormulaCells(cells[1..]), last);
    }
  }

  function FormulaHeader(count: nat): string { "Found " + NatToString(count) + " cells with formulas:" }

  /** The three lines that introduce a formula cell whose value is `value`. */
  function CellLines(cell: Cell, value: string): seq<string>
  {
    ["- Cell " + cell.reference.GetOr("Unknown") + ":",
     "  Formula: " + cell.formula.GetOr("No Formula"),
     "  Calculated Value: " + value]
  }

  /** What one formula cell contributes: the value is looked up first, so a
      fault there writes nothing for the cell; then the three cell lines;
      then the style lines, only when the cell has a style index. */
  function FormulaBlock(cell: Cell, wb: Workbook): Emit
  {
    match GetCellValue(cell, wb)
    case Failure(f) => Emit([], Some(f))
    case Success(v) =>
      match cell.styleIndex
      case None => Emit(CellLines(cell, v), None)
      case Some(si) => Then(Emit(CellLines(cell, v), None), StyleLines(si, wb.styles))
  }

  /** The blocks of `cells` in order, up to and including the first fault. */
  function FormulaBlocks(cells: seq<Cell>, wb: Workbook): Emit
  {
    if cells == [] then Emit([], None)
    else Then(FormulaBlocks(cells[..|cells| - 1], wb), FormulaBlock(cells[|cells| - 1], wb))
  }

  /** What DetectFormulas appends for a worksheet with cells `cells`. */
  function FormulaReport(cells: seq<Cell>, wb: Workbook): seq<string>
  {
    var withFormulas := FormulaCells(cells);
    var blocks := FormulaBlocks(withFormulas, wb);
    [FormulaHeader(|withFormulas|)] + blocks.lines
    + (if blocks.fault.Some? then [FORMULAS_ERROR + Message(blocks.fault.value)] else [])
  }

  /** Once the blocks of a prefix have faulted, the later cells add nothing. */
  lemma {:induction false} FormulaBlocksFaultSticks(cells: seq<Cell>, i: nat, wb: Workbook)
    requires i <= |cells| && FormulaBlocks(cells[..i], wb).fault.Some?
    ensures FormulaBlocks(cells, wb) == FormulaBlocks(cells[..i], wb)
    decreases |cells| - i
  {
    if i < |cells| {
      var front := cells[..|cells| - 1];
      assert front[..i] == cells[..i];
      FormulaBlocksFaultSticks(front, i, wb);
    } else {
      assert cells[..i] == cells;
    }
  }

  /** A formula cell whose value resolves and which has no style index gets
      exactly its three cell lines. */
  lemma PlainFormulaBlock(cell: Cell, wb: Workbook)
    requires GetCellValue(cell, wb).Success? && cell.styleIndex.None?
    ensures FormulaBlock(cell, wb) == Emit(CellLines(cell, GetCellValue(cell, wb).value), None)
  {
  }

  /** A formula cell whose value resolves and whose style index selects a
      format gets its three cell lines and then one formatting line per id of
      that format, in the order number format, font, fill, borders. */
  lemma StyledFormulaBlock(cell: Cell, wb: Workbook)
    requires GetCellValue(cell, wb).Success? && cell.styleIndex.Some?
    requires wb.styles.Some? && wb.styles.value.cellFormats.Some?
    requires 0 <= ToInt32(cell.styleIndex.value) < |wb.styles.value.cellFormats.value|
    ensures var block := FormulaBlock(cell, wb);
            var formats := wb.styles.value.cellFormats.value;
            && block.lines[..3] == CellLines(cell, GetCellValue(cell, wb).value)
            && Follows(Emit(block.lines[3..], block.fault), PresentPrefixes(formats[ToInt32(cell.styleIndex.value)]))
  {
    var style := StyleLines(cell.styleIndex.value, wb.styles);
    StyleLinesShape(cell.styleIndex.value, wb.styles.value);
    var block := FormulaBlock(cell, wb);
    assert block.lines == CellLines(cell, GetCellValue(cell, wb).value) + style.lines;
    assert block.lines[3..] == style.lines;
  }

  /** When every formula cell resolves its value and none has a style index,
      the report is the count line and then three lines per formula cell, in
      document order. */
  lemma {:induction false} PlainFormulaBlocks(cells: seq<Cell>, wb: Workbook)
    requires forall i :: 0 <= i < |cells| ==> GetCellValue(cells[i], wb).Success? && cells[i].styleIndex.None?
    ensures var blocks := FormulaBlocks(cells, wb);
            && blocks.fault.None?
            && |blocks.lines| == 3 * |cells|
            && forall i :: 0 <= i < |cells| ==>
                 blocks.lines[3 * i..3 * i + 3] == CellLines(cells[i], GetCellValue(cells[i], wb).value)
  {
    if cells != [] {
      var n := |cells| - 1;
      var front := cells[..n];
      PlainFormulaBlocks(front, wb);
      PlainFormulaBlock(cells[n], wb);
      var prior := FormulaBlocks(front, wb).lines;
      var last := CellLines(cells[n], GetCellValue(cells[n], wb).value);
      var all := FormulaBlocks(cells, wb).lines;
      assert all == prior + last;
      forall i | 0 <= i < |cells|
        ensures all[3 * i..3 * i + 3] == CellLines(cells[i], GetCellValue(cells[i], wb).value)
      {
        if i < n {
          assert all[3 * i..3 * i + 3] == prior[3 * i..3 * i + 3];
          assert front[i] == cells[i];
        } else {
          assert all[3 * i..3 * i + 3] == last;
        }
      }
    }
  }

  /** The formula report opens with the number of cells that have a formula;
      with no value or style fault and no styled cell, it has three more
      lines per such cell. */
  lemma FormulaReportPlain(cells: seq<Cell>, wb: Workbook)
    requires forall c :: c in cells && HasFormula(c) ==> GetCellValue(c, wb).Success? && c.styleIndex.None?
    ensures var withFormulas := FormulaCells(cells);
            var report := FormulaReport(cells, wb);
            && report[0] == FormulaHeader(|withFormulas|)
            && |report| == 1 + 3 * |withFormulas|
            && forall i :: 0 <= i < |withFormulas| ==>
                 report[1 + 3 * i..4 + 3 * i] == CellLines(withFormulas[i], GetCellValue(withFormulas[i], wb).value)
  {
    var withFormulas := FormulaCells(cells);
    assert forall i :: 0 <= i < |withFormulas| ==> withFormulas[i] in withFormulas;
    PlainFormulaBlocks(withFormulas, wb);
    var blocks := FormulaBlocks(withFormulas, wb);
    assert FormulaReport(cells, wb) == [FormulaHeader(|withFormulas|)] + blocks.lines;
    TriplesAfterHeader(FormulaHeader(|withFormulas|), blocks.lines, |withFormulas|);
  }

  /** Putting a header in front shifts every three-line block by one. */
  lemma TriplesAfterHeader(h: string, lines: seq<string>, n: nat)
    requires |lines| == 3 * n
    ensures forall i :: 0 <= i < n ==> ([h] + lines)[1 + 3 * i..4 + 3 * i] == lines[3 * i..3 * i + 3]
  {
    forall i | 0 <= i < n
      ensures ([h] + lines)[1 + 3 * i..4 + 3 * i] == lines[3 * i..3 * i + 3]
    {
      ShiftedSlice(h, lines, 3 * i, 3 * i + 3);
    }
  }

  // ----- DetectCharts -----

  const NO_DRAWINGS_PART := "No DrawingsPart found in the worksheet."
  const NO_WORKSHEET_DRAWING := "No WorksheetDrawing found in the DrawingsPart."
  const NO_CHARTS := "No charts found in the worksheet."
  const CHARTS_ERROR := "Error detecting charts: "

  /** `worksheetDrawing.Elements<TwoCellAnchor>()`. */
  function Anchors(drawing: Element): seq<Element>
  {
    Filter(drawing.children, (c: Element) => Is(c, "twoCellAnchor", NS_XDR))
  }

  /** The anchor holds a classic chart reference `<c:chart>`. */
  predicate IsRegularAnchor(anchor: Element) { FirstDescendant(anchor, "chart", NS_C).Some? }

  /** The anchor holds a `<cx:chart>` element of the 2014 chartex namespace. */
  predicate IsExtendedAnchor(anchor: Element) { FirstDescendant(anchor, "chart", NS_CX).Some? }

  /** The eight detail lines of a classic chart numbered `n`. */
  function ChartDetails(anchor: Element, cs: ChartSpace, n: nat, position: string): seq<string>
  {
    DetailLines(n, ChartName(anchor), position, ChartTitle(cs), ChartType(cs), ChartAxes(cs),
                HasChartLegend(cs), RegularChartData(cs))
  }

  /** The eight lines DetectChartElementsForAnchor writes from the facts it read. */
  function DetailLines(n: nat, name: string, position: string, title: string, kind: string,
                       axes: string, legend: bool, source: string): seq<string>
  {
    ["Chart " + NatToString(n) + " Details:",
     "- Name: " + name,
     "- Position: " + position,
     "- Title: " + title,
     "- Type: " + kind,
     "- Axes: " + axes,
     "- Legend: " + (if legend then "Yes" else "No"),
     "- Data Source: " + source]
  }

  /** What DetectChartElementsForAnchor appends: the details, when the
      anchor's chart reference names a chart part of the drawing, else nothing. */
  function ClassicChartLines(anchor: Element, dp: DrawingsPart, n: nat, position: string): seq<string>
  {
    match ChartTarget(anchor, dp)
    case None => []
    case Some(cs) => ChartDetails(anchor, cs, n, position)
  }

  /** The chart part the anchor's first chart reference names, when its id
      is related and the related part is a chart part. */
  function ChartTarget(anchor: Element, dp: DrawingsPart): Option<ChartSpace>
  {
    match FirstDescendant(anchor, "chart", NS_C)
    case None => None
    case Some(reference) =>
      match Attr(reference, NS_R, "id")
      case None => None
      case Some(id) => if id in dp.parts && dp.parts[id].ChartPart? then Some(dp.parts[id].chartSpace) else None
  }

  /** The state of the anchor loop: the lines written, the fault that ended
      it (if any), and `chartCount`. */
  datatype Scan = Scan(lines: seq<string>, fault: Option<Fault>, count: nat)

  function RegularHeader(n: nat, position: string): string
  {
    "Regular Chart " + NatToString(n) + " located at " + position + "."
  }

  function ExtendedHeader(n: nat, position: string): string
  {
    "Extended Chart " + NatToString(n) + " located at " + position + "."
  }

  /** The regular-chart branch for one anchor. */
  function RegularStep(count: nat, anchor: Element, dp: DrawingsPart): (r: Scan)
    ensures r.fault.None? ==> r.count == count + 1
    ensures r.fault.Some? ==> r.lines == [] && r.count == count
  {
    match GetCellPositionFromTwoCellAnchor(anchor)
    case Failure(f) => Scan([], Some(f), count)
    case Success(position) =>
      var n := count + 1;
      Scan([RegularHeader(n, position)] + ClassicChartLines(anchor, dp, n, position), None, n)
  }

  /** The extended-chart branch for one anchor: an absent `r:id` attribute
      or an id the drawing does not relate throws out of the loop. */
  function ExtendedStep(count: nat, anchor: Element, dp: DrawingsPart, drawing: Element,
                        definedNames: Option<seq<DefinedName>>): (r: Scan)
    ensures r.fault.None? ==> r.count == count + 1
  {
    match GetCellPositionFromTwoCellAnchor(anchor)
    case Failure(f) => Scan([], Some(f), count)
    case Success(position) =>
      var n := count + 1;
      var head := [ExtendedHeader(n, position)];
      match FirstDescendant(anchor, "chart", NS_CX)
      case None => Scan(head, None, n)
      case Some(reference) =>
        match GetAttribute(reference, "id", NS_R)
        case Failure(f) => Scan(head, Some(f), n)
        case Success(id) =>
          if id in dp.parts then
            Scan(head + ExtendedChart.ExtendedChartLines(RootElement(dp.parts[id]), drawing, id, definedNames), None, n)
          else Scan(head, Some(ArgumentOutOfRange), n)
  }

  /** One turn of the anchor loop: the regular check, then the extended
      check; the same anchor can pass both and is then counted twice. */
  function AnchorStep(count: nat, anchor: Element, dp: DrawingsPart, drawing: Element,
                      definedNames: Option<seq<DefinedName>>): Scan
  {
    var regular := if IsRegularAnchor(anchor) then RegularStep(count, anchor, dp) else Scan([], None, count);
    if regular.fault.Some? || !IsExtendedAnchor(anchor) then regular
    else
      var extended := ExtendedStep(regular.count, anchor, dp, drawing, definedNames);
      Scan(regular.lines + extended.lines, extended.fault, extended.count)
  }

  /** The anchor loop over `anchors`, stopping at the first fault. */
  function ScanAnchors(anchors: seq<Element>, dp: DrawingsPart, drawing: Element,
                       definedNames: Option<seq<DefinedName>>): Scan
  {
    if anchors == [] then Scan([], None, 0)
    else
      var prior := ScanAnchors(anchors[..|anchors| - 1], dp, drawing, definedNames);
      if prior.fault.Some? then prior
      else
        var step := AnchorStep(prior.count, anchors[|anchors| - 1], dp, drawing, definedNames);
        Scan(prior.lines + step.lines, step.fault, step.count)
  }

  function ChartSummary(count: nat): string
  {
    if count == 0 then NO_CHARTS else "Found " + NatToString(count) + " charts in total."
  }

  /** What DetectCharts appends for a worksheet. */
  function ChartsReport(ws: Worksheet, definedNames: Option<seq<DefinedName>>): seq<string>
  {
    match ws.drawings
    case None => [NO_DRAWINGS_PART, NO_CHARTS]
    case Some(dp) =>
      match dp.worksheetDrawing
      case None => [NO_WORKSHEET_DRAWING, NO_CHARTS]
      case Some(drawing) =>
        var scan := ScanAnchors(Anchors(drawing), dp, drawing, definedNames);
        scan.lines + (if scan.fault.Some? then [CHARTS_ERROR + Message(scan.fault.value)] else [ChartSummary(scan.count)])
  }

  /** The number of chart kinds among `anchors`: one for a classic reference,
      one for a chartex reference, two for an anchor holding both. */
  function KindCount(anchors: seq<Element>): nat
  {
    if anchors == [] then 0
    else KindCount(anchors[..|anchors| - 1])
         + Indicator(IsRegularAnchor(anchors[|anchors| - 1])) + Indicator(IsExtendedAnchor(anchors[|anchors| - 1]))
  }

  /** A turn of the loop that does not fault counts each chart kind of its anchor. */
  lemma StepCount(count: nat, anchor: Element, dp: DrawingsPart, drawing: Element,
                  definedNames: Option<seq<DefinedName>>)
    requires AnchorStep(count, anchor, dp, drawing, definedNames).fault.None?
    ensures AnchorStep(count, anchor, dp, drawing, definedNames).count
            == count + Indicator(IsRegularAnchor(anchor)) + Indicator(IsExtendedAnchor(anchor))
  {
  }

  /** Without a fault, `chartCount` ends as the number of chart kinds over
      all anchors. */
  lemma {:induction false} ScanCount(anchors: seq<Element>, dp: DrawingsPart, drawing: Element,
                                     definedNames: Option<seq<DefinedName>>)
    requires ScanAnchors(anchors, dp, drawing, definedNames).fault.None?
    ensures ScanAnchors(anchors, dp, drawing, definedNames).count == KindCount(anchors)
  {
    if anchors != [] {
      var front := anchors[..|anchors| - 1];
      ScanCount(front, dp, drawing, definedNames);
      StepCount(ScanAnchors(front, dp, drawing, definedNames).count, anchors[|anchors| - 1], dp, drawing, definedNames);
    }
  }

  /** One more anchor extends an unfaulted scan by that anchor's step. */
  lemma ScanAnchorsSnoc(anchors: seq<Element>, i: nat, dp: DrawingsPart, drawing: Element,
                        definedNames: Option<seq<DefinedName>>)
    requires i < |anchors| && ScanAnchors(anchors[..i], dp, drawing, definedNames).fault.None?
    ensures var prior := ScanAnchors(anchors[..i], dp, drawing, definedNames);
            var step := AnchorStep(prior.count, anchors[i], dp, drawing, definedNames);
            ScanAnchors(anchors[..i + 1], dp, drawing, definedNames) == Scan(prior.lines + step.lines, step.fault, step.count)
  {
    assert anchors[..i + 1][..i] == anchors[..i];
  }

  /** Once a prefix of the anchors has faulted, the later anchors add nothing. */
  lemma {:induction false} ScanFaultSticks(anchors: seq<Element>, i: nat, dp: DrawingsPart, drawing: Element,
                                           definedNames: Option<seq<DefinedName>>)
    requires i <= |anchors| && ScanAnchors(anchors[..i], dp, drawing, definedNames).fault.Some?
    ensures ScanAnchors(anchors, dp, drawing, definedNames) == ScanAnchors(anchors[..i], dp, drawing, definedNames)
    decreases |anchors| - i
  {
    if i < |anchors| {
      var front := anchors[..|anchors| - 1];
      assert front[..i] == anchors[..i];
      ScanFaultSticks(front, i, dp, drawing, definedNames);
    } else {
      assert anchors[..i] == anchors;
    }
  }

  /** Without a drawings part, or without a drawing in it, the chart report
      is one notice line and "No charts found in the worksheet.". */
  lemma ChartsWithoutDrawing(ws: Worksheet, definedNames: Option<seq<DefinedName>>)
    requires ws.drawings.None? || ws.drawings.value.worksheetDrawing.None?
    ensures var report := ChartsReport(ws, definedNames);
            && |report| == 2 && report[1] == NO_CHARTS
            && report[0] == (if ws.drawings.None? then NO_DRAWINGS_PART else NO_WORKSHEET_DRAWING)
  {
  }

  /** When no anchor faults, the chart report ends with a summary of the
      number of chart kinds over all anchors; when one faults, it ends with
      the error line instead and gives no summary. */
  lemma ChartsSummaryCounts(ws: Worksheet, definedNames: Option<seq<DefinedName>>)
    requires ws.drawings.Some? && ws.drawings.value.worksheetDrawing.Some?
    ensures var dp := ws.drawings.value;
            var drawing := dp.worksheetDrawing.value;
            var scan := ScanAnchors(Anchors(drawing), dp, drawing, definedNames);
            var report := ChartsReport(ws, definedNames);
            && |report| == |scan.lines| + 1
            && (scan.fault.None? ==> report[|report| - 1] == ChartSummary(KindCount(Anchors(drawing))))
            && (scan.fault.Some? ==> report[|report| - 1] == CHARTS_ERROR + Message(scan.fault.value))
  {
    var dp := ws.drawings.value;
    var drawing := dp.worksheetDrawing.value;
    if ScanAnchors(Anchors(drawing), dp, drawing, definedNames).fault.None? {
      ScanCount(Anchors(drawing), dp, drawing, definedNames);
    }
  }

  /** An anchor whose chartex reference names a part of the drawing is
      reported with its header and the part's detail lines, and counted. */
  lemma ExtendedStepReads(count: nat, anchor: Element, dp: DrawingsPart, drawing: Element,
                          definedNames: Option<seq<DefinedName>>, position: string, id: string)
    requires IsExtendedAnchor(anchor)
    requires GetCellPositionFromTwoCellAnchor(anchor) == Success(position)
    requires GetAttribute(FirstDescendant(anchor, "chart", NS_CX).value, "id", NS_R) == Success(id)
    requires id in dp.parts
    ensures var head := ExtendedHeader(count + 1, position);
            var details := ExtendedChart.ExtendedChartLines(RootElement(dp.parts[id]), drawing, id, definedNames);
            ExtendedStep(count, anchor, dp, drawing, definedNames) == Scan([head] + details, None, count + 1)
  {
  }

  /** An anchor that holds both a classic and a chartex reference is reported
      twice: as chart `count + 1` with the classic details, then as chart
      `count + 2` with the chartex details, and the count grows by two. */
  lemma DualAnchorCountsTwice(count: nat, anchor: Element, dp: DrawingsPart, drawing: Element,
                              definedNames: Option<seq<DefinedName>>, position: string, id: string)
    requires IsRegularAnchor(anchor) && IsExtendedAnchor(anchor)
    requires GetCellPositionFromTwoCellAnchor(anchor) == Success(position)
    requires GetAttribute(FirstDescendant(anchor, "chart", NS_CX).value, "id", NS_R) == Success(id)
    requires id in dp.parts
    ensures AnchorStep(count, anchor, dp, drawing, definedNames)
            == Scan([RegularHeader(count + 1, position)] + ClassicChartLines(anchor, dp, count + 1, position)
                    + [ExtendedHeader(count + 2, position)]
                    + ExtendedChart.ExtendedChartLines(RootElement(dp.parts[id]), drawing, id, definedNames),
                    None, count + 2)
  {
    var classic := ClassicChartLines(anchor, dp, count + 1, position);
    ExtendedStepReads(count + 1, anchor, dp, drawing, definedNames, position, id);
    AppendAssoc([RegularHeader(count + 1, position)] + classic, [ExtendedHeader(count + 2, position)],
                ExtendedChart.ExtendedChartLines(RootElement(dp.parts[id]), drawing, id, definedNames));
  }

  // ----- DetectPivotTables -----

  const UNNAMED_PIVOT_TABLE := "Unnamed Pivot Table"

  function PivotTableName(t: PivotTableDefinition): string { t.name.GetOr(UNNAMED_PIVOT_TABLE) }
  function PivotTableLocation(t: PivotTableDefinition): string { t.location.GetOr(UNKNOWN_LOCATION) }

  /** The lines for one pivot table of worksheet `ws`. */
  function PivotTableLines(ws: Worksheet, t: PivotTableDefinition, wb: Workbook): seq<string>
  {
    ["Pivot Table '" + PivotTableName(t) + "' found at " + PivotTableLocation(t)]
    + PivotValueLines(ws, PivotTableLocation(t), wb)
  }

  /** The lines for the pivot tables `tables` of worksheet `ws`, in order. */
  function SheetPivotLines(ws: Worksheet, tables: seq<PivotTableDefinition>, wb: Workbook): seq<string>
  {
    if tables == [] then []
    else SheetPivotLines(ws, tables[..|tables| - 1], wb) + PivotTableLines(ws, tables[|tables| - 1], wb)
  }

  /** The lines for every pivot table of every worksheet part in `rels`. */
  function WorkbookPivotLines(rels: seq<WorksheetRel>, wb: Workbook): seq<string>
  {
    if rels == [] then []
    else
      var last := rels[|rels| - 1].part;
      WorkbookPivotLines(rels[..|rels| - 1], wb) + SheetPivotLines(last, last.pivotTables, wb)
  }

  /** The number of pivot tables over the worksheet parts in `rels`. */
  function PivotTableTotal(rels: seq<WorksheetRel>): nat
  {
    if rels == [] then 0 else PivotTableTotal(rels[..|rels| - 1]) + |rels[|rels| - 1].part.pivotTables|
  }

  function PivotTotalLine(total: nat): string { "Total Pivot Tables Found: " + NatToString(total) }

  /** What DetectPivotTables appends: the tables of all the workbook's
      worksheets, whichever sheet is being analysed, then the total. */
  function PivotReport(wb: Workbook): seq<string>
  {
    WorkbookPivotLines(wb.worksheets, wb) + [PivotTotalLine(PivotTableTotal(wb.worksheets))]
  }

  /** Each pivot table writes at least its header line and one more. */
  lemma {:induction false} SheetPivotLinesLength(ws: Worksheet, tables: seq<PivotTableDefinition>, wb: Workbook)
    ensures |SheetPivotLines(ws, tables, wb)| >= 2 * |tables|
  {
    if tables != [] {
      SheetPivotLinesLength(ws, tables[..|tables| - 1], wb);
    }
  }

  /** The pivot lines of several worksheet parts are those of each part in turn. */
  lemma {:induction false} WorkbookPivotLinesAppend(a: seq<WorksheetRel>, b: seq<WorksheetRel>, wb: Workbook)
    ensures WorkbookPivotLines(a + b, wb) == WorkbookPivotLines(a, wb) + WorkbookPivotLines(b, wb)
    ensures PivotTableTotal(a + b) == PivotTableTotal(a) + PivotTableTotal(b)
    decreases |b|
  {
    if b == [] {
      assert a + b == a;
    } else {
      var n := |b| - 1;
      assert (a + b)[..|a + b| - 1] == a + b[..n];
      assert (a + b)[|a + b| - 1] == b[n];
      WorkbookPivotLinesAppend(a, b[..n], wb);
      var last := SheetPivotLines(b[n].part, b[n].part.pivotTables, wb);
      assert WorkbookPivotLines(a + b, wb) == WorkbookPivotLines(a + b[..n], wb) + last;
      assert WorkbookPivotLines(b, wb) == WorkbookPivotLines(b[..n], wb) + last;
      AppendAssoc(WorkbookPivotLines(a, wb), WorkbookPivotLines(b[..n], wb), last);
    }
  }

  /** A pivot table without a location writes its header with "Unknown
      Location" and then only the invalid-range notice. */
  lemma UnlocatedPivotTable(ws: Worksheet, t: PivotTableDefinition, wb: Workbook)
    requires t.location.None?
    ensures PivotTableLines(ws, t, wb) ==
            ["Pivot Table '" + PivotTableName(t) + "' found at " + UNKNOWN_LOCATION,
             "Invalid range format: " + UNKNOWN_LOCATION]
  {
    UnknownLocationInvalid(ws, wb);
  }

  /** The pivot report always ends with the total over all worksheets and
      holds at least two lines per pivot table before it. */
  lemma PivotReportTotal(wb: Workbook)
    ensures var report := PivotReport(wb);
            && report[|report| - 1] == PivotTotalLine(PivotTableTotal(wb.worksheets))
            && |report| >= 1 + 2 * PivotTableTotal(wb.worksheets)
  {
    WorkbookPivotLinesLength(wb.worksheets, wb);
  }

  lemma {:induction false} WorkbookPivotLinesLength(rels: seq<WorksheetRel>, wb: Workbook)
    ensures |WorkbookPivotLines(rels, wb)| >= 2 * PivotTableTotal(rels)
  {
    if rels != [] {
      WorkbookPivotLinesLength(rels[..|rels| - 1], wb);
      var last := rels[|rels| - 1].part;
      SheetPivotLinesLength(last, last.pivotTables, wb);
    }
  }

  // ----- AnalyzeWorksheet -----

  const NO_WORKBOOK := "No workbook loaded."

  /** `Descendants<Sheet>().FirstOrDefault(s => s.Name == worksheetName)`. */
  function FindSheet(sheets: seq<SheetEntry>, name: string): (r: Option<SheetEntry>)
    ensures r.None? <==> forall i :: 0 <= i < |sheets| ==> sheets[i].name != Some(name)
    ensures r.Some? ==> r.value in sheets && r.value.name == Some(name)
    ensures r.Some? ==> exists i :: 0 <= i < |sheets| && sheets[i] == r.value
                                    && forall j :: 0 <= j < i ==> sheets[j].name != Some(name)
  {
    if sheets == [] then None
    else if sheets[0].name == Some(name) then Some(sheets[0])
    else
      var r := FindSheet(sheets[1..], name);
      assert forall j :: 0 <= j < |sheets| - 1 ==> sheets[1..][j] == sheets[j + 1];
      r
  }

  /** `GetPartById(id)` over the worksheet parts, which throws for an unknown id. */
  function FindWorksheetPart(rels: seq<WorksheetRel>, id: string): (r: Result<Worksheet, Fault>)
    ensures r.Failure? <==> forall i :: 0 <= i < |rels| ==> rels[i].id != id
    ensures r.Failure? ==> r.error == ArgumentOutOfRange
    ensures r.Success? ==> exists i :: 0 <= i < |rels| && rels[i].id == id && rels[i].part == r.value
  {
    if rels == [] then Failure(ArgumentOutOfRange)
    else if rels[0].id == id then Success(rels[0].part)
    else
      var r := FindWorksheetPart(rels[1..], id);
      assert forall i :: 0 <= i < |rels| - 1 ==> rels[1..][i] == rels[i + 1];
      r
  }

  function NotFoundLine(name: string): string { "Worksheet '" + name + "' not found." }

  /** The whole list box after AnalyzeWorksheet(name). */
  function AnalysisReport(wb: Option<Workbook>, name: string): seq<string>
  {
    match wb
    case None => [NO_WORKBOOK]
    case Some(w) =>
      match FindSheet(w.sheets, name)
      case None => [NotFoundLine(name)]
      case Some(sheet) =>
        match sheet.id
        case None => [NotFoundLine(name)]
        case Some(id) =>
          match FindWorksheetPart(w.worksheets, id)
          case Failure(f) => ["Error analyzing worksheet '" + name + "': " + Message(f)]
          case Success(ws) => FormulaReport(Cells(ws), w) + ChartsReport(ws, w.definedNames) + PivotReport(w)
  }

  /** A found worksheet is reported as the formula section, opened by its
      count line, then the chart section, then the pivot section over the
      whole workbook, closed by the pivot total. */
  lemma AnalysisSections(w: Workbook, name: string, id: string, ws: Worksheet)
    requires FindSheet(w.sheets, name).Some? && FindSheet(w.sheets, name).value.id == Some(id)
    requires FindWorksheetPart(w.worksheets, id) == Success(ws)
    ensures var report := AnalysisReport(Some(w), name);
            && report[0] == FormulaHeader(|FormulaCells(Cells(ws))|)
            && report[|report| - 1] == PivotTotalLine(PivotTableTotal(w.worksheets))
            && report == FormulaReport(Cells(ws), w) + ChartsReport(ws, w.definedNames) + PivotReport(w)
  {
    PivotReportTotal(w);
  }

  /** A name no sheet carries gives the single not-found line. */
  lemma AnalysisUnknownSheet(w: Workbook, name: string)
    requires forall i :: 0 <= i < |w.sheets| ==> w.sheets[i].name != Some(name)
    ensures AnalysisReport(Some(w), name) == [NotFoundLine(name)]
  {
  }

  // ----- the list box -----

  /** `ResultsListBox.Items`: the report lines in the order they were added. */
  class Report {
    var lines: seq<string>

    constructor ()
      ensures lines == []
    {
      lines := [];
    }

    method Add(line: string)
      modifies this
      ensures lines == old(lines) + [line]
    {
      lines := lines + [line];
    }

    /** The style lookup of DetectFormulas for one cell: appends the
        formatting lines and returns the fault that stopped it, if any. */
    method AddStyleLines(styleIndex: UInt32, styles: Option<Stylesheet>) returns (fault: Option<Fault>)
      modifies this
      ensures lines == old(lines) + StyleLines(styleIndex, styles).lines
      ensures fault == StyleLines(styleIndex, styles).fault
    {
      if styles.None? || styles.value.cellFormats.None? {
        return None;
      }
      var ss := styles.value;
      var cellFormat := ElementAt(ss.cellFormats.value, ToInt32(styleIndex));
      if cellFormat.Failure? {
        return Some(cellFormat.error);
      }
      var cf := cellFormat.value;
      ghost var e1, e2, e3, e4 := NumberFormatEmit(cf.numberFormatId, ss), FontEmit(cf.fontId, ss),
                                  FillEmit(cf.fillId, ss), BorderEmit(cf.borderId, ss);
      ThenAssoc(e1, e2, Then(e3, e4));
      ThenAssoc(Then(e1, e2), e3, e4);
      assert StyleLines(styleIndex, styles) == Then(Then(Then(e1, e2), e3), e4);
      ghost var start := lines;
      AddNumberFormatLine(cf.numberFormatId, ss);
      ghost var done := e1;
      fault := AddFontLine(cf.fontId, ss);
      AppendAssoc(start, done.lines, e2.lines);
      done := Then(done, e2);
      if fault.Some? {
        return;
      }
      fault := AddFillLine(cf.fillId, ss);
      AppendAssoc(start, done.lines, e3.lines);
      done := Then(done, e3);
      if fault.Some? {
        return;
      }
      fault := AddBorderLine(cf.borderId, ss);
      AppendAssoc(start, done.lines, e4.lines);
    }

    /** The number format line of a cell format, when it has a number format id. */
    method AddNumberFormatLine(id: Option<UInt32>, ss: Stylesheet)
      modifies this
      ensures lines == old(lines) + NumberFormatEmit(id, ss).lines
    {
      if id.Some? {
        Add(NUMBER_FORMAT_PREFIX + NumberFormatCode(id.value, ss));
      } else {
        assert lines == old(lines) + [];
      }
    }

    /** The font line of a cell format, when it has a font id. */
    method AddFontLine(id: Option<UInt32>, ss: Stylesheet) returns (fault: Option<Fault>)
      modifies this
      ensures lines == old(lines) + FontEmit(id, ss).lines && fault == FontEmit(id, ss).fault
    {
      assert lines == old(lines) + [];
      if id.Some? {
        var font := FontLine(id.value, ss);
        if font.Failure? {
          return Some(font.error);
        }
        Add(font.value);
      }
      return None;
    }

    /** The fill line of a cell format, when it has a fill id. */
    method AddFillLine(id: Option<UInt32>, ss: Stylesheet) returns (fault: Option<Fault>)
      modifies this
      ensures lines == old(lines) + FillEmit(id, ss).lines && fault == FillEmit(id, ss).fault
    {
      assert lines == old(lines) + [];
      if id.Some? {
        var fill := FillLine(id.value, ss);
        if fill.Failure? {
          return Some(fill.error);
        }
        Add(fill.value);
      }
      return None;
    }

    /** The borders line of a cell format, when it has a border id. */
    method AddBorderLine(id: Option<UInt32>, ss: Stylesheet) returns (fault: Option<Fault>)
      modifies this
      ensures lines == old(lines) + BorderEmit(id, ss).lines && fault == BorderEmit(id, ss).fault
    {
      assert lines == old(lines) + [];
      if id.Some? {
        var border := BorderLine(id.value, ss);
        if border.Failure? {
          return Some(border.error);
        }
        Add(border.value);
      }
      return None;
    }

    /** DetectFormulas. */
    method DetectFormulas(ws: Worksheet, wb: Workbook)
      modifies this
      ensures lines == old(lines) + FormulaReport(Cells(ws), wb)
    {
      var cellsWithFormulas := FormulaCells(Cells(ws));
      ghost var header := [FormulaHeader(|cellsWithFormulas|)];
      ghost var blocks := FormulaBlocks(cellsWithFormulas, wb);
      Add(FormulaHeader(|cellsWithFormulas|));
      var fault := DetectFormulaCells(cellsWithFormulas, wb);
      AppendAssoc(old(lines), header, blocks.lines);
      if fault.Some? {
        Add(FORMULAS_ERROR + Message(fault.value));
        AppendAssoc(old(lines), header + blocks.lines, [FORMULAS_ERROR + Message(fault.value)]);
      } else {
        assert lines == old(lines) + (header + blocks.lines) + [];
      }
    }

    /** The loop of DetectFormulas over the formula cells; a fault leaves it at once. */
    method DetectFormulaCells(cells: seq<Cell>, wb: Workbook) returns (fault: Option<Fault>)
      modifies this
      ensures lines == old(lines) + FormulaBlocks(cells, wb).lines
      ensures fault == FormulaBlocks(cells, wb).fault
    {
      ghost var blocks := Emit([], None);
      fault := None;
      var i := 0;
      while i < |cells| && fault.None?
        invariant 0 <= i <= |cells|
        invariant blocks == FormulaBlocks(cells[..i], wb)
        invariant blocks.fault == fault && lines == old(lines) + blocks.lines
      {
        var cell := cells[i];
        assert cells[..i + 1][..i] == cells[..i];
        ghost var block := FormulaBlock(cell, wb);
        fault := DetectFormulaCell(cell, wb);
        AppendAssoc(old(lines), blocks.lines, block.lines);
        blocks := Emit(blocks.lines + block.lines, block.fault);
        i := i + 1;
      }
      if fault.Some? {
        FormulaBlocksFaultSticks(cells, i, wb);
      } else {
        assert cells[..i] == cells;
      }
    }

    /** The body of DetectFormulas' loop for one formula cell. */
    method DetectFormulaCell(cell: Cell, wb: Workbook) returns (fault: Option<Fault>)
      modifies this
      ensures lines == old(lines) + FormulaBlock(cell, wb).lines
      ensures fault == FormulaBlock(cell, wb).fault
    {
      var calculatedValue := GetCellValue(cell, wb);
      if calculatedValue.Failure? {
        assert lines == old(lines) + [];
        return Some(calculatedValue.error);
      }
      ghost var head := CellLines(cell, calculatedValue.value);
      lines := lines + ["- Cell " + cell.reference.GetOr("Unknown") + ":",
                        "  Formula: " + cell.formula.GetOr("No Formula"),
                        "  Calculated Value: " + calculatedValue.value];
      if cell.styleIndex.Some? {
        ghost var style := StyleLines(cell.styleIndex.value, wb.styles);
        fault := AddStyleLines(cell.styleIndex.value, wb.styles);
        AppendAssoc(old(lines), head, style.lines);
      } else {
        fault := None;
      }
    }

    /** DetectChartElementsForAnchor. */
    method DetectChartElementsForAnchor(anchor: Element, dp: DrawingsPart, chartCount: nat, chartPosition: string)
      modifies this
      ensures lines == old(lines) + ClassicChartLines(anchor, dp, chartCount, chartPosition)
    {
      var chartReference := FirstDescendant(anchor, "chart", NS_C);
      if chartReference.Some? {
        var chartId := Attr(chartReference.value, NS_R, "id");
        if chartId.Some? && chartId.value in dp.parts && dp.parts[chartId.value].ChartPart? {
          var chartPart := dp.parts[chartId.value].chartSpace;
          assert ChartTarget(anchor, dp) == Some(chartPart);
          var chartName := ChartName(anchor);
          var chartTitle := ChartTitle(chartPart);
          var chartType := ChartType(chartPart);
          var chartAxes := GetChartAxes(chartPart);
          var hasLegend := HasChartLegend(chartPart);
          var chartData := RegularChartData(chartPart);
          lines := lines + DetailLines(chartCount, chartName, chartPosition, chartTitle, chartType,
                                       chartAxes, hasLegend, chartData);
        }
      }
    }

    /** DetectChartElementsForExtendedChart: each fact is read on its own,
        and one that throws leaves its default and an error line behind. */
    method DetectChartElementsForExtendedChart(chartExPart: Part, chartId: string, drawing: Element,
                                               definedNames: Option<seq<DefinedName>>)
      modifies this
      ensures lines == old(lines) + ExtendedChart.ExtendedChartLines(RootElement(chartExPart), drawing, chartId, definedNames)
    {
      var root := RootElement(chartExPart);
      ghost var start := lines;
      ghost var errors := ExtendedChart.ExtendedErrorLines(root);
      var title := ExtendedChart.NO_TITLE;
      var hasLegend := false;
      var readTitle := ExtendedChart.ExtendedChartTitle(root);
      if readTitle.Failure? {
        Add("Error detecting title: " + Message(readTitle.error));
      } else {
        title := readTitle.value;
        assert lines == start + [];
      }
      ghost var afterTitle := lines;
      var axesTitles := ExtendedChart.GetExtendedChartAxesTitles(root);
      var chartType := ExtendedChart.ExtendedChartType(root);
      var readLegend := ExtendedChart.ExtendedChartLegend(root);
      if readLegend.Failure? {
        Add("Error detecting legend: " + Message(readLegend.error));
      } else {
        hasLegend := readLegend.value;
        assert lines == afterTitle + [];
      }
      AppendAssoc(start, afterTitle[|start|..], lines[|afterTitle|..]);
      assert lines == start + errors;
      var chartName := ExtendedChart.ExtendedChartName(drawing, chartId);
      var chartData := ExtendedChart.ExtendedChartData(root, definedNames);
      ghost var details := ExtendedChart.ExtendedDetails(root, drawing, chartId, definedNames);
      assert hasLegend == (readLegend == Success(true));
      lines := lines + ["Chart Name: " + chartName,
                        "Chart Title: " + title,
                        "Chart Type: " + chartType,
                        "Legend Present: " + ExtendedChart.YesNo(hasLegend),
                        "Axes Titles: " + Join(axesTitles, ", "),
                        "Chart Data: " + Join(chartData, ", ")];
      AppendAssoc(start, errors, details);
    }

    /** The regular-chart check of DetectCharts' loop for one anchor. */
    method DetectRegularChart(anchor: Element, dp: DrawingsPart, chartCount: nat)
      returns (count: nat, fault: Option<Fault>)
      modifies this
      ensures var step := RegularStep(chartCount, anchor, dp);
              lines == old(lines) + step.lines && count == step.count && fault == step.fault
    {
      var chartPosition := GetCellPositionFromTwoCellAnchor(anchor);
      if chartPosition.Failure? {
        return chartCount, Some(chartPosition.error);
      }
      count, fault := chartCount + 1, None;
      ghost var start := lines;
      ghost var details := ClassicChartLines(anchor, dp, count, chartPosition.value);
      assert RegularStep(chartCount, anchor, dp)
             == Scan([RegularHeader(count, chartPosition.value)] + details, None, count);
      Add(RegularHeader(count, chartPosition.value));
      DetectChartElementsForAnchor(anchor, dp, count, chartPosition.value);
      AppendAssoc(start, [RegularHeader(count, chartPosition.value)], details);
    }

    /** The extended-chart check of DetectCharts' loop for one anchor. */
    method DetectExtendedChart(anchor: Element, dp: DrawingsPart, drawing: Element,
                               definedNames: Option<seq<DefinedName>>, chartCount: nat)
      returns (count: nat, fault: Option<Fault>)
      modifies this
      ensures var step := ExtendedStep(chartCount, anchor, dp, drawing, definedNames);
              lines == old(lines) + step.lines && count == step.count && fault == step.fault
    {
      var chartPosition := GetCellPositionFromTwoCellAnchor(anchor);
      if chartPosition.Failure? {
        return chartCount, Some(chartPosition.error);
      }
      count, fault := chartCount + 1, None;
      ghost var start := lines;
      ghost var head := [ExtendedHeader(count, chartPosition.value)];
      Add(ExtendedHeader(count, chartPosition.value));
      var chartReference := FirstDescendant(anchor, "chart", NS_CX);
      if chartReference.Some? {
        var chartId := GetAttribute(chartReference.value, "id", NS_R);
        if chartId.Failure? {
          return count, Some(chartId.error);
        }
        if chartId.value !in dp.parts {
          return count, Some(ArgumentOutOfRange);
        }
        ghost var details := ExtendedChart.ExtendedChartLines(RootElement(dp.parts[chartId.value]), drawing, chartId.value, definedNames);
        assert ExtendedStep(chartCount, anchor, dp, drawing, definedNames) == Scan(head + details, None, count);
        DetectChartElementsForExtendedChart(dp.parts[chartId.value], chartId.value, drawing, definedNames);
        AppendAssoc(start, head, details);
      }
    }

    /** The body of DetectCharts' anchor loop for one anchor: the regular
        check, then the extended check, unless the first one threw. */
    method DetectAnchorCharts(anchor: Element, dp: DrawingsPart, drawing: Element,
                              definedNames: Option<seq<DefinedName>>, chartCount: nat)
      returns (count: nat, fault: Option<Fault>)
      modifies this
      ensures var step := AnchorStep(chartCount, anchor, dp, drawing, definedNames);
              lines == old(lines) + step.lines && count == step.count && fault == step.fault
    {
      ghost var start := lines;
      ghost var regular := if IsRegularAnchor(anchor) then RegularStep(chartCount, anchor, dp) else Scan([], None, chartCount);
      count, fault := chartCount, None;
      if IsRegularAnchor(anchor) {
        count, fault := DetectRegularChart(anchor, dp, count);
        if fault.Some? {
          return;
        }
      } else {
        assert lines == start + [];
      }
      if IsExtendedAnchor(anchor) {
        ghost var extended := ExtendedStep(count, anchor, dp, drawing, definedNames);
        count, fault := DetectExtendedChart(anchor, dp, drawing, definedNames, count);
        AppendAssoc(start, regular.lines, extended.lines);
      }
    }

    /** DetectCharts. */
    method DetectCharts(ws: Worksheet, wb: Workbook)
      modifies this
      ensures lines == old(lines) + ChartsReport(ws, wb.definedNames)
    {
      if ws.drawings.None? {
        lines := lines + [NO_DRAWINGS_PART, NO_CHARTS];
        return;
      }
      var dp := ws.drawings.value;
      if dp.worksheetDrawing.None? {
        lines := lines + [NO_WORKSHEET_DRAWING, NO_CHARTS];
        return;
      }
      var drawing := dp.worksheetDrawing.value;
      var anchors := Anchors(drawing);
      var chartCount, fault := DetectAnchorsCharts(anchors, dp, drawing, wb.definedNames);
      if fault.Some? {
        Add(CHARTS_ERROR + Message(fault.value));
      } else {
        Add(ChartSummary(chartCount));
      }
    }

    /** The anchor loop of DetectCharts; a fault leaves the loop at once. */
    method DetectAnchorsCharts(anchors: seq<Element>, dp: DrawingsPart, drawing: Element,
                               definedNames: Option<seq<DefinedName>>)
      returns (chartCount: nat, fault: Option<Fault>)
      modifies this
      ensures Scanned(anchors, dp, drawing, definedNames, old(lines), chartCount, fault)
    {
      ghost var start := lines;
      chartCount, fault := 0, None;
      var i := 0;
      while i < |anchors|
        invariant 0 <= i <= |anchors|
        invariant fault.None? && Scanned(anchors[..i], dp, drawing, definedNames, start, chartCount, fault)
      {
        chartCount, fault := DetectNextAnchor(anchors, i, dp, drawing, definedNames, start, chartCount);
        i := i + 1;
        if fault.Some? {
          ScannedStops(anchors, i, dp, drawing, definedNames, start, chartCount, fault);
          return;
        }
      }
      assert anchors[..i] == anchors;
    }

    /** A scan that has faulted after the first `i` anchors is the scan of them all. */
    lemma ScannedStops(anchors: seq<Element>, i: nat, dp: DrawingsPart, drawing: Element,
                       definedNames: Option<seq<DefinedName>>, start: seq<string>,
                       chartCount: nat, fault: Option<Fault>)
      requires i <= |anchors| && fault.Some?
      requires Scanned(anchors[..i], dp, drawing, definedNames, start, chartCount, fault)
      ensures Scanned(anchors, dp, drawing, definedNames, start, chartCount, fault)
    {
      ScanFaultSticks(anchors, i, dp, drawing, definedNames);
    }

    /** The report state after the anchor loop over `done`: the lines, the
        count and the fault of the scan, appended to `start`. */
    ghost predicate Scanned(done: seq<Element>, dp: DrawingsPart, drawing: Element,
                            definedNames: Option<seq<DefinedName>>, start: seq<string>,
                            chartCount: nat, fault: Option<Fault>)
      reads this
    {
      var scan := ScanAnchors(done, dp, drawing, definedNames);
      lines == start + scan.lines && chartCount == scan.count && fault == scan.fault
    }

    /** One turn of the anchor loop of DetectCharts, for the anchor at `i`. */
    method DetectNextAnchor(anchors: seq<Element>, i: nat, dp: DrawingsPart, drawing: Element,
                            definedNames: Option<seq<DefinedName>>, ghost start: seq<string>, chartCount: nat)
      returns (count: nat, fault: Option<Fault>)
      requires i < |anchors| && Scanned(anchors[..i], dp, drawing, definedNames, start, chartCount, None)
      modifies this
      ensures Scanned(anchors[..i + 1], dp, drawing, definedNames, start, count, fault)
    {
      ghost var prior := ScanAnchors(anchors[..i], dp, drawing, definedNames);
      ghost var step := AnchorStep(chartCount, anchors[i], dp, drawing, definedNames);
      ScanAnchorsSnoc(anchors, i, dp, drawing, definedNames);
      count, fault := DetectAnchorCharts(anchors[i], dp, drawing, definedNames, chartCount);
      AppendAssoc(start, prior.lines, step.lines);
      assert lines == start + (prior.lines + step.lines);
      assert count == step.count && fault == step.fault;
      assert ScanAnchors(anchors[..i + 1], dp, drawing, definedNames) == Scan(prior.lines + step.lines, step.fault, step.count);
    }

    /** ExtractPivotTableValues. */
    method ExtractPivotTableValues(ws: Worksheet, cellRange: string, wb: Workbook)
      modifies this
      ensures lines == old(lines) + PivotValueLines(ws, cellRange, wb)
    {
      var rangeParts := Split(cellRange, ':');
      if |rangeParts| != 2 {
        assert PivotValueLines(ws, cellRange, wb) == ["Invalid range format: " + cellRange];
        Add("Invalid range format: " + cellRange);
        return;
      }
      if ws.sheetData.None? {
        assert PivotValueLines(ws, cellRange, wb) == [VALUES_ERROR + Message(NullReference)];
        Add(VALUES_ERROR + Message(NullReference));
        return;
      }
      TwoPartLocation(ws, cellRange, wb);
      ListRangeValues(ws.sheetData.value, rangeParts[0], rangeParts[1], wb);
    }

    /** ExtractPivotTableValues once the location has two parts. */
    method ListRangeValues(cells: seq<Cell>, startCell: string, endCell: string, wb: Workbook)
      modifies this
      ensures lines == old(lines) + [VALUES_HEADER] + ValueLines(ListedCells(cells, startCell, endCell), wb)
    {
      var cellsInRange := ListedCells(cells, startCell, endCell);
      Add(VALUES_HEADER);
      AddValueLines(cellsInRange, wb);
    }

    /** The value loop of ExtractPivotTableValues: one line per cell, until a
        value lookup throws. */
    method AddValueLines(cellsInRange: seq<Cell>, wb: Workbook)
      modifies this
      ensures lines == old(lines) + ValueLines(cellsInRange, wb)
    {
      var i := 0;
      while i < |cellsInRange|
        invariant 0 <= i <= |cellsInRange|
        invariant forall j :: 0 <= j < i ==> GetCellValue(cellsInRange[j], wb).Success?
        invariant lines == old(lines) + ValueLines(cellsInRange[..i], wb)
      {
        var cell := cellsInRange[i];
        var cellValue := GetCellValue(cell, wb);
        if cellValue.Failure? {
          ValueLinesStopAtFault(cellsInRange, wb, i);
          AppendAssoc(old(lines), ValueLines(cellsInRange[..i], wb), [VALUES_ERROR + Message(cellValue.error)]);
          Add(VALUES_ERROR + Message(cellValue.error));
          return;
        }
        ValueLinesSnoc(cellsInRange[..i], cell, wb);
        assert cellsInRange[..i + 1] == cellsInRange[..i] + [cell];
        AppendAssoc(old(lines), ValueLines(cellsInRange[..i], wb), [ValueLine(cell, cellValue.value)]);
        Add(ValueLine(cell, cellValue.value));
        i := i + 1;
        assert forall j :: 0 <= j < i ==> GetCellValue(cellsInRange[j], wb).Success? by {
          forall j | 0 <= j < i
            ensures GetCellValue(cellsInRange[j], wb).Success?
          {
            if j == i - 1 {
              assert cellsInRange[j] == cell;
            }
          }
        }
      }
      assert cellsInRange[..i] == cellsInRange;
    }

    /** The inner loop of DetectPivotTables over the pivot tables of one
        worksheet part; returns how many it reported. */
    method DetectSheetPivotTables(worksheetPart: Worksheet, wb: Workbook) returns (count: nat)
      modifies this
      ensures lines == old(lines) + SheetPivotLines(worksheetPart, worksheetPart.pivotTables, wb)
      ensures count == |worksheetPart.pivotTables|
    {
      var tables := worksheetPart.pivotTables;
      count := 0;
      while count < |tables|
        invariant 0 <= count <= |tables|
        invariant lines == old(lines) + SheetPivotLines(worksheetPart, tables[..count], wb)
      {
        var pivotTableDef := tables[count];
        ghost var done := SheetPivotLines(worksheetPart, tables[..count], wb);
        assert tables[..count + 1][..count] == tables[..count];
        assert SheetPivotLines(worksheetPart, tables[..count + 1], wb)
               == done + PivotTableLines(worksheetPart, pivotTableDef, wb);
        var pivotTableName := PivotTableName(pivotTableDef);
        var location := PivotTableLocation(pivotTableDef);
        ghost var head := ["Pivot Table '" + pivotTableName + "' found at " + location];
        ghost var values := PivotValueLines(worksheetPart, location, wb);
        Add("Pivot Table '" + pivotTableName + "' found at " + location);
        ExtractPivotTableValues(worksheetPart, location, wb);
        AppendAssoc(old(lines) + done, head, values);
        AppendAssoc(old(lines), done, head + values);
        count := count + 1;
      }
      assert tables[..count] == tables;
    }

    /** DetectPivotTables: every pivot table of every worksheet part. */
    method DetectPivotTables(wb: Workbook)
      modifies this
      ensures lines == old(lines) + PivotReport(wb)
    {
      var pivotTableCount: nat := 0;
      var k := 0;
      while k < |wb.worksheets|
        invariant 0 <= k <= |wb.worksheets|
        invariant lines == old(lines) + WorkbookPivotLines(wb.worksheets[..k], wb)
        invariant pivotTableCount == PivotTableTotal(wb.worksheets[..k])
      {
        var worksheetPart := wb.worksheets[k].part;
        ghost var done := WorkbookPivotLines(wb.worksheets[..k], wb);
        assert wb.worksheets[..k + 1][..k] == wb.worksheets[..k];
        assert WorkbookPivotLines(wb.worksheets[..k + 1], wb)
               == done + SheetPivotLines(worksheetPart, worksheetPart.pivotTables, wb);
        var count := DetectSheetPivotTables(worksheetPart, wb);
        AppendAssoc(old(lines), done, SheetPivotLines(worksheetPart, worksheetPart.pivotTables, wb));
        pivotTableCount := pivotTableCount + count;
        k := k + 1;
      }
      assert wb.worksheets[..k] == wb.worksheets;
      AppendAssoc(old(lines), WorkbookPivotLines(wb.worksheets, wb), [PivotTotalLine(pivotTableCount)]);
      Add(PivotTotalLine(pivotTableCount));
    }

    /** AnalyzeWorksheet: clears the list box, then reports on the sheet
        called `worksheetName`. */
    method AnalyzeWorksheet(wb: Option<Workbook>, worksheetName: string)
      modifies this
      ensures lines == AnalysisReport(wb, worksheetName)
    {
      lines := [];
      if wb.None? {
        Add(NO_WORKBOOK);
        return;
      }
      var workbook := wb.value;
      var sheet := FindSheet(workbook.sheets, worksheetName);
      if sheet.None? || sheet.value.id.None? {
        Add(NotFoundLine(worksheetName));
        return;
      }
      var worksheetPart := FindWorksheetPart(workbook.worksheets, sheet.value.id.value);
      if worksheetPart.Failure? {
        Add("Error analyzing worksheet '" + worksheetName + "': " + Message(worksheetPart.error));
        return;
      }
      ghost var formulas := FormulaReport(Cells(worksheetPart.value), workbook);
      ghost var charts := ChartsReport(worksheetPart.value, workbook.definedNames);
      ghost var pivots := PivotReport(workbook);
      assert AnalysisReport(wb, worksheetName) == formulas + charts + pivots;
      DetectFormulas(worksheetPart.value, workbook);
      assert lines == formulas;
      DetectCharts(worksheetPart.value, workbook);
      assert lines == formulas + charts;
      DetectPivotTables(workbook);
    }
  }
}
