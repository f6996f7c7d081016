# Excel analyser core, modelled in Dafny

ExcelAnalyzerApp is a WPF tool. It opens an `.xlsx` workbook, lets the user
pick a worksheet, and fills a list box with a report on that sheet. The report
has three sections:

- **Formulas.** Every cell that has a formula, with its cached value and the
  formatting its style index selects.
- **Charts.** Every classic (`c:`) and extended (2014 `cx:` "chartex") chart
  anchored on the sheet: name, position, title, type, axes, legend and data
  source.
- **Pivot tables.** Every pivot table of the workbook, followed by the values
  of the cells its location covers.

This project models the report builders of `MainWindow.xaml.cs` and proves
what they write.

- **The document.** The parsed package is plain data (module `Spreadsheet`):
  a workbook with its sheets, shared strings, stylesheet, defined names and
  worksheet parts. Each worksheet has cells, an optional drawings part and
  pivot-table definitions. Drawing and chart XML is a generic element tree
  (`Xml.Element`: local name, namespace, attributes, own text, children).
  The SDK's typed lookups (`Descendants<T>()`, typed child properties) become
  searches on local name and namespace.
- **Exceptions.** An exception is a `Faults.Fault`. Each operation that can
  throw returns a `Result`. A `catch` that writes `ex.Message` writes the
  exception's class name (`Faults.Message`). The unchecked C# `int`
  arithmetic of the address codec and the `(int)` casts of style ids are
  written out as 32-bit wrap-around (`Text.Wrap32`, `Resolve.ToInt32`).
- **The list box.** `ResultsListBox.Items` is the field `lines` of the class
  `Analyzer.Report`. Each builder is a method with the source's loops. It is
  proved to append exactly the lines of a specification function of the
  document: `FormulaReport`, `ChartsReport`, `PivotReport`, and
  `AnalysisReport` for the whole report. Lemmas then state what those lines
  are.
- **Pure getters.** The chart getters and the address helpers are functions
  (modules `ClassicChart`, `ExtendedChart`, `Address`, `Resolve`, `Pivot`).
  The exceptions are `GetColumnLetters`, `GetColumnIndex`, `GetChartAxes` and
  `GetExtendedChartAxesTitles`, which build their results in place.
  `GetColumnLetters`, `GetColumnIndex` and `GetExtendedChartAxesTitles` do so
  in loops, and `GetChartAxes` by four sequential appends. These are methods
  proved equal to a reference function.

The code and its own comments disagree in places. The model follows the code:

- **Out-of-range style index.** It throws (`ElementAt`), and the formula
  section ends with its error line. It does not fall back to default
  formatting. The same holds for a font, fill or border index.
- **Out-of-range shared-string index.** It throws too, instead of showing the
  raw value.
- **Unparsable shared-string text.** A shared-string cell whose text does not
  parse as an integer shows its stored value, not the shared string.
- **Number formats.** The number-format lookup compares ids by value. A
  built-in id without a custom `numFmt` prints "General".
- **Doubly referenced anchors.** An anchor that holds both a classic and a
  chartex reference is reported and counted twice.

## Model

| member | source | states |
|---|---|---|
| Address.ColumnLetters | MainWindow.xaml.cs:834-845 | the letters of a column are empty exactly for a negative index and are all upper-case 'A'..'Z' |
| Address.GetColumnLetters | MainWindow.xaml.cs:834-845 | the prepend-one-letter loop yields the bijective base-26 letters of the column (reference `ColumnLetters`) |
| Address.GetColumnIndex | MainWindow.xaml.cs:956-965 | the accumulating loop over the reference's letters gives the bijective base-26 value minus one, with Int32 wrap-around (reference `ColumnIndex`) |
| Address.LettersValue32Wraps | MainWindow.xaml.cs:959-963 | the wrap-around fold over the letters equals the unbounded bijective base-26 value reduced to Int32 |
| Address.ColumnRoundTrip | MainWindow.xaml.cs:834-965 | for every column from 0 to Int32.MaxValue, reading back its letters gives the column; at Int32.MaxValue the wrapped fold and the wrapped `- 1` cancel |
| Address.ColumnLettersInjective | MainWindow.xaml.cs:834-845 | distinct columns from 0 to Int32.MaxValue never share letters |
| Address.RowIndex | MainWindow.xaml.cs:968-972 | a reference without digits has row -1 |
| Address.ColumnOfReference | MainWindow.xaml.cs:956-965 | appending digits to a column's letters does not change the column read back |
| Address.RowOfReference | MainWindow.xaml.cs:968-972 | letters followed by the decimal text of row r + 1 read back as row r |
| Address.CellReferenceDecomposes | MainWindow.xaml.cs:825-832 | a reference is the column's letters then the one-based row; column and row read back unchanged (round trip of the address codec) |
| Address.IsCellInRange | MainWindow.xaml.cs:920-937 | a null or empty reference is never in range |
| Address.InRangeIff | MainWindow.xaml.cs:920-937 | for well-formed references, being in range is exactly the inclusive rectangle test on columns and rows (both directions) |
| Address.RangeCornersInside | MainWindow.xaml.cs:920-937 | both corners of a range lie inside it |
| Address.NeighbourOutside | MainWindow.xaml.cs:920-937 | a cell one step past any side of a range lies outside it |
| Address.AnchorPosition | MainWindow.xaml.cs:805-823 | an anchor whose four marker ids parse spans "from:to" built from those ids; if any id is missing or unparsable, the position fails |
| Address.AnchorExample | MainWindow.xaml.cs:825-845 | markers (2,1) and (8,15) give "C2:I16" |
| Text.ParseInt32 | MainWindow.xaml.cs:810-818 | `int.Parse` yields an Int32 or throws a format or overflow exception; blank text is a format error |
| Text.ParseNatToString | MainWindow.xaml.cs:968-972 | the decimal text of any Int32-range natural parses back to it |
| Text.Keep | MainWindow.xaml.cs:956-972 | filtering characters keeps only characters that pass, and never lengthens the text |
| Text.Split | MainWindow.xaml.cs:887 | `Split` always gives at least one piece, and no piece contains the separator |
| Text.SplitJoin | MainWindow.xaml.cs:887-888 | splitting and rejoining gives back the text; the piece count is one more than the separator count |
| Xml.GetAttribute | MainWindow.xaml.cs:562 | `GetAttribute` throws KeyNotFound exactly when the attribute is absent, else gives its value |
| Xml.FirstWhereOrFault | MainWindow.xaml.cs:596-612 | a search with a throwing predicate finds nothing exactly when the predicate is false everywhere; a found element is the first with a true result; a fault is the first predicate fault, with only false results before it |
| Xml.FirstWhereIsFirst | MainWindow.xaml.cs:389-588 | `FirstOrDefault` returns exactly the first element the predicate accepts |
| Resolve.ElementAt | MainWindow.xaml.cs:163-165 | `ElementAt` succeeds exactly for an index inside the sequence and then gives that element, else throws ArgumentOutOfRange |
| Resolve.ToInt32 | MainWindow.xaml.cs:165 | the `(int)uint` cast keeps values up to Int32.MaxValue and makes larger ones negative |
| Resolve.GetCellValue | MainWindow.xaml.cs:941-953 | a shared-string cell with a table and an Int32 text gives the table entry at that index or throws when it is out of range; any other cell gives its stored value or "Empty" |
| Resolve.CellValueCases | MainWindow.xaml.cs:941-953 | a value is the stored text, "Empty" or a shared string; the lookup faults exactly for a shared-string cell whose parsed index lies outside the table; a non-shared-string cell never consults the table |
| Resolve.FindNumberingFormat | MainWindow.xaml.cs:172-174 | finds nothing exactly when no custom format has the id, else the first one that has it |
| Resolve.NumberFormatCode | MainWindow.xaml.cs:172-176 | without custom number formats, or when none has the id, the code is "General"; otherwise it is the code of the format `FindNumberingFormat` finds, "General" when that has no code |
| Resolve.NumberFormatCodeOfFirst | MainWindow.xaml.cs:172-176 | the code is that of the first custom format with the id (or "General" when it has no code), and "General" when no custom format has the id |
| Resolve.NumberFormatEmit | MainWindow.xaml.cs:170-177 | exactly one line, "Number Format: " followed by the id's code, when the format has a number format id, else none |
| Resolve.FontEmit | MainWindow.xaml.cs:180-187 | for a font id: the line names the entry at that index with its font name and size, "Calibri" and 11 standing in for either when missing and for both without a font table; an index outside the table gives no line and ArgumentOutOfRange |
| Resolve.FillEmit | MainWindow.xaml.cs:190-197 | for a fill id: the line gives the foreground colour of the entry at that index, "None" when it has none or there is no fill table; an index outside the table gives no line and ArgumentOutOfRange |
| Resolve.BorderEmit | MainWindow.xaml.cs:200-207 | for a border id: the line says whether the entry at that index has a top and a bottom edge, both False without a border table; an index outside the table gives no line and ArgumentOutOfRange |
| Resolve.FormatLinesFollowIds | MainWindow.xaml.cs:167-208 | a cell format yields one line per id it has, in the order number format, font, fill, borders, each with its label; a fault cuts the list short and is always ArgumentOutOfRange |
| Resolve.StyleLinesShape | MainWindow.xaml.cs:160-208 | an in-range style index yields the formatting lines of the format it selects, in that fixed order |
| Resolve.OutOfRangeStyleIndexFaults | MainWindow.xaml.cs:163-165 | a style index outside the cell-format table throws before any formatting line; no default is used |
| Resolve.StyleDefaults | MainWindow.xaml.cs:170-207 | without custom formats or font, fill and border tables, the lines are "General", "Calibri" size 11, fill "None" and no borders |
| StableSort.Insert | MainWindow.xaml.cs:900-901 | insertion adds exactly the one element (multiset) |
| StableSort.SortByKey | MainWindow.xaml.cs:900-901 | the sort is a permutation of its input |
| StableSort.SortByKeySorted | MainWindow.xaml.cs:900-901 | the sort's result is ordered by column, then by row |
| StableSort.SortByKeyStable | MainWindow.xaml.cs:900-901 | elements with equal column and row keep their input order |
| Pivot.InRange | MainWindow.xaml.cs:898-899 | the filter keeps exactly the cells whose reference is in range |
| Pivot.InRangeSnoc | MainWindow.xaml.cs:898-899 | the filter keeps order and multiplicity: no cells give none, and one more cell is appended exactly when it is in range |
| Pivot.ListedCellsAreInRange | MainWindow.xaml.cs:898-901 | the listed cells are exactly the sheet's cells in range, none lost and none added |
| Pivot.ListedOrder | MainWindow.xaml.cs:900-901 | the listing is ordered by column then row, and cells with the same key keep document order |
| Pivot.TwoPartLocation | MainWindow.xaml.cs:887-910 | a two-part location over a sheet with cell data lists the header, then the value lines of the listed cells |
| Pivot.InvalidLocation | MainWindow.xaml.cs:887-892 | a location without exactly one ':' gives only the "Invalid range format" line |
| Pivot.UnknownLocationInvalid | MainWindow.xaml.cs:860-892 | the default location "Unknown Location" is such an invalid one |
| Pivot.ListingExact | MainWindow.xaml.cs:898-910 | for "start:end" with no value fault: the header, then one line per cell in range, in the listed order, each with that cell's value |
| ClassicChart.ChartName | MainWindow.xaml.cs:389-397 | the name is "Unnamed Chart" or the `name` of a `cNvPr` element inside the anchor (which one: ChartNameOfFirstFrame) |
| ClassicChart.ChartNameOfFirstFrame | MainWindow.xaml.cs:389-397 | the name is the `name` of the first `cNvPr` of the first non-visual properties of the anchor's first graphic frame, "Unnamed Chart" when that attribute is absent |
| ClassicChart.ChartNameFallback | MainWindow.xaml.cs:389-397 | "Unnamed Chart" when the anchor has no graphic frame, its first frame has no non-visual properties, or those have no `cNvPr` |
| ClassicChart.ChartTitle | MainWindow.xaml.cs:399-408 | the title is "No Title" or the text of an `a:t` element of the chart (which one: ChartTitleOfFirstTitle) |
| ClassicChart.ChartTitleOfFirstTitle | MainWindow.xaml.cs:399-408 | the title is the text of the first run's `a:t` in the rich text of the chart text of the chart's first title |
| ClassicChart.ChartTitleFallback | MainWindow.xaml.cs:399-408 | "No Title" when the chart has no title, or its first title has no chart text, or that has no rich text |
| ClassicChart.ChartTitleRunFallback | MainWindow.xaml.cs:399-408 | "No Title" when the first title's rich text has no run, or its first run has no text |
| ClassicChart.ChartType | MainWindow.xaml.cs:411-437 | "Unknown Chart Type" exactly when there is no plot area or no child of it whose name ends with "Chart"; otherwise the type is such a child's local name |
| ClassicChart.ChartTypeOfFirstPlotArea | MainWindow.xaml.cs:411-437 | the type is the local name of the first chart-kind child of the first plot area, so a combo chart reports its first kind |
| ClassicChart.HasChartLegend | MainWindow.xaml.cs:494-497 | the legend flag is true exactly when the chart has a `c:legend` element |
| ClassicChart.GetChartAxes | MainWindow.xaml.cs:441-491 | the list built in place by four sequential appends of axis entries, joined with ", ", or "No Axes Titles Found" when it is empty (reference `ChartAxes`) |
| ClassicChart.CollectAxisEntries | MainWindow.xaml.cs:445-483 | the entries collected are those of the category axis, the first two value axes and the series axis, in that order |
| ClassicChart.AddAxisEntry | MainWindow.xaml.cs:449-454 | an axis that is present adds its caption and title; an absent one adds nothing |
| ClassicChart.AxisTitleOfFirstTitle | MainWindow.xaml.cs:448-454 | an axis's title is the first `a:t` text of its first title, "No Title" when it has no title or the title has no text |
| ClassicChart.AxisEntryCount | MainWindow.xaml.cs:441-483 | one entry each for a category and a series axis, and one per value axis up to two; a third value axis is never reported |
| ClassicChart.NoAxesIff | MainWindow.xaml.cs:485 | "No Axes Titles Found" exactly when the chart has no category, value or series axis (both directions) |
| ClassicChart.CombineRanges | MainWindow.xaml.cs:706-713 | combining can only fail with IndexOutOfRange |
| ClassicChart.CombineWellFormed | MainWindow.xaml.cs:706-713 | `sheet!a:b` and `sheet2!c:d` combine to `sheet!a:d` |
| ClassicChart.CombineExample | MainWindow.xaml.cs:702-713 | "Sheet1!$C$2:$C$10" and "Sheet1!$D$2:$D$10" combine to "Sheet1!$C$2:$D$10" |
| ClassicChart.CombineWithoutSheet | MainWindow.xaml.cs:706-765 | a category range without '!' throws IndexOutOfRange |
| ClassicChart.DataSourceFromReferences | MainWindow.xaml.cs:693-765 | with both references, the data source is their combination or the indexing error, never the pivot name or the fallback |
| ClassicChart.DataSourceWithoutReferences | MainWindow.xaml.cs:716-760 | without both references: a chart whose first `pivotSource` has a `name` reports the inner text of its first `name`; a chart without a pivot source, or whose pivot source has no name, reports "Data source not found." |
| ExtendedChart.ExtendedChartTitle | MainWindow.xaml.cs:500-512 | a part without a root throws NullReference; otherwise the title is "No Title" or the inner text of a paragraph that has text |
| ExtendedChart.ExtendedTitleOfFirstParagraph | MainWindow.xaml.cs:500-512 | the title is the inner text of the first paragraph that has text, "No Title" when there is none |
| ExtendedChart.AxisTitleOf | MainWindow.xaml.cs:529-540 | an axis adds at most one title, the inner text of a `t` element below it |
| ExtendedChart.AxisTitleOfFirstTitle | MainWindow.xaml.cs:529-540 | an axis adds the inner text of the first `t` below its first `title`, and nothing when it has no title or that title has no `t` |
| ExtendedChart.CollectAxisTitles | MainWindow.xaml.cs:527-541 | the loop adds each titled axis's title in document order (reference `TitlesOf`) |
| ExtendedChart.ReadAxisTitle | MainWindow.xaml.cs:529-540 | one turn of that loop reads the axis's title text, when it has one |
| ExtendedChart.GetExtendedChartAxesTitles | MainWindow.xaml.cs:516-549 | the titles of the titled axes, "No Axis Titles Found" when there are none, or the error entry for a part without a root |
| ExtendedChart.TitlesAreTexts | MainWindow.xaml.cs:523-541 | every collected title is the inner text of a `t` element of the chart |
| ExtendedChart.AxesTitlesShape | MainWindow.xaml.cs:516-549 | the list is never empty; otherwise it has at most one title per titled axis, each a `t` text of the chart |
| ExtendedChart.ExtendedChartType | MainWindow.xaml.cs:552-572 | the type is the error line for a part without a root; otherwise "Unknown Chart Type", the KeyNotFound error, or the non-empty `layoutId` of an attributed series |
| ExtendedChart.ExtendedTypeOfFirstSeries | MainWindow.xaml.cs:552-572 | the type is read from the first attributed series: its non-empty `layoutId`, "Unknown Chart Type" for an empty one or when there is no such series, the KeyNotFound error line when it has no `layoutId` |
| ExtendedChart.ExtendedChartLegend | MainWindow.xaml.cs:579-587 | throws NullReference exactly for a part without a root; otherwise true exactly when some element is named `legend` |
| ExtendedChart.FrameRefersTo | MainWindow.xaml.cs:598-612 | the frame test can only fail with KeyNotFound (a chartex reference without an id) |
| ExtendedChart.ExtendedChartNameCases | MainWindow.xaml.cs:591-630 | the name is "Unnamed Extended Chart", the KeyNotFound error line, or the stored name of a graphic frame that refers to the chart (which one: NameOfFirstReferringFrame) |
| ExtendedChart.NameOfFirstReferringFrame | MainWindow.xaml.cs:596-621 | when every earlier frame tests false, the name comes from the first graphic frame that refers to the chart: its `cNvPr` name, or "Unnamed Extended Chart" |
| ExtendedChart.NameAfterEarlierFault | MainWindow.xaml.cs:604-629 | an earlier frame whose chartex reference has no `r:id` makes the search throw, so the name is the KeyNotFound error line even when a later frame matches |
| ExtendedChart.NameWithoutFrame | MainWindow.xaml.cs:615-624 | when no frame refers to the chart, the name is "Unnamed Extended Chart" |
| ExtendedChart.FrameSearchFault | MainWindow.xaml.cs:596-629 | the frame search can only throw KeyNotFound |
| ExtendedChart.NameBelongsToChart | MainWindow.xaml.cs:591-630 | any other reported name belongs to a graphic frame of the drawing that refers to the requested chart id |
| ExtendedChart.FoundFrame | MainWindow.xaml.cs:596-612 | the frame the search stops at is a graphic frame of the drawing that refers to the chart |
| ExtendedChart.FindDefinedName | MainWindow.xaml.cs:652-654 | finds nothing exactly when no defined name is spelled like the formula, else the first one that is |
| ExtendedChart.ExtendedChartData | MainWindow.xaml.cs:633-682 | the data list always has exactly one entry |
| ExtendedChart.DataWithoutFormula | MainWindow.xaml.cs:640-678 | the one entry is the NullReference error line without a root, "No <cx:numDim> element found in chartEx XML." when no `numDim` has attributes, and "No formula reference found for chart data." when the first attributed `numDim` has no `f` text, or an empty one |
| ExtendedChart.DataResolvesDefinedName | MainWindow.xaml.cs:652-659 | a formula reference resolves to the text of the first defined name spelled like it |
| ExtendedChart.DataUnknownName | MainWindow.xaml.cs:661-664 | an unknown reference is reported by name |
| ExtendedChart.DataOfReference | MainWindow.xaml.cs:640-665 | the one entry is the first attributed `numDim`'s formula resolved against the workbook |
| ExtendedChart.ExtendedLinesReadable | MainWindow.xaml.cs:780-794 | a part with a root gets no error lines and exactly the six detail lines, headed by the chart name |
| ExtendedChart.ExtendedLinesUnreadable | MainWindow.xaml.cs:780-794 | a part without a root gets the title and legend errors first, then "No Title", no legend, and the type, axes and data errors |
| ExtendedChart.UnreadableErrors | MainWindow.xaml.cs:781-784 | those two error lines, in that order |
| ExtendedChart.UnreadableDetails | MainWindow.xaml.cs:782-794 | those six detail lines |
| Analyzer.FormulaCells | MainWindow.xaml.cs:144-145 | the formula cells are exactly the cells with a formula; when every cell has one, all of them |
| Analyzer.FormulaCellsSnoc | MainWindow.xaml.cs:144-145 | the selection keeps order and multiplicity: no cells give none, and one more cell is appended exactly when it has a formula |
| Analyzer.PlainFormulaBlock | MainWindow.xaml.cs:149-158 | a cell without a style index and with a readable value writes exactly its three cell lines |
| Analyzer.StyledFormulaBlock | MainWindow.xaml.cs:149-208 | a styled cell writes its three cell lines, then the formatting lines of its format in the fixed order |
| Analyzer.FormulaReportPlain | MainWindow.xaml.cs:144-158 | the section opens with the count of formula cells; without faults or styled cells it has three more lines per formula cell, in document order |
| Analyzer.RegularStep | MainWindow.xaml.cs:295-302 | the regular branch counts one chart unless the position throws, and then writes nothing |
| Analyzer.ExtendedStep | MainWindow.xaml.cs:305-325 | the extended branch counts one chart unless the position throws |
| Analyzer.StepCount | MainWindow.xaml.cs:292-326 | an anchor step without a fault counts one chart per chart kind on the anchor |
| Analyzer.ScanAnchorsSnoc | MainWindow.xaml.cs:292-326 | one more anchor extends a fault-free scan by exactly that anchor's step |
| Analyzer.ChartsWithoutDrawing | MainWindow.xaml.cs:285-341 | without a drawings part or a drawing, the section is the notice line and "No charts found in the worksheet." |
| Analyzer.ChartsSummaryCounts | MainWindow.xaml.cs:292-350 | the section ends with the summary of the chart-kind count over all anchors, or with the error line and no summary when an anchor throws |
| Analyzer.ExtendedStepReads | MainWindow.xaml.cs:305-325 | an anchor whose chartex id names a related part gets its header and that part's detail lines, and is counted |
| Analyzer.DualAnchorCountsTwice | MainWindow.xaml.cs:294-325 | an anchor with both references is reported as chart n + 1 with classic details, then as chart n + 2 with chartex details |
| Analyzer.UnlocatedPivotTable | MainWindow.xaml.cs:858-865 | a pivot table without a location gets its header with "Unknown Location" and only the invalid-range notice |
| Analyzer.PivotReportTotal | MainWindow.xaml.cs:854-870 | the pivot section ends with the total over all worksheets and has at least two lines per pivot table |
| Analyzer.FindSheet | MainWindow.xaml.cs:117-118 | finds nothing exactly when no sheet has the name; otherwise the first sheet that has it |
| Analyzer.FindWorksheetPart | MainWindow.xaml.cs:126 | `GetPartById` throws ArgumentOutOfRange exactly for an unknown id; otherwise it gives the related worksheet part |
| Analyzer.AnalysisSections | MainWindow.xaml.cs:105-132 | a found worksheet's report is the formula section, opened by its count, then the chart section, then the whole-workbook pivot section, closed by the pivot total |
| Analyzer.AnalysisUnknownSheet | MainWindow.xaml.cs:117-124 | a name no sheet carries gives only the not-found line |
| Analyzer.Report.constructor | MainWindow.xaml.cs:107 | the list box starts empty |
| Analyzer.Report.Add | MainWindow.xaml.cs:147 | adding appends one line and keeps the earlier ones |
| Analyzer.Report.AddStyleLines | MainWindow.xaml.cs:160-208 | appends the style lookup's lines and returns its fault |
| Analyzer.Report.AddNumberFormatLine | MainWindow.xaml.cs:170-177 | appends the number format line, if the format has that id |
| Analyzer.Report.AddFontLine | MainWindow.xaml.cs:180-187 | appends the font line or returns the lookup fault |
| Analyzer.Report.AddFillLine | MainWindow.xaml.cs:190-197 | appends the fill line or returns the lookup fault |
| Analyzer.Report.AddBorderLine | MainWindow.xaml.cs:200-207 | appends the borders line or returns the lookup fault |
| Analyzer.Report.DetectFormulas | MainWindow.xaml.cs:140-216 | appends exactly the formula section: count line, cell blocks, error line after a fault |
| Analyzer.Report.DetectFormulaCells | MainWindow.xaml.cs:149-210 | the cell loop appends the blocks of the cells in order and stops at the first fault |
| Analyzer.Report.DetectFormulaCell | MainWindow.xaml.cs:151-209 | one turn appends the cell's block: nothing when the value lookup throws, else three lines and the style lines |
| Analyzer.Report.DetectChartElementsForAnchor | MainWindow.xaml.cs:354-386 | appends the eight detail lines when the anchor's chart id names a chart part of the drawing, else nothing |
| Analyzer.Report.DetectChartElementsForExtendedChart | MainWindow.xaml.cs:769-800 | appends the error lines of the getters that threw, then the six detail lines |
| Analyzer.Report.DetectRegularChart | MainWindow.xaml.cs:295-302 | appends the regular branch's lines and its count or fault |
| Analyzer.Report.DetectExtendedChart | MainWindow.xaml.cs:305-325 | appends the extended branch's lines and its count or fault |
| Analyzer.Report.DetectAnchorCharts | MainWindow.xaml.cs:294-325 | one anchor: the regular check, then the extended check unless the first threw |
| Analyzer.Report.DetectAnchorsCharts | MainWindow.xaml.cs:292-326 | the anchor loop leaves the lines, count and fault of the scan over all anchors, stopping at the first fault |
| Analyzer.Report.DetectNextAnchor | MainWindow.xaml.cs:292-326 | one turn of that loop extends the scan by one anchor |
| Analyzer.Report.ScannedStops | MainWindow.xaml.cs:347-350 | once a scan has faulted, the scan over all anchors is the same |
| Analyzer.Report.DetectCharts | MainWindow.xaml.cs:278-351 | appends exactly the chart section: notices or anchor lines, then the summary or the error line |
| Analyzer.Report.ExtractPivotTableValues | MainWindow.xaml.cs:879-916 | appends exactly the listing of the location: invalid notice, or header and value lines, or error line |
| Analyzer.Report.ListRangeValues | MainWindow.xaml.cs:894-910 | appends the header, then the value lines of the listed cells |
| Analyzer.Report.AddValueLines | MainWindow.xaml.cs:906-915 | appends one value line per cell, ending with the error line at the first lookup fault |
| Analyzer.Report.DetectSheetPivotTables | MainWindow.xaml.cs:856-867 | appends the lines of each pivot table of the sheet and counts them |
| Analyzer.Report.DetectPivotTables | MainWindow.xaml.cs:848-876 | appends the lines of every pivot table of every worksheet part, then the total |
| Analyzer.Report.AnalyzeWorksheet | MainWindow.xaml.cs:105-137 | the list box afterwards holds exactly one of: "No workbook loaded.", the not-found line, the analysis error line, or the three sections |

## Left out

- The window, its menu and file handling (MainWindow.xaml.cs:27-102) are not
  part of this model. That covers opening the package and listing its sheet
  names. The model starts from an already-parsed workbook value.
- Relationship resolution is reduced to maps from relationship ids to parts.
  This covers `GetPartById`, `GetIdOfPart` and `ChartParts`. The
  `(WorksheetPart)` cast of line 126 cannot fail, because only worksheet
  parts are listed.
- DetectFormatting (MainWindow.xaml.cs:220-275) is not modelled. Nothing
  calls it.
- The pivot-cache helpers (MainWindow.xaml.cs:975-1124) are not modelled.
  Nothing in the analysed flow calls them.
- `ex.Message` is the exception's class name. The runtime's message text is
  not available to the model.
- `char.IsLetter` and `char.IsDigit` are ASCII-only. Non-ASCII letters and
  digits are not modelled.
- `int.Parse` and `int.TryParse` support ASCII white space, a sign and
  ASCII digits only. Culture settings are not modelled.
- A font size stays as the text of its double attribute, so its formatting
  as a number is not modelled.
- Analyzer.Report.DetectCharts does not model Int32 overflow of
  `chartCount`, which is an unbounded `nat`. Overflow would need more than
  two billion anchors.
- Analyzer.Report.DetectPivotTables does not model Int32 overflow of
  `pivotTableCount`, for the same reason.
- The outer catch of DetectChartElementsForExtendedChart
  (MainWindow.xaml.cs:796-799) has no case. Every getter is wrapped in its
  own catch, and the detail lines cannot throw.
- The catch blocks of GetChartType and GetChartAxes
  (MainWindow.xaml.cs:432-436, 487-490) have no case. Nothing inside them
  can throw.
- The pivot branch's combined-range case (MainWindow.xaml.cs:737-752) has no
  case either. It runs the same two searches that just failed, so it cannot
  be reached.
- LINQ laziness is not modelled. Every query is evaluated where the source
  enumerates it. The lookups that can throw (`ElementAt`, `GetAttribute`,
  `int.Parse`) run in the same order as in the source.
- Analyzer.Report.DetectAnchorsCharts states its result through the ghost
  predicate `Scanned` rather than as a plain equation. The predicate says
  the lines, the count and the fault equal those of `ScanAnchors` over the
  anchors, appended to the lines that were there before.
