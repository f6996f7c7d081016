/** The getters that describe one regular chart (a `c:chartSpace` part):
    GetChartName, GetChartTitle, GetChartType, GetChartAxes, HasChartLegend
    and GetRegularChartData of MainWindow.xaml.cs. */
module ClassicChart {
  import opened Wrappers
  import opened Faults
  import opened Text
  import opened Xml
  import opened Spreadsheet

  const UNNAMED_CHART := "Unnamed Chart"
  const NO_TITLE := "No Title"
  const UNKNOWN_CHART_TYPE := "Unknown Chart Type"
  const NO_AXES := "No Axes Titles Found"
  const DATA_SOURCE_NOT_FOUND := "Data source not found."
  const DATA_SOURCE_ERROR := "Error retrieving data source: "

  /** GetChartName: the `name` of the non-visual drawing properties of the
      anchor's first graphic frame. */
  function ChartName(anchor: Element): (name: string)
    ensures name == UNNAMED_CHART
            || exists p :: p in Descendants(anchor) && Is(p, "cNvPr", NS_XDR) && Attr(p, "", "name") == Some(name)
  {
    match FirstDescendant(anchor, "graphicFrame", NS_XDR)
    case None => UNNAMED_CHART
    case Some(frame) =>
      match FirstChild(frame, "nvGraphicFramePr", NS_XDR)
      case None => UNNAMED_CHART
      case Some(nv) =>
        match FirstChild(nv, "cNvPr", NS_XDR)
        case None => UNNAMED_CHART
        case Some(props) =>
          ChildIsDescendant(nv, props);
          ChildIsDescendant(frame, nv);
          DescendantsTransitive(frame, nv, props);
          DescendantsTransitive(anchor, frame, props);
          Attr(props, "", "name").GetOr(UNNAMED_CHART)
  }

  /** The name comes from the anchor's first graphic frame: from the `name`
      of the first `cNvPr` of its first `nvGraphicFramePr`, "Unnamed Chart"
      when that attribute is absent. */
  lemma ChartNameOfFirstFrame(anchor: Element, frame: Element, nv: Element, props: Element)
    requires FirstIn(Descendants(anchor), OfKind("graphicFrame", NS_XDR), frame)
    requires FirstIn(frame.children, OfKind("nvGraphicFramePr", NS_XDR), nv)
    requires FirstIn(nv.children, OfKind("cNvPr", NS_XDR), props)
    ensures ChartName(anchor) == Attr(props, "", "name").GetOr(UNNAMED_CHART)
  {
    FirstWhereIsFirst(Descendants(anchor), OfKind("graphicFrame", NS_XDR), frame);
    FirstWhereIsFirst(frame.children, OfKind("nvGraphicFramePr", NS_XDR), nv);
    FirstWhereIsFirst(nv.children, OfKind("cNvPr", NS_XDR), props);
  }

  /** "Unnamed Chart" when the anchor has no graphic frame, when its first
      frame has no non-visual properties, or when those have no `cNvPr`. */
  lemma ChartNameFallback(anchor: Element, frame: Element, nv: Element)
    ensures (forall d :: d in Descendants(anchor) ==> !Is(d, "graphicFrame", NS_XDR))
            ==> ChartName(anchor) == UNNAMED_CHART
    ensures FirstIn(Descendants(anchor), OfKind("graphicFrame", NS_XDR), frame)
            && (forall c :: c in frame.children ==> !Is(c, "nvGraphicFramePr", NS_XDR))
            ==> ChartName(anchor) == UNNAMED_CHART
    ensures FirstIn(Descendants(anchor), OfKind("graphicFrame", NS_XDR), frame)
            && FirstIn(frame.children, OfKind("nvGraphicFramePr", NS_XDR), nv)
            && (forall c :: c in nv.children ==> !Is(c, "cNvPr", NS_XDR))
            ==> ChartName(anchor) == UNNAMED_CHART
  {
    if FirstIn(Descendants(anchor), OfKind("graphicFrame", NS_XDR), frame) {
      FirstWhereIsFirst(Descendants(anchor), OfKind("graphicFrame", NS_XDR), frame);
      if FirstIn(frame.children, OfKind("nvGraphicFramePr", NS_XDR), nv) {
        FirstWhereIsFirst(frame.children, OfKind("nvGraphicFramePr", NS_XDR), nv);
      }
    }
  }

  /** GetChartTitle: the text of the first run of the rich text of the
      chart's first title. */
  function ChartTitle(cs: ChartSpace): (title: string)
    ensures title == NO_TITLE
            || exists t :: t in Descendants(cs) && Is(t, "t", NS_A) && t.text == title
  {
    match FirstDescendant(cs, "title", NS_C)
    case None => NO_TITLE
    case Some(t) =>
      match FirstChild(t, "tx", NS_C)
      case None => NO_TITLE
      case Some(tx) =>
        match FirstChild(tx, "rich", NS_C)
        case None => NO_TITLE
        case Some(rich) =>
          match FirstDescendant(rich, "r", NS_A)
          case None => NO_TITLE
          case Some(run) =>
            match FirstChild(run, "t", NS_A)
            case None => NO_TITLE
            case Some(text) =>
              ChildIsDescendant(run, text);
              DescendantsTransitive(rich, run, text);
              ChildIsDescendant(tx, rich);
              DescendantsTransitive(tx, rich, text);
              ChildIsDescendant(t, tx);
              DescendantsTransitive(t, tx, text);
              DescendantsTransitive(cs, t, text);
              text.text
  }

  /** The title is the `a:t` text of the first run below the rich text of
      the chart text of the chart's first title. */
  lemma ChartTitleOfFirstTitle(cs: ChartSpace, t: Element, tx: Element, rich: Element, run: Element, text: Element)
    requires FirstIn(Descendants(cs), OfKind("title", NS_C), t)
    requires FirstIn(t.children, OfKind("tx", NS_C), tx)
    requires FirstIn(tx.children, OfKind("rich", NS_C), rich)
    requires FirstIn(Descendants(rich), OfKind("r", NS_A), run)
    requires FirstIn(run.children, OfKind("t", NS_A), text)
    ensures ChartTitle(cs) == text.text
  {
    FirstWhereIsFirst(Descendants(cs), OfKind("title", NS_C), t);
    FirstWhereIsFirst(t.children, OfKind("tx", NS_C), tx);
    FirstWhereIsFirst(tx.children, OfKind("rich", NS_C), rich);
    FirstWhereIsFirst(Descendants(rich), OfKind("r", NS_A), run);
    FirstWhereIsFirst(run.children, OfKind("t", NS_A), text);
  }

  /** "No Title" when the chart has no title, or its first title has no
      chart text, or that has no rich text. */
  lemma ChartTitleFallback(cs: ChartSpace, t: Element, tx: Element)
    ensures (forall d :: d in Descendants(cs) ==> !Is(d, "title", NS_C)) ==> ChartTitle(cs) == NO_TITLE
    ensures FirstIn(Descendants(cs), OfKind("title", NS_C), t)
            && (forall c :: c in t.children ==> !Is(c, "tx", NS_C))
            ==> ChartTitle(cs) == NO_TITLE
    ensures FirstIn(Descendants(cs), OfKind("title", NS_C), t) && FirstIn(t.children, OfKind("tx", NS_C), tx)
            && (forall c :: c in tx.children ==> !Is(c, "rich", NS_C))
            ==> ChartTitle(cs) == NO_TITLE
  {
    if FirstIn(Descendants(cs), OfKind("title", NS_C), t) {
      FirstWhereIsFirst(Descendants(cs), OfKind("title", NS_C), t);
      if FirstIn(t.children, OfKind("tx", NS_C), tx) {
        FirstWhereIsFirst(t.children, OfKind("tx", NS_C), tx);
      }
    }
  }

  /** "No Title" also when the rich text of the first title has no run, or
      its first run has no text. */
  lemma ChartTitleRunFallback(cs: ChartSpace, t: Element, tx: Element, rich: Element, run: Element)
    requires FirstIn(Descendants(cs), OfKind("title", NS_C), t)
    requires FirstIn(t.children, OfKind("tx", NS_C), tx)
    requires FirstIn(tx.children, OfKind("rich", NS_C), rich)
    ensures (forall d :: d in Descendants(rich) ==> !Is(d, "r", NS_A)) ==> ChartTitle(cs) == NO_TITLE
    ensures FirstIn(Descendants(rich), OfKind("r", NS_A), run)
            && (forall c :: c in run.children ==> !Is(c, "t", NS_A))
            ==> ChartTitle(cs) == NO_TITLE
  {
    FirstWhereIsFirst(Descendants(cs), OfKind("title", NS_C), t);
    FirstWhereIsFirst(t.children, OfKind("tx", NS_C), tx);
    FirstWhereIsFirst(tx.children, OfKind("rich", NS_C), rich);
    if FirstIn(Descendants(rich), OfKind("r", NS_A), run) {
      FirstWhereIsFirst(Descendants(rich), OfKind("r", NS_A), run);
    }
  }

  /** A child element whose local name ends with "Chart" (`barChart`, `pieChart`, ...). */
  predicate IsChartKind(e: Element) { EndsWith(e.localName, "Chart") }

  /** GetChartType: the local name of the first chart-kind child of the first
      plot area; "Unknown Chart Type" exactly when there is no such child. */
  function ChartType(cs: ChartSpace): (kind: string)
    ensures kind == UNKNOWN_CHART_TYPE <==>
              match FirstDescendant(cs, "plotArea", NS_C)
              case None => true
              case Some(plot) => forall c :: c in plot.children ==> !IsChartKind(c)
    ensures kind != UNKNOWN_CHART_TYPE ==>
              EndsWith(kind, "Chart") && exists c :: c in FirstDescendant(cs, "plotArea", NS_C).value.children
                                                    && c.localName == kind
  {
    match FirstDescendant(cs, "plotArea", NS_C)
    case None => UNKNOWN_CHART_TYPE
    case Some(plot) =>
      match FirstWhere(plot.children, IsChartKind)
      case None => UNKNOWN_CHART_TYPE
      case Some(c) =>
        assert c.localName != UNKNOWN_CHART_TYPE by {
          assert UNKNOWN_CHART_TYPE[|UNKNOWN_CHART_TYPE| - 5..] != "Chart";
        }
        c.localName
  }

  /** The type is the local name of the first chart-kind child of the first
      plot area: a combo chart reports the kind written first. */
  lemma ChartTypeOfFirstPlotArea(cs: ChartSpace, plot: Element, c: Element)
    requires FirstIn(Descendants(cs), OfKind("plotArea", NS_C), plot)
    requires FirstIn(plot.children, IsChartKind, c)
    ensures ChartType(cs) == c.localName
  {
    FirstWhereIsFirst(Descendants(cs), OfKind("plotArea", NS_C), plot);
    FirstWhereIsFirst(plot.children, IsChartKind, c);
  }

  /** HasChartLegend. */
  function HasChartLegend(cs: ChartSpace): (present: bool)
    ensures present <==> exists d :: d in Descendants(cs) && Is(d, "legend", NS_C)
  {
    FirstDescendant(cs, "legend", NS_C).Some?
  }

  /** The title of one axis: the first text element of its first title. */
  function AxisTitle(axis: Element): string
  {
    match FirstDescendant(axis, "title", NS_C)
    case None => NO_TITLE
    case Some(t) =>
      match FirstDescendant(t, "t", NS_A)
      case None => NO_TITLE
      case Some(text) => text.text
  }

  /** An axis's title is the first `a:t` text of its first title, "No Title"
      when it has no title or the title has no text element. */
  lemma AxisTitleOfFirstTitle(axis: Element, t: Element, text: Element)
    ensures (forall d :: d in Descendants(axis) ==> !Is(d, "title", NS_C)) ==> AxisTitle(axis) == NO_TITLE
    ensures FirstIn(Descendants(axis), OfKind("title", NS_C), t)
            && (forall d :: d in Descendants(t) ==> !Is(d, "t", NS_A))
            ==> AxisTitle(axis) == NO_TITLE
    ensures FirstIn(Descendants(axis), OfKind("title", NS_C), t)
            && FirstIn(Descendants(t), OfKind("t", NS_A), text)
            ==> AxisTitle(axis) == text.text
  {
    if FirstIn(Descendants(axis), OfKind("title", NS_C), t) {
      FirstWhereIsFirst(Descendants(axis), OfKind("title", NS_C), t);
      if FirstIn(Descendants(t), OfKind("t", NS_A), text) {
        FirstWhereIsFirst(Descendants(t), OfKind("t", NS_A), text);
      }
    }
  }

  function AxisEntry(caption: string, axis: Option<Element>): seq<string>
  {
    match axis
    case None => []
    case Some(a) => [caption + AxisTitle(a)]
  }

  function Nth(xs: seq<Element>, n: nat): Option<Element> { if n < |xs| then Some(xs[n]) else None }

  /** The entries GetChartAxes collects, in its order: primary category axis,
      primary value axis, the second value axis, the series axis. */
  function AxisEntries(cs: ChartSpace): seq<string>
  {
    var values := DescendantsOfKind(cs, "valAx", NS_C);
    AxisEntry("X-Axis: ", FirstDescendant(cs, "catAx", NS_C))
    + AxisEntry("Y-Axis: ", Nth(values, 0))
    + AxisEntry("Secondary Y-Axis: ", Nth(values, 1))
    + AxisEntry("Z-Axis: ", FirstDescendant(cs, "serAx", NS_C))
  }

  /** What GetChartAxes returns. */
  function ChartAxes(cs: ChartSpace): string
  {
    var entries := AxisEntries(cs);
    if entries == [] then NO_AXES else Join(entries, ", ")
  }

  /** GetChartAxes: the entries joined with ", ", or the notice when there are none. */
  method GetChartAxes(cs: ChartSpace) returns (axes: string)
    ensures axes == ChartAxes(cs)
  {
    var axisTitles := CollectAxisEntries(cs);
    if |axisTitles| > 0 {
      axes := Join(axisTitles, ", ");
    } else {
      axes := NO_AXES;
    }
  }

  /** The list of axis entries of GetChartAxes, built one axis at a time. */
  method CollectAxisEntries(cs: ChartSpace) returns (axisTitles: seq<string>)
    ensures axisTitles == AxisEntries(cs)
  {
    var xAxis := FirstDescendant(cs, "catAx", NS_C);
    axisTitles := AddAxisEntry([], "X-Axis: ", xAxis);
    assert axisTitles == AxisEntry("X-Axis: ", xAxis);
    var values := DescendantsOfKind(cs, "valAx", NS_C);
    axisTitles := AddAxisEntry(axisTitles, "Y-Axis: ", Nth(values, 0));
    axisTitles := AddAxisEntry(axisTitles, "Secondary Y-Axis: ", Nth(values, 1));
    var zAxis := FirstDescendant(cs, "serAx", NS_C);
    axisTitles := AddAxisEntry(axisTitles, "Z-Axis: ", zAxis);
  }

  /** One step of that list: the entry for an axis that is present. */
  method AddAxisEntry(axisTitles: seq<string>, caption: string, axis: Option<Element>) returns (r: seq<string>)
    ensures r == axisTitles + AxisEntry(caption, axis)
  {
    r := axisTitles;
    if axis.Some? {
      r := r + [caption + AxisTitle(axis.value)];
    }
  }

  function Indicator(b: bool): nat { if b then 1 else 0 }
  function Min(a: nat, b: nat): nat { if a <= b then a else b }

  /** One entry per category axis and series axis present, and one per value
      axis up to two: a third value axis is never reported. */
  lemma AxisEntryCount(cs: ChartSpace)
    ensures |AxisEntries(cs)| == Indicator(exists d :: d in Descendants(cs) && Is(d, "catAx", NS_C))
                                 + Min(|DescendantsOfKind(cs, "valAx", NS_C)|, 2)
                                 + Indicator(exists d :: d in Descendants(cs) && Is(d, "serAx", NS_C))
  {
  }

  lemma {:induction false} JoinStartsWithFirst(parts: seq<string>, sep: string)
    requires |parts| >= 1 && |parts[0]| >= 1
    ensures |Join(parts, sep)| >= 1 && Join(parts, sep)[0] == parts[0][0]
  {
  }

  /** "No Axes Titles Found" is reported exactly when the chart has no
      category, value or series axis. */
  lemma NoAxesIff(cs: ChartSpace)
    ensures ChartAxes(cs) == NO_AXES <==>
              forall d :: d in Descendants(cs) ==> !Is(d, "catAx", NS_C) && !Is(d, "valAx", NS_C) && !Is(d, "serAx", NS_C)
  {
    var entries := AxisEntries(cs);
    var values := DescendantsOfKind(cs, "valAx", NS_C);
    if entries != [] {
      assert entries[0][0] in "XYSZ";
      JoinStartsWithFirst(entries, ", ");
      assert ChartAxes(cs)[0] != NO_AXES[0];
      if FirstDescendant(cs, "catAx", NS_C).None? && FirstDescendant(cs, "serAx", NS_C).None? {
        assert |values| > 0;
        assert values[0] in values;
      }
    } else {
      assert |values| == 0;
    }
  }

  /** A category reference: an `f` inside `strRef` inside `cat`. */
  predicate IsCategoryRef(l: Located) { l.node.localName == "f" && l.parent == "strRef" && l.grandparent == "cat" }

  /** A value reference: an `f` inside `numRef` inside `val`. */
  predicate IsValueRef(l: Located) { l.node.localName == "f" && l.parent == "numRef" && l.grandparent == "val" }

  function Element1(parts: seq<string>): Result<string, Fault>
  {
    if |parts| >= 2 then Success(parts[1]) else Failure(IndexOutOfRange)
  }

  /** The combined data source of a category range and a value range
      (`Sheet!$C$1:$C$9`): the category sheet and start cell with the value
      end cell; a range without `!` or without `:` after it makes the array
      indexing throw. */
  function CombineRanges(categoryRange: string, valueRange: string): (r: Result<string, Fault>)
    ensures r.Failure? ==> r.error == IndexOutOfRange
  {
    var sheetName := Split(categoryRange, '!')[0];
    match Element1(Split(categoryRange, '!'))
    case Failure(f) => Failure(f)
    case Success(categoryCells) =>
      var categoryStart := Split(categoryCells, ':')[0];
      match Element1(Split(categoryCells, ':'))
      case Failure(f) => Failure(f)
      case Success(_) =>
        match Element1(Split(valueRange, '!'))
        case Failure(f) => Failure(f)
        case Success(valueCells) =>
          match Element1(Split(valueCells, ':'))
          case Failure(f) => Failure(f)
          case Success(valueEnd) => Success(sheetName + "!" + categoryStart + ":" + valueEnd)
  }

  /** GetRegularChartData. */
  function RegularChartData(cs: ChartSpace): (source: string)
  {
    var located := LocatedDescendants(cs, "");
    var category := FirstLocated(located, IsCategoryRef);
    var value := FirstLocated(located, IsValueRef);
    if category.Some? && value.Some? then
      match CombineRanges(InnerText(category.value.node), InnerText(value.value.node))
      case Success(range) => range
      case Failure(f) => DATA_SOURCE_ERROR + Message(f)
    else
      match FirstNamed(cs, "pivotSource")
      case None => DATA_SOURCE_NOT_FOUND
      case Some(pivot) =>
        match FirstNamed(pivot, "name")
        case None => DATA_SOURCE_NOT_FOUND
        case Some(name) => InnerText(name)
  }

  /** Well-formed references combine into sheet!first-category-cell:last-value-cell. */
  lemma CombineWellFormed(sheet: string, catStart: string, catEnd: string,
                          valueSheet: string, valStart: string, valEnd: string)
    requires '!' !in sheet && '!' !in catStart && '!' !in catEnd
    requires ':' !in catStart && ':' !in catEnd
    requires '!' !in valueSheet && '!' !in valStart && '!' !in valEnd
    requires ':' !in valStart && ':' !in valEnd
    ensures CombineRanges(sheet + "!" + catStart + ":" + catEnd, valueSheet + "!" + valStart + ":" + valEnd)
            == Success(sheet + "!" + catStart + ":" + valEnd)
  {
    var catCells := catStart + ":" + catEnd;
    assert '!' !in catCells;
    NoSepSplit(catCells, '!');
    SplitAround(sheet, catCells, '!');
    assert sheet + "!" + catStart + ":" + catEnd == sheet + ['!'] + catCells;
    NoSepSplit(catEnd, ':');
    SplitAround(catStart, catEnd, ':');
    var valCells := valStart + ":" + valEnd;
    assert '!' !in valCells;
    NoSepSplit(valCells, '!');
    SplitAround(valueSheet, valCells, '!');
    assert valueSheet + "!" + valStart + ":" + valEnd == valueSheet + ['!'] + valCells;
    NoSepSplit(valEnd, ':');
    SplitAround(valStart, valEnd, ':');
  }

  /** The combination of "Sheet1!$C$2:$C$10" with "Sheet1!$D$2:$D$10". */
  lemma CombineExample()
    ensures CombineRanges("Sheet1!$C$2:$C$10", "Sheet1!$D$2:$D$10") == Success("Sheet1!$C$2:$D$10")
  {
    var sheet, c2, c10, d2, d10 := "Sheet1", "$C$2", "$C$10", "$D$2", "$D$10";
    ExampleParts();
    CombineWellFormed(sheet, c2, c10, sheet, d2, d10);
    assert sheet + "!" + c2 + ":" + d10 == "Sheet1!$C$2:$D$10";
  }

  /** The two example references, taken apart. */
  lemma ExampleParts()
    ensures '!' !in "Sheet1" && '!' !in "$C$10" && ':' !in "$C$10" && '!' !in "$D$10" && ':' !in "$D$10"
    ensures "Sheet1" + "!" + "$C$2" + ":" + "$C$10" == "Sheet1!$C$2:$C$10"
    ensures "Sheet1" + "!" + "$D$2" + ":" + "$D$10" == "Sheet1!$D$2:$D$10"
  {
    var sheet, c10, d10 := "Sheet1", "$C$10", "$D$10";
    forall i | 0 <= i < |sheet| ensures sheet[i] != '!' {}
    forall i | 0 <= i < |c10| ensures c10[i] != '!' && c10[i] != ':' {}
    forall i | 0 <= i < |d10| ensures d10[i] != '!' && d10[i] != ':' {}
  }

  /** A category reference without a sheet separator fails. */
  lemma CombineWithoutSheet(categoryRange: string, valueRange: string)
    requires '!' !in categoryRange
    ensures CombineRanges(categoryRange, valueRange) == Failure(IndexOutOfRange)
  {
    NoSepSplit(categoryRange, '!');
  }

  /** When the chart has both a category and a value reference, its data
      source is their combination, or the indexing error, never the pivot
      name nor "Data source not found.". */
  lemma DataSourceFromReferences(cs: ChartSpace, category: Located, value: Located)
    requires FirstLocated(LocatedDescendants(cs, ""), IsCategoryRef) == Some(category)
    requires FirstLocated(LocatedDescendants(cs, ""), IsValueRef) == Some(value)
    ensures var r := CombineRanges(InnerText(category.node), InnerText(value.node));
            RegularChartData(cs) == if r.Success? then r.value else DATA_SOURCE_ERROR + "IndexOutOfRangeException"
  {
  }

  /** Without a category or a value reference, a pivot chart reports the text
      of the first `name` below its first `pivotSource`; a chart with no
      pivot source, or whose pivot source has no name, reports "Data source
      not found.". */
  lemma DataSourceWithoutReferences(cs: ChartSpace, pivot: Element, name: Element)
    requires FirstLocated(LocatedDescendants(cs, ""), IsCategoryRef).None?
             || FirstLocated(LocatedDescendants(cs, ""), IsValueRef).None?
    ensures FirstIn(Descendants(cs), Named("pivotSource"), pivot) && FirstIn(Descendants(pivot), Named("name"), name)
            ==> RegularChartData(cs) == InnerText(name)
    ensures (forall d :: d in Descendants(cs) ==> d.localName != "pivotSource")
            ==> RegularChartData(cs) == DATA_SOURCE_NOT_FOUND
    ensures FirstIn(Descendants(cs), Named("pivotSource"), pivot)
            && (forall d :: d in Descendants(pivot) ==> d.localName != "name")
            ==> RegularChartData(cs) == DATA_SOURCE_NOT_FOUND
    ensures RegularChartData(cs) == DATA_SOURCE_NOT_FOUND
            || exists n :: n in Descendants(cs) && n.localName == "name" && RegularChartData(cs) == InnerText(n)
  {
    if FirstIn(Descendants(cs), Named("pivotSource"), pivot) {
      FirstWhereIsFirst(Descendants(cs), Named("pivotSource"), pivot);
      if FirstIn(Descendants(pivot), Named("name"), name) {
        FirstWhereIsFirst(Descendants(pivot), Named("name"), name);
      }
    }
    var first := FirstNamed(cs, "pivotSource");
    if first.Some? {
      var n := FirstNamed(first.value, "name");
      if n.Some? {
        DescendantsTransitive(cs, first.value, n.value);
      }
    }
  }
}
