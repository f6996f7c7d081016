/** The getters that describe one extended chart (a `cx:chartSpace` part of
    the 2014 chartex vocabulary): GetExtendedChartTitle,
    GetExtendedChartAxesTitles, GetExtendedChartType,
    IsLegendPresentInExtendedChart, GetExtendedChartName and
    GetExtendedChartData of MainWindow.xaml.cs, and the lines that
    DetectChartElementsForExtendedChart writes from them. A part without an
    XML root (`root == None`) makes every getter that reads it throw a
    NullReferenceException. */
module ExtendedChart {
  import opened Wrappers
  import opened Faults
  import opened Text
  import opened Xml
  import opened Spreadsheet

  const NO_TITLE := "No Title"
  const NO_AXIS_TITLES := "No Axis Titles Found"
  const AXIS_TITLES_ERROR := "Error extracting axis titles: "
  const UNKNOWN_CHART_TYPE := "Unknown Chart Type"
  const CHART_TYPE_ERROR := "Error detecting chart type: "
  const UNNAMED_EXTENDED_CHART := "Unnamed Extended Chart"
  const CHART_NAME_ERROR := "Error detecting extended chart name: "
  const NO_NUMDIM := "No <cx:numDim> element found in chartEx XML."
  const NO_FORMULA := "No formula reference found for chart data."
  const CHART_DATA_ERROR := "Error retrieving extended chart data: "

  /** A DrawingML paragraph holding at least one text run. */
  predicate IsTextParagraph(p: Element) { Is(p, "p", NS_A) && FirstDescendant(p, "t", NS_A).Some? }

  /** GetExtendedChartTitle: the inner text of the first paragraph that has text. */
  function ExtendedChartTitle(root: Option<Element>): (r: Result<string, Fault>)
    ensures root.None? <==> r == Failure(NullReference)
    ensures r.Success? ==>
              r.value == NO_TITLE
              || exists p :: p in Descendants(root.value) && IsTextParagraph(p) && r.value == InnerText(p)
  {
    match root
    case None => Failure(NullReference)
    case Some(e) =>
      match FirstWhere(Descendants(e), IsTextParagraph)
      case None => Success(NO_TITLE)
      case Some(p) => Success(InnerText(p))
  }

  /** The title is the inner text of the first paragraph that has text,
      "No Title" when the part has no such paragraph. */
  lemma ExtendedTitleOfFirstParagraph(root: Element, p: Element)
    ensures (forall d :: d in Descendants(root) ==> !IsTextParagraph(d)) ==> ExtendedChartTitle(Some(root)) == Success(NO_TITLE)
    ensures FirstIn(Descendants(root), IsTextParagraph, p) ==> ExtendedChartTitle(Some(root)) == Success(InnerText(p))
  {
    if FirstIn(Descendants(root), IsTextParagraph, p) {
      FirstWhereIsFirst(Descendants(root), IsTextParagraph, p);
    }
  }

  /** An `axis` element with a `title` somewhere below it. */
  predicate IsTitledAxis(e: Element) { e.localName == "axis" && FirstNamed(e, "title").Some? }

  /** What one titled axis contributes: the inner text of the first `t` below
      its first `title`, or nothing when that title has no text element. */
  function AxisTitleOf(axis: Element): (r: seq<string>)
    ensures |r| <= 1
    ensures |r| == 1 ==> exists t :: t in Descendants(axis) && t.localName == "t" && r[0] == InnerText(t)
  {
    match FirstNamed(axis, "title")
    case None => []
    case Some(title) =>
      match FirstNamed(title, "t")
      case None => []
      case Some(t) =>
        DescendantsTransitive(axis, title, t);
        [InnerText(t)]
  }

  /** An axis contributes the inner text of the first `t` below its first
      `title`, and nothing when it has no title or that title has no `t`. */
  lemma AxisTitleOfFirstTitle(axis: Element, title: Element, t: Element)
    ensures (forall d :: d in Descendants(axis) ==> d.localName != "title") ==> AxisTitleOf(axis) == []
    ensures FirstIn(Descendants(axis), Named("title"), title)
            && (forall d :: d in Descendants(title) ==> d.localName != "t")
            ==> AxisTitleOf(axis) == []
    ensures FirstIn(Descendants(axis), Named("title"), title) && FirstIn(Descendants(title), Named("t"), t)
            ==> AxisTitleOf(axis) == [InnerText(t)]
  {
    if FirstIn(Descendants(axis), Named("title"), title) {
      FirstWhereIsFirst(Descendants(axis), Named("title"), title);
      if FirstIn(Descendants(title), Named("t"), t) {
        FirstWhereIsFirst(Descendants(title), Named("t"), t);
      }
    }
  }

  /** The titles the loop collects from `axes`, in order. */
  function TitlesOf(axes: seq<Element>): (r: seq<string>)
    ensures |r| <= |axes|
  {
    if axes == [] then [] else TitlesOf(axes[..|axes| - 1]) + AxisTitleOf(axes[|axes| - 1])
  }

  lemma TitlesOfSnoc(axes: seq<Element>, i: nat)
    requires i < |axes|
    ensures TitlesOf(axes[..i + 1]) == TitlesOf(axes[..i]) + AxisTitleOf(axes[i])
  {
    assert axes[..i + 1][..i] == axes[..i];
  }

  /** The titled axes of a chartex part, in document order. */
  function TitledAxes(e: Element): seq<Element>
  {
    Filter(Descendants(e), IsTitledAxis)
  }

  /** What GetExtendedChartAxesTitles returns. */
  function ExtendedAxesTitles(root: Option<Element>): seq<string>
  {
    match root
    case None => [AXIS_TITLES_ERROR + Message(NullReference)]
    case Some(e) =>
      var titles := TitlesOf(TitledAxes(e));
      if titles == [] then [NO_AXIS_TITLES] else titles
  }

  /** The loop of GetExtendedChartAxesTitles over the titled axes: each
      axis adds the text of its title, when the title has a text element. */
  method CollectAxisTitles(axisElements: seq<Element>) returns (axisTitles: seq<string>)
    ensures axisTitles == TitlesOf(axisElements)
  {
    axisTitles := [];
    var i := 0;
    while i < |axisElements|
      invariant 0 <= i <= |axisElements|
      invariant axisTitles == TitlesOf(axisElements[..i])
    {
      var title := ReadAxisTitle(axisElements[i]);
      axisTitles := axisTitles + title;
      TitlesOfSnoc(axisElements, i);
      i := i + 1;
    }
    assert axisElements[..i] == axisElements;
  }

  /** The body of that loop for one axis: the text of its title's text
      element, when it has both. */
  method ReadAxisTitle(axis: Element) returns (title: seq<string>)
    ensures title == AxisTitleOf(axis)
  {
    title := [];
    var titleElement := FirstNamed(axis, "title");
    if titleElement.Some? {
      var textElement := FirstNamed(titleElement.value, "t");
      if textElement.Some? {
        title := [InnerText(textElement.value)];
      }
    }
  }

  /** GetExtendedChartAxesTitles. */
  method GetExtendedChartAxesTitles(root: Option<Element>) returns (axisTitles: seq<string>)
    ensures axisTitles == ExtendedAxesTitles(root)
  {
    if root.None? {
      axisTitles := [AXIS_TITLES_ERROR + Message(NullReference)];
    } else {
      axisTitles := CollectAxisTitles(TitledAxes(root.value));
      if |axisTitles| == 0 {
        axisTitles := [NO_AXIS_TITLES];
      }
    }
  }

  /** `s` is the inner text of some `t` element below `e`. */
  predicate IsTextBelow(e: Element, s: string)
  {
    exists t :: t in Descendants(e) && t.localName == "t" && s == InnerText(t)
  }

  /** Every collected title is the text of a `t` element of the chart. */
  lemma {:induction false} TitlesAreTexts(e: Element, axes: seq<Element>)
    requires forall a :: a in axes ==> a in Descendants(e)
    ensures forall k :: 0 <= k < |TitlesOf(axes)| ==> IsTextBelow(e, TitlesOf(axes)[k])
  {
    if axes != [] {
      var front, last := axes[..|axes| - 1], axes[|axes| - 1];
      assert forall a :: a in front ==> a in axes;
      TitlesAreTexts(e, front);
      var own := AxisTitleOf(last);
      var titles := TitlesOf(axes);
      assert titles == TitlesOf(front) + own;
      forall k | 0 <= k < |titles|
        ensures IsTextBelow(e, titles[k])
      {
        if k < |TitlesOf(front)| {
          assert titles[k] == TitlesOf(front)[k];
        } else {
          assert titles[k] == own[0];
          var t :| t in Descendants(last) && t.localName == "t" && own[0] == InnerText(t);
          DescendantsTransitive(e, last, t);
        }
      }
    }
  }

  /** The axis titles list is never empty; for a readable part it holds at
      most one title per titled axis, each the text of a `t` element, or the
      single "No Axis Titles Found". */
  lemma AxesTitlesShape(root: Option<Element>)
    ensures |ExtendedAxesTitles(root)| >= 1
    ensures root.Some? && ExtendedAxesTitles(root) != [NO_AXIS_TITLES] ==>
              |ExtendedAxesTitles(root)| <= |TitledAxes(root.value)|
              && forall k :: 0 <= k < |ExtendedAxesTitles(root)| ==> IsTextBelow(root.value, ExtendedAxesTitles(root)[k])
  {
    if root.Some? {
      TitlesAreTexts(root.value, TitledAxes(root.value));
    }
  }

  /** A `series` element carrying at least one attribute. */
  predicate IsAttributedSeries(e: Element) { e.localName == "series" && HasAttributes(e) }

  /** GetExtendedChartType: the `layoutId` of the first attributed series. */
  function ExtendedChartType(root: Option<Element>): (kind: string)
    ensures root.None? ==> kind == CHART_TYPE_ERROR + "NullReferenceException"
    ensures root.Some? ==>
              || kind == UNKNOWN_CHART_TYPE
              || kind == CHART_TYPE_ERROR + "KeyNotFoundException"
              || (kind != "" && exists s :: s in Descendants(root.value) && IsAttributedSeries(s)
                                            && Attr(s, "", "layoutId") == Some(kind))
  {
    match root
    case None => CHART_TYPE_ERROR + Message(NullReference)
    case Some(e) =>
      match FirstWhere(Descendants(e), IsAttributedSeries)
      case None => UNKNOWN_CHART_TYPE
      case Some(series) =>
        match GetAttribute(series, "layoutId", "")
        case Failure(f) => CHART_TYPE_ERROR + Message(f)
        case Success(layoutId) => if layoutId != "" then layoutId else UNKNOWN_CHART_TYPE
  }

  /** The type is read from the first attributed series: its `layoutId`,
      "Unknown Chart Type" when that is empty or there is no such series, and
      the KeyNotFound error line when the series has no `layoutId`. */
  lemma ExtendedTypeOfFirstSeries(root: Element, series: Element)
    ensures (forall d :: d in Descendants(root) ==> !IsAttributedSeries(d))
            ==> ExtendedChartType(Some(root)) == UNKNOWN_CHART_TYPE
    ensures FirstIn(Descendants(root), IsAttributedSeries, series)
            ==> ExtendedChartType(Some(root)) == match Attr(series, "", "layoutId")
                                                 case None => CHART_TYPE_ERROR + "KeyNotFoundException"
                                                 case Some(id) => if id == "" then UNKNOWN_CHART_TYPE else id
  {
    if FirstIn(Descendants(root), IsAttributedSeries, series) {
      FirstWhereIsFirst(Descendants(root), IsAttributedSeries, series);
    }
  }

  /** IsLegendPresentInExtendedChart. */
  function ExtendedChartLegend(root: Option<Element>): (r: Result<bool, Fault>)
    ensures root.None? <==> r == Failure(NullReference)
    ensures r.Success? ==> (r.value <==> exists d :: d in Descendants(root.value) && d.localName == "legend")
  {
    match root
    case None => Failure(NullReference)
    case Some(e) => Success(FirstNamed(e, "legend").Some?)
  }

  /** The predicate GetExtendedChartName searches the graphic frames with:
      a frame with non-visual drawing properties whose chartex reference
      carries relationship id `chartId`; reading an absent id throws. */
  function FrameRefersTo(frame: Element, chartId: string): (r: Result<bool, Fault>)
    ensures r.Failure? ==> r.error == KeyNotFound
  {
    match FirstDescendant(frame, "nvGraphicFramePr", NS_XDR)
    case None => Success(false)
    case Some(nv) =>
      match FirstChild(nv, "cNvPr", NS_XDR)
      case None => Success(false)
      case Some(_) =>
        match FirstDescendant(frame, "chart", NS_CX)
        case None => Success(false)
        case Some(chart) =>
          match GetAttribute(chart, "id", NS_R)
          case Failure(f) => Failure(f)
          case Success(id) => Success(id == chartId)
  }

  /** The frame test of the name search, for the chart `chartId`. */
  function RefersTo(chartId: string): Element -> Result<bool, Fault>
  {
    (f: Element) => FrameRefersTo(f, chartId)
  }

  /** The name stored in the properties of a graphic frame, if it has them. */
  function FrameName(frame: Element): Option<string>
  {
    match FirstChild(frame, "nvGraphicFramePr", NS_XDR)
    case None => None
    case Some(nv) =>
      match FirstChild(nv, "cNvPr", NS_XDR)
      case None => None
      case Some(props) => Some(Attr(props, "", "name").GetOr(UNNAMED_EXTENDED_CHART))
  }

  /** GetExtendedChartName: the name of the first graphic frame of the drawing
      that refers to the chart `chartId`. */
  function ExtendedChartName(drawing: Element, chartId: string): (name: string)
  {
    var frames := DescendantsOfKind(drawing, "graphicFrame", NS_XDR);
    match FirstWhereOrFault(frames, RefersTo(chartId))
    case Failure(f) => CHART_NAME_ERROR + Message(f)
    case Success(None) => UNNAMED_EXTENDED_CHART
    case Success(Some(frame)) => FrameName(frame).GetOr(UNNAMED_EXTENDED_CHART)
  }

  /** The three outcomes of the name search: the default, the KeyNotFound
      error line, or the stored name of a frame that refers to the chart. */
  lemma ExtendedChartNameCases(drawing: Element, chartId: string)
    ensures var name := ExtendedChartName(drawing, chartId);
            name == UNNAMED_EXTENDED_CHART || name == CHART_NAME_ERROR + Message(KeyNotFound)
            || exists f :: f in DescendantsOfKind(drawing, "graphicFrame", NS_XDR)
                           && FrameRefersTo(f, chartId) == Success(true) && FrameName(f) == Some(name)
  {
    FrameSearchFault(DescendantsOfKind(drawing, "graphicFrame", NS_XDR), chartId);
  }

  /** The name is taken from the first graphic frame that refers to the
      chart, provided every earlier frame was tested without a fault. */
  lemma NameOfFirstReferringFrame(drawing: Element, chartId: string, i: nat)
    requires i < |DescendantsOfKind(drawing, "graphicFrame", NS_XDR)|
    requires FrameRefersTo(DescendantsOfKind(drawing, "graphicFrame", NS_XDR)[i], chartId) == Success(true)
    requires forall j :: 0 <= j < i ==> FrameRefersTo(DescendantsOfKind(drawing, "graphicFrame", NS_XDR)[j], chartId) == Success(false)
    ensures ExtendedChartName(drawing, chartId)
            == FrameName(DescendantsOfKind(drawing, "graphicFrame", NS_XDR)[i]).GetOr(UNNAMED_EXTENDED_CHART)
  {
    var frames := DescendantsOfKind(drawing, "graphicFrame", NS_XDR);
    var test := RefersTo(chartId);
    assert test(frames[i]) == Success(true);
    assert forall j :: 0 <= j < i ==> test(frames[j]) == Success(false);
    FirstTestedTrue(frames, test, i);
  }

  /** An earlier frame whose chart reference has no id makes the search throw:
      the name is the KeyNotFound error line, whatever later frames hold. */
  lemma NameAfterEarlierFault(drawing: Element, chartId: string, i: nat)
    requires i < |DescendantsOfKind(drawing, "graphicFrame", NS_XDR)|
    requires FrameRefersTo(DescendantsOfKind(drawing, "graphicFrame", NS_XDR)[i], chartId).Failure?
    requires forall j :: 0 <= j < i ==> FrameRefersTo(DescendantsOfKind(drawing, "graphicFrame", NS_XDR)[j], chartId) == Success(false)
    ensures ExtendedChartName(drawing, chartId) == CHART_NAME_ERROR + Message(KeyNotFound)
  {
    var frames := DescendantsOfKind(drawing, "graphicFrame", NS_XDR);
    var test := RefersTo(chartId);
    assert FirstWhereOrFault(frames, test).Failure? by {
      assert test(frames[i]).Failure?;
      assert forall j :: 0 <= j < i ==> test(frames[j]) == Success(false);
      FirstTestedFault(frames, test, i);
    }
    NameOfSearchFault(drawing, chartId);
  }

  /** A search that throws reports the KeyNotFound error line as the name. */
  lemma NameOfSearchFault(drawing: Element, chartId: string)
    requires FirstWhereOrFault(DescendantsOfKind(drawing, "graphicFrame", NS_XDR), RefersTo(chartId)).Failure?
    ensures ExtendedChartName(drawing, chartId) == CHART_NAME_ERROR + Message(KeyNotFound)
  {
    var frames := DescendantsOfKind(drawing, "graphicFrame", NS_XDR);
    var r := FirstWhereOrFault(frames, RefersTo(chartId));
    assert r == Failure(KeyNotFound) by {
      FrameSearchFault(frames, chartId);
    }
  }

  /** When no graphic frame of the drawing refers to the chart, the default
      name is reported. */
  lemma NameWithoutFrame(drawing: Element, chartId: string)
    requires forall f :: f in DescendantsOfKind(drawing, "graphicFrame", NS_XDR) ==> FrameRefersTo(f, chartId) == Success(false)
    ensures ExtendedChartName(drawing, chartId) == UNNAMED_EXTENDED_CHART
  {
    var frames := DescendantsOfKind(drawing, "graphicFrame", NS_XDR);
    assert forall i :: 0 <= i < |frames| ==> FrameRefersTo(frames[i], chartId) == Success(false);
  }

  /** The search for the frame of a chart can only throw KeyNotFound. */
  lemma FrameSearchFault(frames: seq<Element>, chartId: string)
    ensures var r := FirstWhereOrFault(frames, RefersTo(chartId));
            r.Failure? ==> r.error == KeyNotFound
  {
  }

  /** A reported name, other than the default and the error for a chartex
      reference without an id, is the name of a graphic frame of the drawing
      whose chartex reference carries the requested id. */
  lemma NameBelongsToChart(drawing: Element, chartId: string)
    requires ExtendedChartName(drawing, chartId) != UNNAMED_EXTENDED_CHART
    requires ExtendedChartName(drawing, chartId) != CHART_NAME_ERROR + Message(KeyNotFound)
    ensures exists f :: f in Descendants(drawing) && Is(f, "graphicFrame", NS_XDR)
                        && FrameRefersTo(f, chartId) == Success(true)
                        && FrameName(f) == Some(ExtendedChartName(drawing, chartId))
  {
    var frames := DescendantsOfKind(drawing, "graphicFrame", NS_XDR);
    var r := FirstWhereOrFault(frames, RefersTo(chartId));
    if r.Failure? {
      NameOfSearchFault(drawing, chartId);
      assert false;
    } else if r.value.None? {
      assert false;
    } else {
      FoundFrame(drawing, chartId, r.value.value);
    }
  }

  /** The frame the name search stops at is a graphic frame of the drawing
      that refers to the chart. */
  lemma FoundFrame(drawing: Element, chartId: string, frame: Element)
    requires FirstWhereOrFault(DescendantsOfKind(drawing, "graphicFrame", NS_XDR), RefersTo(chartId)) == Success(Some(frame))
    ensures frame in Descendants(drawing) && Is(frame, "graphicFrame", NS_XDR)
    ensures FrameRefersTo(frame, chartId) == Success(true)
  {
    var frames := DescendantsOfKind(drawing, "graphicFrame", NS_XDR);
    var i :| 0 <= i < |frames| && frames[i] == frame && RefersTo(chartId)(frames[i]) == Success(true);
  }

  /** A `numDim` element carrying at least one attribute. */
  predicate IsAttributedDimension(e: Element) { e.localName == "numDim" && HasAttributes(e) }

  /** `DefinedNames.FirstOrDefault(dn => dn.Name == formula)`. */
  function FindDefinedName(names: seq<DefinedName>, formula: string): (r: Option<DefinedName>)
    ensures r.None? <==> forall i :: 0 <= i < |names| ==> names[i].name != Some(formula)
    ensures r.Some? ==> exists i :: 0 <= i < |names| && names[i] == r.value && r.value.name == Some(formula)
                                    && forall j :: 0 <= j < i ==> names[j].name != Some(formula)
  {
    if names == [] then None
    else if names[0].name == Some(formula) then Some(names[0])
    else
      var r := FindDefinedName(names[1..], formula);
      assert forall j :: 0 <= j < |names| - 1 ==> names[1..][j] == names[j + 1];
      r
  }

  /** The formula text of the first attributed `numDim`, "" when it has none. */
  function FormulaReference(dimension: Element): string
  {
    match FirstNamed(dimension, "f")
    case None => ""
    case Some(f) => InnerText(f)
  }

  /** GetExtendedChartData: exactly one entry, the workbook range behind the
      chart's formula reference or the reason there is none. */
  function ExtendedChartData(root: Option<Element>, definedNames: Option<seq<DefinedName>>): (data: seq<string>)
    ensures |data| == 1
  {
    match root
    case None => [CHART_DATA_ERROR + Message(NullReference)]
    case Some(e) =>
      match FirstWhere(Descendants(e), IsAttributedDimension)
      case None => [NO_NUMDIM]
      case Some(dimension) =>
        var formula := FormulaReference(dimension);
        if formula == "" then [NO_FORMULA] else [ResolveReference(formula, definedNames)]
  }

  /** The entry for a non-empty formula reference: the text of the defined
      name it names, or why it could not be resolved. */
  function ResolveReference(formula: string, definedNames: Option<seq<DefinedName>>): string
  {
    match definedNames
    case None => CHART_DATA_ERROR + Message(NullReference)
    case Some(names) =>
      match FindDefinedName(names, formula)
      case None => "Defined name '" + formula + "' not found in workbook."
      case Some(dn) => dn.text
  }

  /** The reasons reported instead of data: no root, no attributed `numDim`,
      or a first attributed `numDim` without a formula reference. */
  lemma DataWithoutFormula(e: Element, definedNames: Option<seq<DefinedName>>, d: Element)
    ensures ExtendedChartData(None, definedNames) == [CHART_DATA_ERROR + "NullReferenceException"]
    ensures (forall x :: x in Descendants(e) ==> !IsAttributedDimension(x))
            ==> ExtendedChartData(Some(e), definedNames) == [NO_NUMDIM]
    ensures FirstIn(Descendants(e), IsAttributedDimension, d) && FormulaReference(d) == ""
            ==> ExtendedChartData(Some(e), definedNames) == [NO_FORMULA]
  {
    if FirstIn(Descendants(e), IsAttributedDimension, d) {
      FirstWhereIsFirst(Descendants(e), IsAttributedDimension, d);
    }
  }

  /** A formula reference names a workbook range: the reported data is the
      text of the first defined name spelled exactly like the reference. */
  lemma DataResolvesDefinedName(formula: string, names: seq<DefinedName>, i: nat)
    requires i < |names| && names[i].name == Some(formula)
    requires forall j :: 0 <= j < i ==> names[j].name != Some(formula)
    ensures ResolveReference(formula, Some(names)) == names[i].text
  {
    FindFirstDefinedName(names, formula, i);
  }

  /** The search stops at the first name spelled like the reference. */
  lemma {:induction false} FindFirstDefinedName(names: seq<DefinedName>, formula: string, i: nat)
    requires i < |names| && names[i].name == Some(formula)
    requires forall j :: 0 <= j < i ==> names[j].name != Some(formula)
    ensures FindDefinedName(names, formula) == Some(names[i])
  {
    if i > 0 {
      assert names[0].name != Some(formula);
      FindFirstDefinedName(names[1..], formula, i - 1);
    }
  }

  /** An unknown reference is reported by name. */
  lemma DataUnknownName(formula: string, names: seq<DefinedName>)
    requires forall j :: 0 <= j < |names| ==> names[j].name != Some(formula)
    ensures ResolveReference(formula, Some(names)) == "Defined name '" + formula + "' not found in workbook."
  {
  }

  /** The single data entry of a chart whose first attributed dimension has a
      formula reference is that reference resolved against the workbook. */
  lemma DataOfReference(e: Element, dimension: Element, definedNames: Option<seq<DefinedName>>)
    requires FirstWhere(Descendants(e), IsAttributedDimension) == Some(dimension)
    requires FormulaReference(dimension) != ""
    ensures ExtendedChartData(Some(e), definedNames) == [ResolveReference(FormulaReference(dimension), definedNames)]
  {
  }

  function YesNo(b: bool): string { if b then "Yes" else "No" }

  /** The lines DetectChartElementsForExtendedChart writes: one error line for
      each getter that threw out of it (only the title and legend getters let
      an exception escape), then the six detail lines, with "No Title" and no
      legend standing in for the values that could not be read. */
  function ExtendedChartLines(root: Option<Element>, drawing: Element, chartId: string,
                              definedNames: Option<seq<DefinedName>>): seq<string>
  {
    ExtendedErrorLines(root) + ExtendedDetails(root, drawing, chartId, definedNames)
  }

  /** The error lines of the title and legend reads, in that order. */
  function ExtendedErrorLines(root: Option<Element>): seq<string>
  {
    var title := ExtendedChartTitle(root);
    var legend := ExtendedChartLegend(root);
    (if title.Failure? then ["Error detecting title: " + Message(title.error)] else [])
    + (if legend.Failure? then ["Error detecting legend: " + Message(legend.error)] else [])
  }

  /** The six detail lines, with "No Title" and no legend where those reads threw. */
  function ExtendedDetails(root: Option<Element>, drawing: Element, chartId: string,
                           definedNames: Option<seq<DefinedName>>): seq<string>
  {
    var title := ExtendedChartTitle(root);
    var legend := ExtendedChartLegend(root);
    ["Chart Name: " + ExtendedChartName(drawing, chartId),
     "Chart Title: " + (if title.Success? then title.value else NO_TITLE),
     "Chart Type: " + ExtendedChartType(root),
     "Legend Present: " + YesNo(legend == Success(true)),
     "Axes Titles: " + Join(ExtendedAxesTitles(root), ", "),
     "Chart Data: " + Join(ExtendedChartData(root, definedNames), ", ")]
  }

  /** A part with an XML root gives exactly the six detail lines, headed by
      the chart's name. */
  lemma ExtendedLinesReadable(root: Element, drawing: Element, chartId: string,
                              definedNames: Option<seq<DefinedName>>)
    ensures var lines := ExtendedChartLines(Some(root), drawing, chartId, definedNames);
            |lines| == 6 && lines[0] == "Chart Name: " + ExtendedChartName(drawing, chartId)
  {
    assert ExtendedErrorLines(Some(root)) == [];
    var details := ExtendedDetails(Some(root), drawing, chartId, definedNames);
    assert [] + details == details;
  }

  /** A part without an XML root gives the title and legend errors first,
      then reports "No Title", no legend, and the errors of the type, axes and
      data getters. */
  lemma ExtendedLinesUnreadable(drawing: Element, chartId: string, definedNames: Option<seq<DefinedName>>)
    ensures var nre := Message(NullReference);
            ExtendedChartLines(None, drawing, chartId, definedNames) ==
              ["Error detecting title: " + nre,
               "Error detecting legend: " + nre,
               "Chart Name: " + ExtendedChartName(drawing, chartId),
               "Chart Title: " + NO_TITLE,
               "Chart Type: " + (CHART_TYPE_ERROR + nre),
               "Legend Present: " + "No",
               "Axes Titles: " + (AXIS_TITLES_ERROR + nre),
               "Chart Data: " + (CHART_DATA_ERROR + nre)]
  {
    UnreadableErrors();
    UnreadableDetails(drawing, chartId, definedNames);
  }

  lemma UnreadableErrors()
    ensures ExtendedErrorLines(None) == ["Error detecting title: " + Message(NullReference),
                                         "Error detecting legend: " + Message(NullReference)]
  {
    assert ExtendedChartTitle(None) == Failure(NullReference);
    assert ExtendedChartLegend(None) == Failure(NullReference);
  }

  lemma UnreadableDetails(drawing: Element, chartId: string, definedNames: Option<seq<DefinedName>>)
    ensures var nre := Message(NullReference);
            ExtendedDetails(None, drawing, chartId, definedNames) ==
              ["Chart Name: " + ExtendedChartName(drawing, chartId),
               "Chart Title: " + NO_TITLE,
               "Chart Type: " + (CHART_TYPE_ERROR + nre),
               "Legend Present: " + "No",
               "Axes Titles: " + (AXIS_TITLES_ERROR + nre),
               "Chart Data: " + (CHART_DATA_ERROR + nre)]
  {
    var nre := Message(NullReference);
    assert ExtendedChartTitle(None).Failure?;
    assert ExtendedChartLegend(None) != Success(true);
    assert ExtendedChartType(None) == CHART_TYPE_ERROR + nre;
    assert Join(ExtendedAxesTitles(None), ", ") == AXIS_TITLES_ERROR + nre;
    assert Join(ExtendedChartData(None, definedNames), ", ") == CHART_DATA_ERROR + nre;
  }
}
