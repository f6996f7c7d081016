/** Value and style resolution for one cell: GetCellValue and the style
    lookup inside DetectFormulas (MainWindow.xaml.cs). */
module Resolve {
  import opened Wrappers
  import opened Faults
  import opened Text
  import opened Spreadsheet

  /** `Enumerable.ElementAt(index)`, which throws outside 0 .. |s| - 1. */
  function ElementAt<T>(s: seq<T>, index: int): (r: Result<T, Fault>)
    ensures r.Success? <==> 0 <= index < |s|
    ensures r.Success? ==> r.value == s[index]
    ensures r.Failure? ==> r.error == ArgumentOutOfRange
  {
    if 0 <= index < |s| then Success(s[index]) else Failure(ArgumentOutOfRange)
  }

  /** The unchecked C# cast `(int)u` of a `uint`. */
  function ToInt32(u: UInt32): (i: int)
    ensures INT32_MIN <= i <= INT32_MAX
    ensures u <= INT32_MAX ==> i == u
    ensures u > INT32_MAX ==> i < 0
  {
    if u <= INT32_MAX then u else u - 0x1_0000_0000
  }

  /** The shared-string index a cell refers to: only for a shared-string cell,
      when the workbook has a table and the cell's text parses as an Int32. */
  function SharedIndex(cell: Cell, wb: Workbook): Option<int>
  {
    if cell.dataType == Some(SharedString) && wb.sharedStrings.Some? then TryParseInt32(CellInnerText(cell))
    else None
  }

  /** GetCellValue. */
  function GetCellValue(cell: Cell, wb: Workbook): (r: Result<string, Fault>)
    ensures SharedIndex(cell, wb).None? ==> r == Success(cell.value.GetOr("Empty"))
    ensures SharedIndex(cell, wb).Some? ==>
              var table, i := wb.sharedStrings.value, SharedIndex(cell, wb).value;
              if 0 <= i < |table| then r == Success(table[i]) else r == Failure(ArgumentOutOfRange)
  {
    match SharedIndex(cell, wb)
    case Some(index) => ElementAt(wb.sharedStrings.value, index)
    case None => Success(cell.value.GetOr("Empty"))
  }

  /** What a cell's value can be: its stored text, "Empty", or an entry of the
      shared-string table; a fault happens only for a shared-string cell whose
      index lies outside the table, and then nothing falls back. */
  lemma CellValueCases(cell: Cell, wb: Workbook)
    ensures var r := GetCellValue(cell, wb);
            && (r.Success? ==> Some(r.value) == cell.value || (r.value == "Empty" && cell.value.None?)
                                || (wb.sharedStrings.Some? && r.value in wb.sharedStrings.value))
            && (r.Failure? <==> cell.dataType == Some(SharedString) && wb.sharedStrings.Some?
                                && TryParseInt32(CellInnerText(cell)).Some?
                                && !(0 <= TryParseInt32(CellInnerText(cell)).value < |wb.sharedStrings.value|))
            && (cell.dataType != Some(SharedString) ==> r == Success(cell.value.GetOr("Empty")))
  {
  }

  /** The text of a number format id: the code of the first custom format with
      that id, "General" when none has it (built-in ids included). */
  function NumberFormatCode(id: UInt32, ss: Stylesheet): (code: string)
    ensures ss.numberingFormats.None? ==> code == "General"
    ensures ss.numberingFormats.Some? && FindNumberingFormat(ss.numberingFormats.value, id).None? ==> code == "General"
    ensures ss.numberingFormats.Some? && FindNumberingFormat(ss.numberingFormats.value, id).Some? ==>
              code == FindNumberingFormat(ss.numberingFormats.value, id).value.formatCode.GetOr("General")
  {
    match ss.numberingFormats
    case None => "General"
    case Some(formats) =>
      match FindNumberingFormat(formats, id)
      case None => "General"
      case Some(nf) => nf.formatCode.GetOr("General")
  }

  /** `FirstOrDefault(nf => nf.NumberFormatId == id)`. */
  function FindNumberingFormat(formats: seq<NumberingFormat>, id: UInt32): (r: Option<NumberingFormat>)
    ensures r.None? <==> forall i :: 0 <= i < |formats| ==> formats[i].numberFormatId != Some(id)
    ensures r.Some? ==> exists i :: 0 <= i < |formats| && formats[i] == r.value && r.value.numberFormatId == Some(id)
                                    && forall j :: 0 <= j < i ==> formats[j].numberFormatId != Some(id)
  {
    if formats == [] then None
    else if formats[0].numberFormatId == Some(id) then Some(formats[0])
    else
      var r := FindNumberingFormat(formats[1..], id);
      assert forall j :: 0 <= j < |formats| - 1 ==> formats[1..][j] == formats[j + 1];
      r
  }

  /** The code is that of the first custom format with the id (or "General"
      when that format has no code), and "General" when no custom format has it. */
  lemma NumberFormatCodeOfFirst(id: UInt32, ss: Stylesheet, i: int)
    ensures ss.numberingFormats.Some? && (forall j :: 0 <= j < |ss.numberingFormats.value| ==>
                                            ss.numberingFormats.value[j].numberFormatId != Some(id))
            ==> NumberFormatCode(id, ss) == "General"
    ensures ss.numberingFormats.Some? && 0 <= i < |ss.numberingFormats.value|
            && ss.numberingFormats.value[i].numberFormatId == Some(id)
            && (forall j :: 0 <= j < i ==> ss.numberingFormats.value[j].numberFormatId != Some(id))
            ==> NumberFormatCode(id, ss) == ss.numberingFormats.value[i].formatCode.GetOr("General")
  {
    if ss.numberingFormats.Some? {
      var formats := ss.numberingFormats.value;
      var r := FindNumberingFormat(formats, id);
      if r.Some? && 0 <= i < |formats| && formats[i].numberFormatId == Some(id) {
        var k :| 0 <= k < |formats| && formats[k] == r.value && r.value.numberFormatId == Some(id)
                 && forall j :: 0 <= j < k ==> formats[j].numberFormatId != Some(id);
        assert (forall j :: 0 <= j < i ==> formats[j].numberFormatId != Some(id)) ==> k == i;
      }
    }
  }

  const NUMBER_FORMAT_PREFIX := "  Number Format: "
  const FONT_PREFIX := "  Font: "
  const FILL_PREFIX := "  Fill Color: "
  const BORDERS_PREFIX := "  Borders: Top="

  function FontLine(id: UInt32, ss: Stylesheet): Result<string, Fault>
  {
    var font: Result<Option<Font>, Fault> :=
      match ss.fonts
      case None => Success(None)
      case Some(fonts) =>
        match ElementAt(fonts, ToInt32(id))
        case Failure(f) => Failure(f)
        case Success(font) => Success(Some(font));
    match font
    case Failure(f) => Failure(f)
    case Success(font) =>
      var name := if font.Some? then font.value.fontName.GetOr("Calibri") else "Calibri";
      var size := if font.Some? then font.value.fontSize.GetOr("11") else "11";
      Success(FONT_PREFIX + name + ", Size: " + size)
  }

  function FillLine(id: UInt32, ss: Stylesheet): Result<string, Fault>
  {
    match ss.fills
    case None => Success(FILL_PREFIX + "None")
    case Some(fills) =>
      match ElementAt(fills, ToInt32(id))
      case Failure(f) => Failure(f)
      case Success(fill) => Success(FILL_PREFIX + fill.foregroundRgb.GetOr("None"))
  }

  function BorderLine(id: UInt32, ss: Stylesheet): Result<string, Fault>
  {
    var border: Result<Option<Border>, Fault> :=
      match ss.borders
      case None => Success(None)
      case Some(borders) =>
        match ElementAt(borders, ToInt32(id))
        case Failure(f) => Failure(f)
        case Success(b) => Success(Some(b));
    match border
    case Failure(f) => Failure(f)
    case Success(b) =>
      var top := b.Some? && b.value.hasTop;
      var bottom := b.Some? && b.value.hasBottom;
      Success(BORDERS_PREFIX + BoolText(top) + ", Bottom=" + BoolText(bottom))
  }

  /** A lookup result as output: its one line, or its fault and no line. */
  function Line(r: Result<string, Fault>): Emit
  {
    match r
    case Success(l) => Emit([l], None)
    case Failure(f) => Emit([], Some(f))
  }

  predicate StartsWith(s: string, prefix: string) { |prefix| <= |s| && s[..|prefix|] == prefix }

  /** `e` holds a line for each label of `kinds`, in order, unless an
      out-of-range lookup stopped it early. */
  predicate Follows(e: Emit, kinds: seq<string>)
  {
    && (e.fault.None? ==> |e.lines| == |kinds|)
    && (e.fault.Some? ==> |e.lines| < |kinds| && e.fault == Some(ArgumentOutOfRange))
    && forall k :: 0 <= k < |e.lines| ==> StartsWith(e.lines[k], kinds[k])
  }

  function Label(present: bool, prefix: string): seq<string> { if present then [prefix] else [] }

  function NumberFormatEmit(id: Option<UInt32>, ss: Stylesheet): (e: Emit)
    ensures Follows(e, Label(id.Some?, NUMBER_FORMAT_PREFIX))
    ensures id.Some? ==> e == Emit([NUMBER_FORMAT_PREFIX + NumberFormatCode(id.value, ss)], None)
  {
    if id.Some? then
      var l := NUMBER_FORMAT_PREFIX + NumberFormatCode(id.value, ss);
      assert l[..|NUMBER_FORMAT_PREFIX|] == NUMBER_FORMAT_PREFIX;
      Emit([l], None)
    else Emit([], None)
  }

  /** The font line names the font entry at the id, "Calibri" and 11 standing
      in for a missing name or size (or for the whole entry when there is no
      font table); an id outside the table faults. */
  function FontEmit(id: Option<UInt32>, ss: Stylesheet): (e: Emit)
    ensures Follows(e, Label(id.Some?, FONT_PREFIX))
    ensures id.Some? && ss.fonts.None? ==> e == Emit([FONT_PREFIX + "Calibri" + ", Size: " + "11"], None)
    ensures id.Some? && ss.fonts.Some? && 0 <= ToInt32(id.value) < |ss.fonts.value| ==>
              var font := ss.fonts.value[ToInt32(id.value)];
              e == Emit([FONT_PREFIX + font.fontName.GetOr("Calibri") + ", Size: " + font.fontSize.GetOr("11")], None)
    ensures id.Some? && ss.fonts.Some? && !(0 <= ToInt32(id.value) < |ss.fonts.value|) ==>
              e == Emit([], Some(ArgumentOutOfRange))
  {
    if id.Some? then
      var r := FontLine(id.value, ss);
      assert r.Success? ==> r.value[..|FONT_PREFIX|] == FONT_PREFIX;
      Line(r)
    else Emit([], None)
  }

  /** The fill line gives the foreground colour of the fill entry at the id,
      "None" when it has none or there is no fill table; an id outside the
      table faults. */
  function FillEmit(id: Option<UInt32>, ss: Stylesheet): (e: Emit)
    ensures Follows(e, Label(id.Some?, FILL_PREFIX))
    ensures id.Some? && ss.fills.None? ==> e == Emit([FILL_PREFIX + "None"], None)
    ensures id.Some? && ss.fills.Some? && 0 <= ToInt32(id.value) < |ss.fills.value| ==>
              e == Emit([FILL_PREFIX + ss.fills.value[ToInt32(id.value)].foregroundRgb.GetOr("None")], None)
    ensures id.Some? && ss.fills.Some? && !(0 <= ToInt32(id.value) < |ss.fills.value|) ==>
              e == Emit([], Some(ArgumentOutOfRange))
  {
    if id.Some? then
      var r := FillLine(id.value, ss);
      assert r.Success? ==> r.value[..|FILL_PREFIX|] == FILL_PREFIX;
      Line(r)
    else Emit([], None)
  }

  /** The border line says whether the border entry at the id has a top and
      a bottom edge, both False when there is no border table; an id outside
      the table faults. */
  function BorderEmit(id: Option<UInt32>, ss: Stylesheet): (e: Emit)
    ensures Follows(e, Label(id.Some?, BORDERS_PREFIX))
    ensures id.Some? && ss.borders.None? ==> e == Emit([BORDERS_PREFIX + "False" + ", Bottom=" + "False"], None)
    ensures id.Some? && ss.borders.Some? && 0 <= ToInt32(id.value) < |ss.borders.value| ==>
              var b := ss.borders.value[ToInt32(id.value)];
              e == Emit([BORDERS_PREFIX + BoolText(b.hasTop) + ", Bottom=" + BoolText(b.hasBottom)], None)
    ensures id.Some? && ss.borders.Some? && !(0 <= ToInt32(id.value) < |ss.borders.value|) ==>
              e == Emit([], Some(ArgumentOutOfRange))
  {
    if id.Some? then
      var r := BorderLine(id.value, ss);
      assert r.Success? ==> r.value[..|BORDERS_PREFIX|] == BORDERS_PREFIX;
      Line(r)
    else Emit([], None)
  }

  /** The formatting lines of one cell format, in the order number format,
      font, fill, borders, each only when the format has that id. */
  function FormatLines(cf: CellFormat, ss: Stylesheet): Emit
  {
    Then(NumberFormatEmit(cf.numberFormatId, ss),
      Then(FontEmit(cf.fontId, ss),
        Then(FillEmit(cf.fillId, ss), BorderEmit(cf.borderId, ss))))
  }

  lemma ThenFollows(a: Emit, ka: seq<string>, b: Emit, kb: seq<string>)
    requires Follows(a, ka) && Follows(b, kb)
    ensures Follows(Then(a, b), ka + kb)
  {
    var r := Then(a, b);
    if a.fault.None? {
      forall k | 0 <= k < |r.lines|
        ensures StartsWith(r.lines[k], (ka + kb)[k])
      {
        if k < |a.lines| {
          assert r.lines[k] == a.lines[k];
        } else {
          assert r.lines[k] == b.lines[k - |a.lines|];
        }
      }
    }
  }

  /** The style lookup for a cell with style index `styleIndex`: nothing when
      the workbook has no cell-format table; a fault when the (Int32-cast)
      index lies outside it; otherwise that format's lines. */
  function StyleLines(styleIndex: UInt32, styles: Option<Stylesheet>): Emit
  {
    match styles
    case None => Emit([], None)
    case Some(ss) =>
      match ss.cellFormats
      case None => Emit([], None)
      case Some(formats) =>
        match ElementAt(formats, ToInt32(styleIndex))
        case Failure(f) => Emit([], Some(f))
        case Success(cf) => FormatLines(cf, ss)
  }

  /** The line labels, in output order, of the ids a cell format has. */
  function PresentPrefixes(cf: CellFormat): seq<string>
  {
    Label(cf.numberFormatId.Some?, NUMBER_FORMAT_PREFIX)
    + (Label(cf.fontId.Some?, FONT_PREFIX) + (Label(cf.fillId.Some?, FILL_PREFIX) + Label(cf.borderId.Some?, BORDERS_PREFIX)))
  }

  /** A cell format yields one line per id it has, in the fixed order, each
      starting with that id's label; a lookup that faults cuts the list short
      and the only fault is an out-of-range table index. */
  lemma FormatLinesFollowIds(cf: CellFormat, ss: Stylesheet)
    ensures Follows(FormatLines(cf, ss), PresentPrefixes(cf))
  {
    var n := Label(cf.numberFormatId.Some?, NUMBER_FORMAT_PREFIX);
    var fo := Label(cf.fontId.Some?, FONT_PREFIX);
    var fi := Label(cf.fillId.Some?, FILL_PREFIX);
    var b := Label(cf.borderId.Some?, BORDERS_PREFIX);
    var e1, e2, e3, e4 := NumberFormatEmit(cf.numberFormatId, ss), FontEmit(cf.fontId, ss),
                          FillEmit(cf.fillId, ss), BorderEmit(cf.borderId, ss);
    var t34 := Then(e3, e4);
    ThenFollows(e3, fi, e4, b);
    var t234 := Then(e2, t34);
    ThenFollows(e2, fo, t34, fi + b);
    ThenFollows(e1, n, t234, fo + (fi + b));
    assert FormatLines(cf, ss) == Then(e1, t234);
  }

  /** Whatever the style index, the lookup emits formatting lines in the
      fixed order, one per id of the cell format found; it faults only on an
      out-of-range index. */
  lemma StyleLinesShape(styleIndex: UInt32, ss: Stylesheet)
    requires ss.cellFormats.Some? && 0 <= ToInt32(styleIndex) < |ss.cellFormats.value|
    ensures Follows(StyleLines(styleIndex, Some(ss)), PresentPrefixes(ss.cellFormats.value[ToInt32(styleIndex)]))
  {
    FormatLinesFollowIds(ss.cellFormats.value[ToInt32(styleIndex)], ss);
  }

  /** A style index outside the cell-format table faults before any line is
      written: it does not fall back to default formatting. */
  lemma OutOfRangeStyleIndexFaults(styleIndex: UInt32, ss: Stylesheet)
    requires ss.cellFormats.Some? && !(0 <= ToInt32(styleIndex) < |ss.cellFormats.value|)
    ensures StyleLines(styleIndex, Some(ss)) == Emit([], Some(ArgumentOutOfRange))
  {
  }

  /** The documented defaults: a format with every id, over a stylesheet with
      no custom number formats and no font, fill or border tables, prints
      "General", "Calibri" size 11, fill "None" and no borders. */
  lemma StyleDefaults(styleIndex: UInt32, ss: Stylesheet, n: UInt32, fo: UInt32, fi: UInt32, b: UInt32)
    requires ss.cellFormats.Some? && 0 <= ToInt32(styleIndex) < |ss.cellFormats.value|
    requires ss.cellFormats.value[ToInt32(styleIndex)] == CellFormat(Some(n), Some(fo), Some(fi), Some(b))
    requires ss.numberingFormats.None? && ss.fonts.None? && ss.fills.None? && ss.borders.None?
    ensures StyleLines(styleIndex, Some(ss)) ==
            Emit(["  Number Format: General", "  Font: Calibri, Size: 11", "  Fill Color: None",
                  "  Borders: Top=False, Bottom=False"], None)
  {
    var cf := ss.cellFormats.value[ToInt32(styleIndex)];
    assert NumberFormatCode(n, ss) == "General";
    assert NUMBER_FORMAT_PREFIX + "General" == "  Number Format: General";
    assert NumberFormatEmit(cf.numberFormatId, ss) == Emit(["  Number Format: General"], None);
    assert FONT_PREFIX + "Calibri" + ", Size: " + "11" == "  Font: Calibri, Size: 11";
    assert FontLine(fo, ss) == Success("  Font: Calibri, Size: 11");
    assert FILL_PREFIX + "None" == "  Fill Color: None";
    assert FillLine(fi, ss) == Success("  Fill Color: None");
    assert BORDERS_PREFIX + BoolText(false) + ", Bottom=" + BoolText(false) == "  Borders: Top=False, Bottom=False";
    assert BorderLine(b, ss) == Success("  Borders: Top=False, Bottom=False");
  }
}
