/** The address codec: zero-based (column, row) pairs and their "AA12"-style
    references, range containment, and the span of a drawing anchor
    (MainWindow.xaml.cs, GetColumnLetters .. GetRowIndex). */
module Address {
  import opened Wrappers
  import opened Faults
  import opened Text
  import opened Xml

  /** The letters of zero-based column `c`: bijective base 26 over 'A'..'Z'
      (0 is "A", 25 is "Z", 26 is "AA"); a negative index has no letters. */
  function ColumnLetters(c: int): (s: string)
    ensures c < 0 <==> s == ""
    ensures forall i :: 0 <= i < |s| ==> IsUpper(s[i])
    decreases c + 1
  {
    if c < 0 then "" else ColumnLetters(c / 26 - 1) + [('A' as int + c % 26) as char]
  }

  /** GetColumnLetters: the source's loop, which prepends one letter per step. */
  method GetColumnLetters(columnIndex: int) returns (columnLetters: string)
    ensures columnLetters == ColumnLetters(columnIndex)
  {
    columnLetters := "";
    var index := columnIndex;
    while index >= 0
      invariant ColumnLetters(columnIndex) == ColumnLetters(index) + columnLetters
      decreases index + 1
    {
      columnLetters := [('A' as int + index % 26) as char] + columnLetters;
      index := index / 26 - 1;
    }
  }

  /** The value of a run of letters read as bijective base 26, in unbounded
      integers ('A' is 1, 'Z' is 26, "AA" is 27). */
  function LettersValue(s: string): int
  {
    if s == [] then 0 else LettersValue(s[..|s| - 1]) * 26 + (s[|s| - 1] as int - 'A' as int + 1)
  }

  /** The same fold with C#'s wrap-around `int` arithmetic. */
  function LettersValue32(s: string): int
  {
    if s == [] then 0 else Wrap32(LettersValue32(s[..|s| - 1]) * 26 + (s[|s| - 1] as int - 'A' as int + 1))
  }

  /** GetColumnIndex: the letters of a reference (digits and other characters
      dropped) read back as a zero-based column. */
  function ColumnIndex(cellReference: string): int
  {
    Wrap32(LettersValue32(Keep(cellReference, IsLetter)) - 1)
  }

  /** GetColumnIndex as the source writes it, with its accumulating foreach loop. */
  method GetColumnIndex(cellReference: string) returns (column: int)
    ensures column == ColumnIndex(cellReference)
  {
    var columnLetters := Keep(cellReference, IsLetter);
    var index := 0;
    var i := 0;
    while i < |columnLetters|
      invariant 0 <= i <= |columnLetters|
      invariant index == LettersValue32(columnLetters[..i])
    {
      assert columnLetters[..i + 1][..i] == columnLetters[..i];
      index := Wrap32(index * 26 + (columnLetters[i] as int - 'A' as int + 1));
      i := i + 1;
    }
    assert columnLetters[..i] == columnLetters;
    column := Wrap32(index - 1);
  }

  lemma {:induction false} LettersValueOfColumn(c: int)
    requires c >= 0
    ensures LettersValue(ColumnLetters(c)) == c + 1
    decreases c
  {
    var s := ColumnLetters(c);
    assert s[..|s| - 1] == ColumnLetters(c / 26 - 1);
    if c / 26 - 1 >= 0 {
      LettersValueOfColumn(c / 26 - 1);
    }
  }

  /** Two values congruent modulo 2^32 wrap to the same Int32. */
  lemma Wrap32Congruent(x: int, y: int)
    requires (x - y) % 0x1_0000_0000 == 0
    ensures Wrap32(x) == Wrap32(y)
  {
    var k := (x - y) / 0x1_0000_0000;
    assert x - INT32_MIN == (y - INT32_MIN) + 0x1_0000_0000 * k;
    ShiftMod(y - INT32_MIN, k);
  }

  lemma ShiftMod(a: int, k: int)
    ensures (a + 0x1_0000_0000 * k) % 0x1_0000_0000 == a % 0x1_0000_0000
  {
    var q, r := a / 0x1_0000_0000, a % 0x1_0000_0000;
    assert a + 0x1_0000_0000 * k == 0x1_0000_0000 * (q + k) + r;
  }

  /** The wrapping fold is the unbounded value reduced to 32 bits: C#'s
      unchecked `index * 26 + digit` loses nothing that matters modulo 2^32. */
  lemma {:induction false} LettersValue32Wraps(s: string)
    ensures LettersValue32(s) == Wrap32(LettersValue(s))
    decreases |s|
  {
    if s != [] {
      var p := s[..|s| - 1];
      var d := s[|s| - 1] as int - 'A' as int + 1;
      LettersValue32Wraps(p);
      var v, w := LettersValue(p), Wrap32(LettersValue(p));
      var k := (w - v) / 0x1_0000_0000;
      assert w - v == 0x1_0000_0000 * k;
      assert (w * 26 + d) - (v * 26 + d) == 0x1_0000_0000 * (26 * k);
      ShiftMod(0, 26 * k);
      Wrap32Congruent(w * 26 + d, v * 26 + d);
    }
  }

  /** Column round trip: the letters of every non-negative Int32 column read
      back as that column. At Int32.MaxValue the fold wraps to Int32.MinValue
      and the final `- 1` wraps back. */
  lemma ColumnRoundTrip(c: int)
    requires 0 <= c <= INT32_MAX
    ensures ColumnLetters(c) != "" && ColumnIndex(ColumnLetters(c)) == c
  {
    var s := ColumnLetters(c);
    KeepAll(s, IsLetter);
    LettersValueOfColumn(c);
    LettersValue32Wraps(s);
    UnwrapSuccessor(c);
  }

  /** Adding one and subtracting one with wrap-around gives back any Int32. */
  lemma UnwrapSuccessor(c: int)
    requires INT32_MIN <= c <= INT32_MAX
    ensures Wrap32(Wrap32(c + 1) - 1) == c
  {
    var w := Wrap32(c + 1);
    var k := (w - (c + 1)) / 0x1_0000_0000;
    assert (w - 1) - c == 0x1_0000_0000 * k;
    ShiftMod(0, k);
    Wrap32Congruent(w - 1, c);
  }

  /** Distinct columns have distinct letters. */
  lemma ColumnLettersInjective(c: int, d: int)
    requires 0 <= c <= INT32_MAX && 0 <= d <= INT32_MAX
    requires ColumnLetters(c) == ColumnLetters(d)
    ensures c == d
  {
    ColumnRoundTrip(c);
    ColumnRoundTrip(d);
  }

  /** GetRowIndex: the digits of a reference read as a one-based row, made
      zero-based; -1 when they do not parse (no digits, or too many). */
  function RowIndex(cellReference: string): (row: int)
    ensures Keep(cellReference, IsDigit) == "" ==> row == -1
  {
    // The digits-only text parses to a non-negative value, so `result - 1` cannot wrap.
    match TryParseInt32(Keep(cellReference, IsDigit))
    case Some(result) => result - 1
    case None => -1
  }

  /** GetExcelCellReference: the column's letters followed by the one-based row. */
  function GetExcelCellReference(columnIndex: int, rowIndex: int): string
  {
    ColumnLetters(columnIndex) + Int32Text(Wrap32(rowIndex + 1))
  }

  /** Letters followed by digits: keeping the letters gives the letters back,
      keeping the digits gives the digits back. */
  lemma {:induction false} KeepLettersAndDigits(letters: string, digits: string)
    requires forall i :: 0 <= i < |letters| ==> IsUpper(letters[i])
    requires forall i :: 0 <= i < |digits| ==> IsDigit(digits[i])
    ensures Keep(letters, IsLetter) == letters && Keep(letters + digits, IsLetter) == letters
    ensures Keep(letters + digits, IsDigit) == digits
  {
    KeepAppend(letters, digits, IsLetter);
    KeepAppend(letters, digits, IsDigit);
    KeepAll(letters, IsLetter);
    KeepNone(digits, IsLetter);
    KeepNone(letters, IsDigit);
    KeepAll(digits, IsDigit);
  }

  /** The column of a reference built from letters and the digits of a row. */
  lemma ColumnOfReference(c: int, digits: string)
    requires 0 <= c <= INT32_MAX
    requires forall i :: 0 <= i < |digits| ==> IsDigit(digits[i])
    ensures ColumnIndex(ColumnLetters(c) + digits) == c
  {
    KeepLettersAndDigits(ColumnLetters(c), digits);
    ColumnRoundTrip(c);
  }

  /** The row of a reference built from letters and the digits of a row. */
  lemma RowOfReference(letters: string, r: int)
    requires 0 <= r < INT32_MAX
    requires forall i :: 0 <= i < |letters| ==> IsUpper(letters[i])
    ensures RowIndex(letters + NatToString(r + 1)) == r
  {
    KeepLettersAndDigits(letters, NatToString(r + 1));
    ParseNatToString(r + 1);
  }

  /** A reference built from (c, r) decomposes back into c and r. */
  lemma CellReferenceDecomposes(c: int, r: int)
    requires 0 <= c <= INT32_MAX && 0 <= r < INT32_MAX
    ensures GetExcelCellReference(c, r) == ColumnLetters(c) + NatToString(r + 1)
    ensures ColumnIndex(GetExcelCellReference(c, r)) == c
    ensures RowIndex(GetExcelCellReference(c, r)) == r
  {
    assert Int32Text(Wrap32(r + 1)) == NatToString(r + 1);
    ColumnOfReference(c, NatToString(r + 1));
    RowOfReference(ColumnLetters(c), r);
  }

  /** IsCellInRange: a missing or empty reference is outside every range;
      otherwise the reference's column and row must lie between those of the
      two corner references, bounds included. */
  function IsCellInRange(cellReference: Option<string>, startCell: string, endCell: string): (inside: bool)
    ensures cellReference.None? || cellReference == Some("") ==> !inside
  {
    match cellReference
    case None => false
    case Some(ref) =>
      ref != "" &&
      var currentCol, currentRow := ColumnIndex(ref), RowIndex(ref);
      var startCol, startRow := ColumnIndex(startCell), RowIndex(startCell);
      var endCol, endRow := ColumnIndex(endCell), RowIndex(endCell);
      currentCol >= startCol && currentCol <= endCol && currentRow >= startRow && currentRow <= endRow
  }

  /** A column index C# can hold, and a row whose one-based number it can hold. */
  predicate InInt32Grid(c: int, r: int) { 0 <= c <= INT32_MAX && 0 <= r < INT32_MAX }

  /** Containment of well-formed references is the inclusive rectangle test. */
  lemma InRangeIff(c: int, r: int, sc: int, sr: int, ec: int, er: int)
    requires InInt32Grid(c, r) && InInt32Grid(sc, sr) && InInt32Grid(ec, er)
    ensures IsCellInRange(Some(GetExcelCellReference(c, r)), GetExcelCellReference(sc, sr), GetExcelCellReference(ec, er))
            <==> sc <= c <= ec && sr <= r <= er
  {
    CellReferenceDecomposes(c, r);
    CellReferenceDecomposes(sc, sr);
    CellReferenceDecomposes(ec, er);
  }

  /** Both corners of a rectangle are inside it. */
  lemma RangeCornersInside(sc: int, sr: int, ec: int, er: int)
    requires InInt32Grid(sc, sr) && InInt32Grid(ec, er) && sc <= ec && sr <= er
    ensures var s, e := GetExcelCellReference(sc, sr), GetExcelCellReference(ec, er);
            IsCellInRange(Some(s), s, e) && IsCellInRange(Some(e), s, e)
  {
    InRangeIff(sc, sr, sc, sr, ec, er);
    InRangeIff(ec, er, sc, sr, ec, er);
  }

  /** A cell one step beyond any side of a rectangle is outside it. */
  lemma NeighbourOutside(c: int, r: int, sc: int, sr: int, ec: int, er: int)
    requires InInt32Grid(c, r) && InInt32Grid(sc, sr) && InInt32Grid(ec, er)
    requires (sr <= r <= er && (c == sc - 1 || c == ec + 1)) || (sc <= c <= ec && (r == sr - 1 || r == er + 1))
    ensures !IsCellInRange(Some(GetExcelCellReference(c, r)), GetExcelCellReference(sc, sr), GetExcelCellReference(ec, er))
  {
    InRangeIff(c, r, sc, sr, ec, er);
  }

  /** `int.Parse(marker.<ColumnId|RowId>.Text)` for the anchor's `<xdr:from>` or
      `<xdr:to>` marker; a missing marker or id element is a null dereference. */
  function MarkerValue(anchor: Element, marker: string, id: string): Result<int, Fault>
  {
    match FirstChild(anchor, marker, NS_XDR)
    case None => Failure(NullReference)
    case Some(m) =>
      match FirstChild(m, id, NS_XDR)
      case None => Failure(NullReference)
      case Some(idElement) => ParseInt32(idElement.text)
  }

  /** The reference of one marker's cell, its column parsed before its row. */
  function MarkerCell(anchor: Element, marker: string): Result<string, Fault>
  {
    match MarkerValue(anchor, marker, "col")
    case Failure(f) => Failure(f)
    case Success(col) =>
      match MarkerValue(anchor, marker, "row")
      case Failure(f) => Failure(f)
      case Success(row) => Success(GetExcelCellReference(col, row))
  }

  /** GetCellPositionFromTwoCellAnchor: "<from>:<to>". */
  function GetCellPositionFromTwoCellAnchor(anchor: Element): Result<string, Fault>
  {
    match MarkerCell(anchor, "from")
    case Failure(f) => Failure(f)
    case Success(fromCell) =>
      match MarkerCell(anchor, "to")
      case Failure(f) => Failure(f)
      case Success(toCell) => Success(fromCell + ":" + toCell)
  }

  /** An anchor whose four marker ids parse spans the range between the
      references of its two marker cells; any marker that does not parse
      makes the position fail. */
  lemma AnchorPosition(anchor: Element)
    ensures var fc, fr, tc, tr := MarkerValue(anchor, "from", "col"), MarkerValue(anchor, "from", "row"),
                                  MarkerValue(anchor, "to", "col"), MarkerValue(anchor, "to", "row");
            && (fc.Success? && fr.Success? && tc.Success? && tr.Success? ==>
                  GetCellPositionFromTwoCellAnchor(anchor)
                    == Success(GetExcelCellReference(fc.value, fr.value) + ":" + GetExcelCellReference(tc.value, tr.value)))
            && (!(fc.Success? && fr.Success? && tc.Success? && tr.Success?) ==>
                  GetCellPositionFromTwoCellAnchor(anchor).Failure?)
  {
  }

  /** Markers at (column 2, row 1) and (column 8, row 15) give "C2:I16". */
  lemma AnchorExample()
    ensures GetExcelCellReference(2, 1) + ":" + GetExcelCellReference(8, 15) == "C2:I16"
  {
    assert ColumnLetters(2) == "C" && ColumnLetters(8) == "I";
    assert NatToString(2) == "2" && NatToString(16) == "16";
  }
}
