/** The pivot value listing of ExtractPivotTableValues (MainWindow.xaml.cs):
    the cells of a location range, ordered by column and then by row with a
    stable sort, each written with its value. */
module Pivot {
  import opened Wrappers
  import opened Faults
  import opened Text
  import opened Address
  import opened Spreadsheet
  import opened Resolve
  import opened StableSort

  const VALUES_HEADER := "Pivot Table Values:"
  const VALUES_ERROR := "Error extracting pivot table values: "

  /** The reference of a cell as the listing reads it. */
  function Ref(c: Cell): string { c.reference.GetOr("") }

  function WithKeys(cells: seq<Cell>): (r: seq<Keyed<Cell>>)
    ensures |r| == |cells|
    ensures forall i :: 0 <= i < |cells| ==>
              r[i] == Keyed(ColumnIndex(Ref(cells[i])), RowIndex(Ref(cells[i])), cells[i])
  {
    if cells == [] then [] else [Keyed(ColumnIndex(Ref(cells[0])), RowIndex(Ref(cells[0])), cells[0])] + WithKeys(cells[1..])
  }

  function CellsOf(ks: seq<Keyed<Cell>>): (r: seq<Cell>)
    ensures |r| == |ks|
    ensures forall i :: 0 <= i < |ks| ==> r[i] == ks[i].item
  {
    if ks == [] then [] else [ks[0].item] + CellsOf(ks[1..])
  }

  /** `cells.Where(c => IsCellInRange(c.CellReference?.Value, startCell, endCell))`. */
  function InRange(cells: seq<Cell>, startCell: string, endCell: string): (r: seq<Cell>)
    ensures forall c :: c in r <==> c in cells && IsCellInRange(c.reference, startCell, endCell)
    ensures |r| <= |cells|
  {
    if cells == [] then []
    else (if IsCellInRange(cells[0].reference, startCell, endCell) then [cells[0]] else [])
         + InRange(cells[1..], startCell, endCell)
  }

  /** The selection keeps the sheet's order and multiplicity: no cells give
      none, and one more cell adds itself at the end exactly when it lies in
      the range. */
  lemma {:induction false} InRangeSnoc(cells: seq<Cell>, c: Cell, startCell: string, endCell: string)
    ensures InRange([], startCell, endCell) == []
    ensures InRange(cells + [c], startCell, endCell)
            == InRange(cells, startCell, endCell) + (if IsCellInRange(c.reference, startCell, endCell) then [c] else [])
    decreases |cells|
  {
    var last := if IsCellInRange(c.reference, startCell, endCell) then [c] else [];
    if cells == [] {
      assert cells + [c] == [c];
      assert InRange([c], startCell, endCell) == last + InRange([], startCell, endCell);
    } else {
      var head := if IsCellInRange(cells[0].reference, startCell, endCell) then [cells[0]] else [];
      assert (cells + [c])[0] == cells[0];
      assert (cells + [c])[1..] == cells[1..] + [c];
      InRangeSnoc(cells[1..], c, startCell, endCell);
      AppendAssoc(head, InRange(cells[1..], startCell, endCell), last);
    }
  }

  /** The line for one listed cell. */
  function ValueLine(c: Cell, value: string): string { "- " + Ref(c) + ": " + value }

  /** The value lines of `cells` in order; the first value lookup that faults
      ends the listing with the error line. */
  function ValueLines(cells: seq<Cell>, wb: Workbook): seq<string>
  {
    if cells == [] then []
    else
      match GetCellValue(cells[0], wb)
      case Failure(f) => [VALUES_ERROR + Message(f)]
      case Success(v) => [ValueLine(cells[0], v)] + ValueLines(cells[1..], wb)
  }

  /** The cells in range, keyed, in the order ExtractPivotTableValues lists them. */
  function Listed(cells: seq<Cell>, startCell: string, endCell: string): seq<Keyed<Cell>>
  {
    SortByKey(WithKeys(InRange(cells, startCell, endCell)))
  }

  /** The cells ExtractPivotTableValues lists for a location of two parts. */
  function ListedCells(cells: seq<Cell>, startCell: string, endCell: string): seq<Cell>
  {
    CellsOf(Listed(cells, startCell, endCell))
  }

  /** What ExtractPivotTableValues appends for the location `cellRange`. */
  function PivotValueLines(ws: Worksheet, cellRange: string, wb: Workbook): seq<string>
  {
    var rangeParts := Split(cellRange, ':');
    if |rangeParts| != 2 then ["Invalid range format: " + cellRange]
    else
      match ws.sheetData
      case None => [VALUES_ERROR + Message(NullReference)]
      case Some(cells) => [VALUES_HEADER] + ValueLines(ListedCells(cells, rangeParts[0], rangeParts[1]), wb)
  }

  /** A location of two parts over a worksheet with cell data lists the
      header and then the value lines of the cells between those parts. */
  lemma TwoPartLocation(ws: Worksheet, cellRange: string, wb: Workbook)
    requires |Split(cellRange, ':')| == 2 && ws.sheetData.Some?
    ensures var parts := Split(cellRange, ':');
            PivotValueLines(ws, cellRange, wb)
            == [VALUES_HEADER] + ValueLines(ListedCells(ws.sheetData.value, parts[0], parts[1]), wb)
  {
  }

  lemma {:induction false} CellsOfWithKeys(cells: seq<Cell>)
    ensures CellsOf(WithKeys(cells)) == cells
  {
  }

  lemma CellsOfSameMultiset(a: seq<Keyed<Cell>>, b: seq<Keyed<Cell>>, c: Cell)
    requires multiset(a) == multiset(b)
    requires c in CellsOf(b)
    ensures c in CellsOf(a)
  {
    var j :| 0 <= j < |b| && CellsOf(b)[j] == c;
    assert b[j] in multiset(a);
    var i :| 0 <= i < |a| && a[i] == b[j];
    assert CellsOf(a)[i] == c;
  }

  /** The listed cells are exactly the cells in range. */
  lemma ListedCellsAreInRange(cells: seq<Cell>, startCell: string, endCell: string)
    ensures forall c :: c in ListedCells(cells, startCell, endCell) <==>
                          c in cells && IsCellInRange(c.reference, startCell, endCell)
  {
    var keyed := WithKeys(InRange(cells, startCell, endCell));
    var listed := SortByKey(keyed);
    CellsOfWithKeys(InRange(cells, startCell, endCell));
    forall c
      ensures c in CellsOf(listed) <==> c in CellsOf(keyed)
    {
      if c in CellsOf(keyed) {
        CellsOfSameMultiset(listed, keyed, c);
      }
      if c in CellsOf(listed) {
        CellsOfSameMultiset(keyed, listed, c);
      }
    }
  }

  /** The listing is ordered by column, then by row, and cells with equal
      column and row keep their document order. */
  lemma ListedOrder(cells: seq<Cell>, startCell: string, endCell: string)
    ensures Sorted(Listed(cells, startCell, endCell))
    ensures forall k :: WithKey(Listed(cells, startCell, endCell), k) == WithKey(WithKeys(InRange(cells, startCell, endCell)), k)
  {
    var keyed := WithKeys(InRange(cells, startCell, endCell));
    SortByKeySorted(keyed);
    forall k
      ensures WithKey(SortByKey(keyed), k) == WithKey(keyed, k)
    {
      SortByKeyStable(keyed, k);
    }
  }

  /** Without a fault, one value line per listed cell, in the listed order. */
  lemma {:induction false} ValueLinesExact(cells: seq<Cell>, wb: Workbook)
    requires forall i :: 0 <= i < |cells| ==> GetCellValue(cells[i], wb).Success?
    ensures |ValueLines(cells, wb)| == |cells|
    ensures forall i :: 0 <= i < |cells| ==>
              ValueLines(cells, wb)[i] == ValueLine(cells[i], GetCellValue(cells[i], wb).value)
  {
    if cells != [] {
      ValueLinesExact(cells[1..], wb);
      assert forall i :: 1 <= i < |cells| ==> cells[1..][i - 1] == cells[i];
    }
  }

  /** Appending a cell whose value resolves, after cells whose values all
      resolve, appends its one value line. */
  lemma {:induction false} ValueLinesSnoc(cells: seq<Cell>, c: Cell, wb: Workbook)
    requires forall j :: 0 <= j < |cells| ==> GetCellValue(cells[j], wb).Success?
    requires GetCellValue(c, wb).Success?
    ensures ValueLines(cells + [c], wb) == ValueLines(cells, wb) + [ValueLine(c, GetCellValue(c, wb).value)]
  {
    if cells == [] {
      assert cells + [c] == [c];
    } else {
      assert (cells + [c])[0] == cells[0];
      assert (cells + [c])[1..] == cells[1..] + [c];
      ValueLinesSnoc(cells[1..], c, wb);
    }
  }

  /** A lookup fault at the `n`-th listed cell writes the lines of the cells
      before it and then the error line, and nothing for the cells after it. */
  lemma {:induction false} ValueLinesStopAtFault(cells: seq<Cell>, wb: Workbook, n: nat)
    requires n < |cells| && GetCellValue(cells[n], wb).Failure?
    requires forall i :: 0 <= i < n ==> GetCellValue(cells[i], wb).Success?
    ensures ValueLines(cells, wb) == ValueLines(cells[..n], wb) + [VALUES_ERROR + Message(GetCellValue(cells[n], wb).error)]
  {
    if n > 0 {
      ValueLinesStopAtFault(cells[1..], wb, n - 1);
      assert cells[1..][..n - 1] == cells[..n][1..];
    }
  }

  /** A location that does not split into exactly two parts at ':' yields one
      notice line and no values; the default "Unknown Location" is such a one. */
  lemma InvalidLocation(ws: Worksheet, cellRange: string, wb: Workbook)
    requires Count(cellRange, ':') != 1
    ensures PivotValueLines(ws, cellRange, wb) == ["Invalid range format: " + cellRange]
  {
    SplitJoin(cellRange, ':');
  }

  /** The location written for a pivot table without one. */
  const UNKNOWN_LOCATION := "Unknown Location"

  lemma UnknownLocationInvalid(ws: Worksheet, wb: Workbook)
    ensures PivotValueLines(ws, UNKNOWN_LOCATION, wb) == ["Invalid range format: " + UNKNOWN_LOCATION]
  {
    forall i | 0 <= i < |UNKNOWN_LOCATION|
      ensures UNKNOWN_LOCATION[i] != ':'
    {
    }
    NoSepSplit(UNKNOWN_LOCATION, ':');
  }

  /** For a location "start:end" over a worksheet with cell data and no value
      fault, the listing is the header and then exactly one line per cell in
      range, in column-then-row order. */
  lemma ListingExact(ws: Worksheet, startCell: string, endCell: string, wb: Workbook)
    requires ':' !in startCell && ':' !in endCell && ws.sheetData.Some?
    requires var listed := ListedCells(ws.sheetData.value, startCell, endCell);
             forall i :: 0 <= i < |listed| ==> GetCellValue(listed[i], wb).Success?
    ensures var listed := ListedCells(ws.sheetData.value, startCell, endCell);
            var lines := PivotValueLines(ws, startCell + ":" + endCell, wb);
            && |lines| == 1 + |listed|
            && lines[0] == VALUES_HEADER
            && forall i :: 0 <= i < |listed| ==> lines[i + 1] == ValueLine(listed[i], GetCellValue(listed[i], wb).value)
  {
    NoSepSplit(endCell, ':');
    SplitAround(startCell, endCell, ':');
    assert startCell + ":" + endCell == startCell + [':'] + endCell;
    ValueLinesExact(ListedCells(ws.sheetData.value, startCell, endCell), wb);
  }
}
