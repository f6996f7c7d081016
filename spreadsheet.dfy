/** The already-parsed spreadsheet package the analyser reads: the workbook,
    its worksheets, style table, shared strings, defined names, drawings and
    pivot tables. Relationship-id lookups (`GetPartById`) are maps or ordered
    lists from ids to the parsed parts. */
module Spreadsheet {
  import opened Wrappers
  import opened Xml

  /** A C# `uint` attribute value. */
  type UInt32 = x: int | 0 <= x < 0x1_0000_0000

  /** The `CellValues` enumeration of a cell's `t` attribute. */
  datatype CellValues = Boolean | Number | Error | SharedString | Str | InlineString | Date

  /** A `<c>` cell: its `r` reference, `t` data type, `<f>` formula text,
      `<v>` value text and `s` style index, each possibly absent. */
  datatype Cell = Cell(reference: Option<string>, dataType: Option<CellValues>,
                       formula: Option<string>, value: Option<string>, styleIndex: Option<UInt32>)

  /** `cell.InnerText`: the text of its children in schema order, formula then value. */
  function CellInnerText(cell: Cell): string
  {
    cell.formula.GetOr("") + cell.value.GetOr("")
  }

  /** An `<xf>` entry of `<cellXfs>`: the ids it refers to, each optional. */
  datatype CellFormat = CellFormat(numberFormatId: Option<UInt32>, fontId: Option<UInt32>,
                                   fillId: Option<UInt32>, borderId: Option<UInt32>)

  /** A custom `<numFmt>`. */
  datatype NumberingFormat = NumberingFormat(numberFormatId: Option<UInt32>, formatCode: Option<string>)

  /** A `<font>`: `FontName.Val` and the text of `FontSize.Val` (a double, kept as its text). */
  datatype Font = Font(fontName: Option<string>, fontSize: Option<string>)

  /** A `<fill>`: `PatternFill.ForegroundColor.Rgb`, absent when any link is missing. */
  datatype Fill = Fill(foregroundRgb: Option<string>)

  /** A `<border>`: whether its `<top>` and `<bottom>` children exist. */
  datatype Border = Border(hasTop: bool, hasBottom: bool)

  /** The style part's stylesheet; every table is optional. */
  datatype Stylesheet = Stylesheet(numberingFormats: Option<seq<NumberingFormat>>, fonts: Option<seq<Font>>,
                                   fills: Option<seq<Fill>>, borders: Option<seq<Border>>,
                                   cellFormats: Option<seq<CellFormat>>)

  /** The root of a chart part is always a `<c:chartSpace>` element. */
  type ChartSpace = e: Element | e.localName == "chartSpace"
    witness Element("chartSpace", NS_C, map[], [], "")

  /** A part a drawing relates to: a classic chart part, another XML part
      (a chartEx part, for one), or a part with no XML root element. */
  datatype Part = ChartPart(chartSpace: ChartSpace) | XmlPart(root: Element) | BinaryPart

  /** `part.RootElement`. */
  function RootElement(p: Part): Option<Element>
  {
    match p
    case ChartPart(cs) => Some(cs)
    case XmlPart(root) => Some(root)
    case BinaryPart => None
  }

  /** A worksheet's drawings part: its `<xdr:wsDr>` root and its relationships. */
  datatype DrawingsPart = DrawingsPart(worksheetDrawing: Option<Element>, parts: map<string, Part>)

  /** A pivot table part's definition: `Name`, `Location.Reference` and `CacheId`. */
  datatype PivotTableDefinition = PivotTableDefinition(name: Option<string>, location: Option<string>,
                                                       cacheId: Option<UInt32>)

  /** A worksheet part: the cells of its `<sheetData>` in document order (None
      when the element is missing), its drawings part, its pivot table parts. */
  datatype Worksheet = Worksheet(sheetData: Option<seq<Cell>>, drawings: Option<DrawingsPart>,
                                 pivotTables: seq<PivotTableDefinition>)

  /** The cells of a worksheet (`Worksheet.Descendants<Cell>()`). */
  function Cells(ws: Worksheet): seq<Cell> { ws.sheetData.GetOr([]) }

  /** A `<sheet>` entry of workbook.xml: its name and relationship id. */
  datatype SheetEntry = SheetEntry(name: Option<string>, id: Option<string>)

  /** A worksheet part with the relationship id the workbook knows it by. */
  datatype WorksheetRel = WorksheetRel(id: string, part: Worksheet)

  /** A `<definedName>`: its `name` attribute and its text (the range it names). */
  datatype DefinedName = DefinedName(name: Option<string>, text: string)

  /** The workbook part. `worksheets` lists `WorksheetParts` in enumeration
      order; `sharedStrings` holds the inner text of each shared-string item. */
  datatype Workbook = Workbook(sheets: seq<SheetEntry>, worksheets: seq<WorksheetRel>,
                               styles: Option<Stylesheet>, sharedStrings: Option<seq<string>>,
                               definedNames: Option<seq<DefinedName>>)
}
