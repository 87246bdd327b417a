/**
 * `_preview_excel_sheet` (document_previewer.py): the sheet's title and the
 * top-left 20 rows by 6 columns of cells drawn as a grid on a 1000x800
 * canvas. A sheet is its title and a cell lookup giving `str(cell.value)`
 * for a filled cell and `None` for an empty one.
 */
module Xlsx {
  import opened Wrappers
  import opened PyStr
  import opened Canvas

  datatype Sheet = Sheet(title: string, cell: (nat, nat) -> Option<string>)

  const SheetWidth := 1000
  const SheetHeight := 800
  const HeaderFont := Font(SansBold, 16)
  const CellFont := Font(Sans, 12)
  const StartX := 20
  const StartY := 60
  const CellWidth := 150
  const CellHeight := 30
  const MaxRows := 20
  const MaxCols := 6
  const MaxCellText := 15

  /** Cell text longer than 15 characters keeps its first 12 and gains "...". */
  function Truncate(s: string): (r: string)
    ensures |s| <= MaxCellText ==> r == s
    ensures |s| > MaxCellText ==> |r| == MaxCellText && r[..12] == s[..12] && r[12..] == "..."
    ensures |r| <= MaxCellText
  {
    if |s| > MaxCellText then s[..12] + "..." else s
  }

  /** The text drawn for a cell value: empty for an empty cell. */
  function CellText(v: Option<string>): string {
    Truncate(if v.Some? then v.value else "")
  }

  function TitleText(sheet: Sheet): string {
    "Excel Sheet: " + sheet.title
  }

  /** The two draw calls for grid cell (`row`, `col`), both counted from 0: its border, then its text. */
  function CellCommands(sheet: Sheet, row: nat, col: nat): seq<Draw> {
    var x := StartX + col * CellWidth;
    var y := StartY + row * CellHeight;
    [ Rectangle(x, y, x + CellWidth, y + CellHeight, Black, 1),
      Text(x + 5, y + 8, CellText(sheet.cell(row + 1, col + 1)), Black, if row == 0 then HeaderFont else CellFont) ]
  }

  /** The draw calls for the first `k` cells of the grid in row-major order. */
  function Grid(sheet: Sheet, k: nat): seq<Draw> {
    if k == 0 then [] else Grid(sheet, k - 1) + CellCommands(sheet, (k - 1) / MaxCols, (k - 1) % MaxCols)
  }

  function SheetImage(sheet: Sheet): Image {
    Drawn(SheetWidth, SheetHeight, White,
          [Text(20, 20, TitleText(sheet), Black, HeaderFont)] + Grid(sheet, MaxRows * MaxCols))
  }

  /**
   * What `_preview_excel_sheet` returns for page `n` of a parsed workbook:
   * an error image past the last sheet; otherwise `wb.worksheets[n - 1]`,
   * which counts from the end for `n <= 0` and raises an IndexError further
   * down.
   */
  function Preview(sheets: seq<Sheet>, n: int, measure: Measure): Result<Image> {
    if n > |sheets| then Ok(ErrorImage("Sheet " + IntToString(n) + " not found", measure))
    else
      match PyIndex(|sheets|, n - 1)
      case None => Err("list index out of range")
      case Some(k) => Ok(SheetImage(sheets[k]))
  }

  // ------------------------------------------------------------ the loops

  /** The row and column loops of `_preview_excel_sheet`. */
  method DrawSheet(sheet: Sheet) returns (img: Image)
    ensures img == SheetImage(sheet)
  {
    var commands := [Text(20, 20, "Excel Sheet: " + sheet.title, Black, HeaderFont)];
    ghost var header := commands;
    ghost var k := 0;
    for row := 0 to MaxRows
      invariant k == row * MaxCols
      invariant commands == header + Grid(sheet, k)
    {
      for col := 0 to MaxCols
        invariant k == row * MaxCols + col
        invariant commands == header + Grid(sheet, k)
      {
        var cell := DrawCell(sheet, row, col);
        GridStep(sheet, row, col, k);
        commands := commands + cell;
        k := k + 1;
      }
    }
    img := Drawn(SheetWidth, SheetHeight, White, commands);
  }

  /** One pass of the column loop: the cell's border, then its (possibly truncated) text. */
  method DrawCell(sheet: Sheet, row: nat, col: nat) returns (cell: seq<Draw>)
    ensures cell == CellCommands(sheet, row, col)
  {
    var x := StartX + col * CellWidth;
    var y := StartY + row * CellHeight;
    cell := [Rectangle(x, y, x + CellWidth, y + CellHeight, Black, 1)];
    var cellValue := if sheet.cell(row + 1, col + 1).Some? then sheet.cell(row + 1, col + 1).value else "";
    if |cellValue| > 15 {
      cellValue := cellValue[..12] + "...";
    }
    var currentFont := if row == 0 then HeaderFont else CellFont;
    cell := cell + [Text(x + 5, y + 8, cellValue, Black, currentFont)];
  }

  lemma GridStep(sheet: Sheet, row: nat, col: nat, k: nat)
    requires col < MaxCols && k == row * MaxCols + col
    ensures Grid(sheet, k + 1) == Grid(sheet, k) + CellCommands(sheet, row, col)
  {
    assert k / MaxCols == row && k % MaxCols == col;
  }

  /** `_preview_excel_sheet` after parsing. */
  method PreviewSheet(sheets: seq<Sheet>, n: int, measure: Measure) returns (r: Result<Image>)
    ensures r == Preview(sheets, n, measure)
  {
    if n > |sheets| {
      return Ok(ErrorImage("Sheet " + IntToString(n) + " not found", measure));
    }
    var k := n - 1;
    if k < 0 {
      k := k + |sheets|;
    }
    if k < 0 {
      return Err("list index out of range");
    }
    var img := DrawSheet(sheets[k]);
    r := Ok(img);
  }

  // ---------------------------------------------------------- properties

  /** The draw calls of cell `k` (in row-major order) within a list of draw calls. */
  function CellAt(cs: seq<Draw>, k: nat): seq<Draw>
    requires 2 * k + 2 <= |cs|
  {
    cs[2 * k..2 * k + 2]
  }

  /** The first `k` cells: two calls each, cell `j` at calls `2j` and `2j + 1`. */
  lemma {:induction false} GridCells(sheet: Sheet, k: nat)
    ensures |Grid(sheet, k)| == 2 * k
    ensures forall j :: 0 <= j < k ==> CellAt(Grid(sheet, k), j) == CellCommands(sheet, j / MaxCols, j % MaxCols)
  {
    if k > 0 {
      GridCells(sheet, k - 1);
      var g := Grid(sheet, k);
      var prev := Grid(sheet, k - 1);
      assert g[..2 * (k - 1)] == prev;
      forall j | 0 <= j < k
        ensures CellAt(g, j) == CellCommands(sheet, j / MaxCols, j % MaxCols)
      {
        if j < k - 1 {
          assert CellAt(g, j) == CellAt(prev, j);
        }
      }
    }
  }

  /** Cell (`row`, `col`) of the drawn sheet: its border and its text, in that order, after the title. */
  lemma SheetCells(sheet: Sheet)
    ensures var cs := SheetImage(sheet).commands;
      && |cs| == 1 + 2 * MaxRows * MaxCols
      && cs[0] == Text(20, 20, TitleText(sheet), Black, HeaderFont)
      && forall row, col :: 0 <= row < MaxRows && 0 <= col < MaxCols ==>
           cs[1 + 2 * (row * MaxCols + col)..3 + 2 * (row * MaxCols + col)] == CellCommands(sheet, row, col)
  {
    var g := Grid(sheet, MaxRows * MaxCols);
    GridCells(sheet, MaxRows * MaxCols);
    var cs := [Text(20, 20, TitleText(sheet), Black, HeaderFont)] + g;
    forall row, col | 0 <= row < MaxRows && 0 <= col < MaxCols
      ensures cs[1 + 2 * (row * MaxCols + col)..3 + 2 * (row * MaxCols + col)] == CellCommands(sheet, row, col)
    {
      var k := row * MaxCols + col;
      assert k / MaxCols == row && k % MaxCols == col;
      assert CellAt(g, k) == CellCommands(sheet, row, col);
      assert cs[1 + 2 * k..3 + 2 * k] == g[2 * k..2 * k + 2];
    }
  }

  /**
   * The cell borders tile the area from (20, 60) to (920, 660) inside the
   * canvas: each is 150 by 30, and neighbours share an edge.
   */
  lemma CellsTile(sheet: Sheet, row: nat, col: nat)
    requires row < MaxRows && col < MaxCols
    ensures var r := CellCommands(sheet, row, col)[0];
      && r.Rectangle? && r.outline == Black && r.lineWidth == 1
      && r.x1 - r.x0 == CellWidth && r.y1 - r.y0 == CellHeight
      && StartX <= r.x0 && r.x1 <= StartX + MaxCols * CellWidth <= SheetWidth
      && StartY <= r.y0 && r.y1 <= StartY + MaxRows * CellHeight <= SheetHeight
      && (col + 1 < MaxCols ==> CellCommands(sheet, row, col + 1)[0].x0 == r.x1)
      && (row + 1 < MaxRows ==> CellCommands(sheet, row + 1, col)[0].y0 == r.y1)
  {
  }

  /**
   * A cell's text sits 5 right of and 8 below its border's corner, shows at
   * most 15 characters, is empty for an empty cell, and is bold in the first
   * row only.
   */
  lemma CellTextPlaced(sheet: Sheet, row: nat, col: nat)
    ensures var cc := CellCommands(sheet, row, col);
      var t := cc[1];
      && t.Text? && t.x == cc[0].x0 + 5 && t.y == cc[0].y0 + 8
      && |t.text| <= MaxCellText
      && (sheet.cell(row + 1, col + 1).None? ==> t.text == "")
      && (t.font == HeaderFont <==> row == 0)
  {
  }

  /** Past the last sheet, the preview is an error image naming the missing sheet. */
  lemma PreviewMissing(sheets: seq<Sheet>, n: int, measure: Measure)
    requires n > |sheets|
    ensures Preview(sheets, n, measure).Ok?
    ensures IsErrorImage(Preview(sheets, n, measure).value, "Sheet " + IntToString(n) + " not found")
  {
  }

  /** Pages 1 to the sheet count show those sheets; pages from 0 down count from the end. */
  lemma PreviewInRange(sheets: seq<Sheet>, n: int, measure: Measure)
    requires -|sheets| < n <= |sheets|
    ensures Preview(sheets, n, measure) == Ok(SheetImage(sheets[if n >= 1 then n - 1 else |sheets| + n - 1]))
  {
  }

  /** Further down, `wb.worksheets[n - 1]` raises an IndexError. */
  lemma PreviewOffFront(sheets: seq<Sheet>, n: int, measure: Measure)
    requires n <= -|sheets|
    ensures Preview(sheets, n, measure).Err?
  {
  }
}
