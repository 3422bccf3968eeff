/** The openpyxl worksheet as this model sees it: cells addressed by column
    index and row, column dimensions, and the charts placed on it. */
module Sheet {
  import Chart

  /** A cell position: column 1 is `A`, row 1 is the top row. */
  datatype Coord = Coord(column: int, row: int)

  datatype Value = Blank | Str(text: string) | Num(number: int)

  datatype Font = Font(name: string, bold: bool, size: int)

  /** A cell's content, its named style and its font. */
  datatype Cell = Cell(value: Value, style: string, font: Font)

  type Cells = map<Coord, Cell>

  /** openpyxl's `ColumnDimension(ws, min=, max=, width=)`. */
  datatype ColumnDimension = ColumnDimension(min: int, max: int, width: int)

  /** The table's occupied range, as `min_column`, `max_column`, `min_row`, `max_row`. */
  datatype Bounds = Bounds(minColumn: int, maxColumn: int, minRow: int, maxRow: int)

  const DefaultFont: Font := Font("Calibri", false, 11)
  const EmptyCell: Cell := Cell(Blank, "Normal", DefaultFont)

  /** A cell never written reads as an empty cell with the default style. */
  function Get(cells: Cells, c: Coord): Cell {
    if c in cells then cells[c] else EmptyCell
  }

  /** The worksheet refuses a cell address with a column or row below 1. */
  predicate Addressable(c: Coord) {
    1 <= c.column && 1 <= c.row
  }

  function WithValue(cells: Cells, c: Coord, v: Value): (r: Cells)
    ensures r.Keys == cells.Keys + {c}
    ensures Get(r, c) == Get(cells, c).(value := v)
    ensures forall d :: d != c ==> Get(r, d) == Get(cells, d)
  {
    cells[c := Get(cells, c).(value := v)]
  }

  function WithStyle(cells: Cells, c: Coord, style: string): (r: Cells)
    ensures r.Keys == cells.Keys + {c}
    ensures Get(r, c) == Get(cells, c).(style := style)
    ensures forall d :: d != c ==> Get(r, d) == Get(cells, d)
  {
    cells[c := Get(cells, c).(style := style)]
  }

  function WithFont(cells: Cells, c: Coord, font: Font): (r: Cells)
    ensures r.Keys == cells.Keys + {c}
    ensures Get(r, c) == Get(cells, c).(font := font)
    ensures forall d :: d != c ==> Get(r, d) == Get(cells, d)
  {
    cells[c := Get(cells, c).(font := font)]
  }

  class Worksheet {
    var cells: Cells
    var columnDimensions: map<int, ColumnDimension>
    var charts: seq<Chart.BarChart>

    constructor (cells: Cells)
      ensures this.cells == cells && columnDimensions == map[] && charts == []
    {
      this.cells := cells;
      columnDimensions := map[];
      charts := [];
    }

    /** `ws[addr] = v`; `ok` is false where the worksheet raises. */
    method SetValue(c: Coord, v: Value) returns (ok: bool)
      modifies this
      ensures ok == Addressable(c)
      ensures cells == if ok then WithValue(old(cells), c, v) else old(cells)
      ensures columnDimensions == old(columnDimensions) && charts == old(charts)
    {
      ok := Addressable(c);
      if ok {
        cells := cells[c := Get(cells, c).(value := v)];
      }
    }

    /** `ws[addr].style = style`. */
    method SetStyle(c: Coord, style: string) returns (ok: bool)
      modifies this
      ensures ok == Addressable(c)
      ensures cells == if ok then WithStyle(old(cells), c, style) else old(cells)
      ensures columnDimensions == old(columnDimensions) && charts == old(charts)
    {
      ok := Addressable(c);
      if ok {
        cells := cells[c := Get(cells, c).(style := style)];
      }
    }

    /** `ws[addr].font = font`. */
    method SetFont(c: Coord, font: Font) returns (ok: bool)
      modifies this
      ensures ok == Addressable(c)
      ensures cells == if ok then WithFont(old(cells), c, font) else old(cells)
      ensures columnDimensions == old(columnDimensions) && charts == old(charts)
    {
      ok := Addressable(c);
      if ok {
        cells := cells[c := Get(cells, c).(font := font)];
      }
    }

    /** `ws.add_chart(chart, anchor)`; the anchor travels inside the chart value. */
    method AddChart(chart: Chart.BarChart)
      modifies this
      ensures charts == old(charts) + [chart]
      ensures cells == old(cells) && columnDimensions == old(columnDimensions)
    {
      charts := charts + [chart];
    }
  }
}
