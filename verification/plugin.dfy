/** `ExcelReportPlugin`: the post-processing steps that lay out the report
    sheet once the pivot table has been written to it. Reading the input,
    pivoting and saving are not modelled; the sheet arrives as a `Worksheet`
    and its occupied range as plain bounds. */
module ReportPlugin {
  import opened Outcomes
  import opened Sheet
  import Chart
  import Formula
  import Text
  import opened Totals

  /** The width every occupied column is given. */
  const ColumnWidth: int := 20

  /** The largest column index `get_column_letter` accepts (column `ZZZ`). */
  const MaxColumnIndex: int := 18278

  /** `get_column_letter` raises for an index outside 1..18278. */
  datatype DimensionError = InvalidColumnIndex

  /** How the layout steps of `main` stop early. */
  datatype LayoutError = DimensionFailed(dimension: DimensionError) | TotalsFailed(totals: TotalError)

  /** Every column index in the range has a letter, so the loop at :72-73 runs to the end. */
  predicate ColumnLettersExist(minColumn: int, maxColumn: int) {
    maxColumn < minColumn || (1 <= minColumn && maxColumn <= MaxColumnIndex)
  }

  /** The dimension holder the loop at :72-73 fills: one entry per column of
      the range, each spanning only its own column. */
  function DimensionHolder(minColumn: int, maxColumn: int): map<int, ColumnDimension> {
    map col | minColumn <= col <= maxColumn :: ColumnDimension(col, col, ColumnWidth)
  }

  /** Every column from `min_column` to `max_column` has width 20, and no
      other column has a dimension at all. */
  lemma DimensionHolderCovers(minColumn: int, maxColumn: int, col: int)
    ensures col in DimensionHolder(minColumn, maxColumn) <==> minColumn <= col <= maxColumn
    ensures col in DimensionHolder(minColumn, maxColumn) ==>
      DimensionHolder(minColumn, maxColumn)[col].width == 20
      && DimensionHolder(minColumn, maxColumn)[col].min == col
      && DimensionHolder(minColumn, maxColumn)[col].max == col
  {
  }

  /** `add_total` as `main` calls it at :33: the arguments arrive as
      `(max_column, max_row, min_row)` against the declared
      `(max_column, min_row, max_row)`. */
  function MainTotalsAsWritten(cells: Cells, b: Bounds): Result<Cells, TotalError> {
    WithTotals(cells, b.maxColumn, b.maxRow, b.minRow)
  }

  /** `add_total` called in its declared argument order. */
  function MainTotals(cells: Cells, b: Bounds): Result<Cells, TotalError> {
    WithTotals(cells, b.maxColumn, b.minRow, b.maxRow)
  }

  /** With the call as written, the totals row lands on the first data row,
      below the header, and its formulas run backwards from the row after the
      table up to the header row: a value of the table is lost. */
  lemma SwappedCallOverwritesData(cells: Cells, b: Bounds)
    requires 2 <= b.maxColumn && 0 <= b.minRow < b.maxRow
    ensures MainTotalsAsWritten(cells, b).Ok?
    ensures Get(MainTotalsAsWritten(cells, b).value, Coord(2, b.minRow + 1)).value
      == Str(Formula.SumFormula('B', b.maxRow + 1, b.minRow))
  {
    TotalsSumOwnColumn(cells, b.maxColumn, b.maxRow, b.minRow, 1);
  }

  /** The smallest case: a 2-row, 3-column table at rows 5 to 7 (its header
      in row 5) whose cell B6 holds 100. The call as written replaces that
      value with `=SUM(B8:B5)`. */
  lemma SwappedCallExample()
    ensures var cells := map[Coord(2, 6) := Cell(Num(100), "Normal", DefaultFont)];
      var after := MainTotalsAsWritten(cells, Bounds(1, 3, 5, 7));
      && after.Ok?
      && Get(cells, Coord(2, 6)).value == Num(100)
      && Get(after.value, Coord(2, 6)).value == Str("=SUM(B8:B5)")
  {
    var cells := map[Coord(2, 6) := Cell(Num(100), "Normal", DefaultFont)];
    SwappedCallOverwritesData(cells, Bounds(1, 3, 5, 7));
    assert Text.NatString(8) == "8";
    assert Text.NatString(5) == "5";
    assert Formula.SumFormula('B', 8, 5) == "=SUM(B8:B5)";
  }

  /** In the declared order, the totals go in the row below the table and
      every cell of the table (which starts below the title block) keeps its
      content. */
  lemma MainTotalsKeepTable(cells: Cells, b: Bounds, c: Coord)
    requires 1 <= b.maxColumn && 3 <= b.minRow <= b.maxRow
    requires b.minRow <= c.row <= b.maxRow
    ensures MainTotals(cells, b).Ok?
    ensures Get(MainTotals(cells, b).value, c) == Get(cells, c)
  {
    NothingElseChanges(cells, b.maxColumn, b.minRow, b.maxRow, c);
  }

  /** In the declared order, each value column's total sums exactly the data
      rows under its header, in its own column. */
  lemma MainTotalsSumDataRows(cells: Cells, b: Bounds, i: int)
    requires 1 <= b.maxColumn && 3 <= b.minRow <= b.maxRow
    requires 1 <= i < |Letters(b.maxColumn)|
    ensures MainTotals(cells, b).Ok?
    ensures var total := Get(MainTotals(cells, b).value, Coord(i + 1, b.maxRow + 1)).value;
      && total.Str?
      && Formula.ParseSumFormula(total.text)
        == Some(Formula.CellRange(Letters(b.maxColumn)[i], b.minRow + 1, Letters(b.maxColumn)[i], b.maxRow))
  {
    TotalsSumOwnColumn(cells, b.maxColumn, b.minRow, b.maxRow, i);
  }

  class ExcelReportPlugin {
    const inputFile: string
    const outputFile: string

    constructor (inputFile: string, outputFile: string)
      ensures this.inputFile == inputFile && this.outputFile == outputFile
    {
      this.inputFile := inputFile;
      this.outputFile := outputFile;
    }

    /** `column_dimensions` (:69-75): a fresh dimension holder replaces the
        sheet's column dimensions once every column has been given width 20.
        The source's `workbook.max` is read as `max_column`, and its call
        `column_dimensions(workbook, ...)` as openpyxl's `ColumnDimension`. */
    method ColumnDimensions(ws: Worksheet, minColumn: int, maxColumn: int) returns (status: Status<DimensionError>)
      modifies ws
      ensures status == if ColumnLettersExist(minColumn, maxColumn) then Done else Raised(InvalidColumnIndex)
      ensures ws.columnDimensions == if status.Done? then DimensionHolder(minColumn, maxColumn) else old(ws.columnDimensions)
      ensures ws.cells == old(ws.cells) && ws.charts == old(ws.charts)
    {
      var holder: map<int, ColumnDimension> := map[];
      var col := minColumn;
      while col < maxColumn + 1
        invariant minColumn <= col && (col <= maxColumn + 1 || col == minColumn)
        invariant col > minColumn ==> 1 <= minColumn && col - 1 <= MaxColumnIndex
        invariant holder == DimensionHolder(minColumn, col - 1)
        decreases maxColumn + 1 - col
      {
        if !(1 <= col <= MaxColumnIndex) {
          return Raised(InvalidColumnIndex);
        }
        holder := holder[col := ColumnDimension(col, col, ColumnWidth)];
        col := col + 1;
      }
      ws.columnDimensions := holder;
      status := Done;
    }

    /** `barchart` (:77-99) with the four bounds it reads. */
    method BarChart(ws: Worksheet, minCol: int, maxCol: int, minRow: int, maxRow: int)
      modifies ws
      ensures ws.charts == old(ws.charts) + [Chart.SalesChart(minCol, maxCol, minRow, maxRow)]
      ensures ws.cells == old(ws.cells) && ws.columnDimensions == old(ws.columnDimensions)
    {
      var data := Chart.Reference(minCol + 1, maxCol, minRow, maxRow);
      var categories := Chart.Reference(minCol, maxCol, minRow + 1, maxRow);
      var chart := Chart.BarChart(data, true, categories, "B12", Chart.Title, Chart.Style);
      ws.AddChart(chart);
    }

    /** `add_total` (:106-119). */
    method AddTotal(maxColumn: int, minRow: int, maxRow: int, ws: Worksheet) returns (status: Status<TotalError>)
      modifies ws
      ensures var expected := WithTotals(old(ws.cells), maxColumn, minRow, maxRow);
        && (expected.Ok? ==> status == Done && ws.cells == expected.value)
        && (expected.Err? ==> status == Raised(expected.error) && ws.cells == old(ws.cells))
      ensures ws.columnDimensions == old(ws.columnDimensions) && ws.charts == old(ws.charts)
    {
      var alphabet := Alphabet;
      var alphabetExcel := alphabet[..SliceStop(maxColumn, |alphabet|)];
      var i := 0;
      while i < |alphabetExcel|
        invariant 0 <= i <= |alphabetExcel|
        invariant ws.cells == WriteTotals(old(ws.cells), alphabetExcel[..i], minRow, maxRow)
        invariant maxRow + 1 < 1 ==> ws.cells == old(ws.cells)
        invariant ws.columnDimensions == old(ws.columnDimensions) && ws.charts == old(ws.charts)
      {
        var letter := alphabetExcel[i];
        if letter != 'A' {
          var c := Coord(ColumnIndex(letter), maxRow + 1);
          var ok := ws.SetValue(c, Str(Formula.SumFormula(letter, minRow + 1, maxRow)));
          if !ok {
            return Raised(RowOutOfSheet);
          }
          ok := ws.SetStyle(c, Currency);
        }
        assert alphabetExcel[..i + 1][..i] == alphabetExcel[..i];
        i := i + 1;
      }
      assert alphabetExcel[..i] == alphabetExcel;
      if |alphabetExcel| == 0 {
        return Raised(EmptyColumnList);
      }
      var ok := ws.SetValue(Coord(ColumnIndex(alphabetExcel[0]), maxRow + 1), Str(TotalLabel));
      if !ok {
        return Raised(RowOutOfSheet);
      }
      ok := ws.SetValue(TitleCell, Str(ReportTitle));
      ok := ws.SetValue(YearCell, Str(ReportYear));
      ok := ws.SetFont(TitleCell, TitleFont);
      ok := ws.SetFont(YearCell, YearFont);
      status := Done;
    }

    /** The layout steps of `main` (:26-33) on the sheet's occupied range:
        column widths, the chart, then the totals, each step run only if the
        one before it returned; the totals call passes its arguments in
        declared order. */
    method Layout(ws: Worksheet, b: Bounds) returns (status: Status<LayoutError>)
      modifies ws
      ensures status.Done? <==> ColumnLettersExist(b.minColumn, b.maxColumn) && MainTotals(old(ws.cells), b).Ok?
      ensures status.Done? ==>
        && ws.cells == MainTotals(old(ws.cells), b).value
        && ws.columnDimensions == DimensionHolder(b.minColumn, b.maxColumn)
        && ws.charts == old(ws.charts) + [Chart.SalesChart(b.minColumn, b.maxColumn, b.minRow, b.maxRow)]
      ensures !ColumnLettersExist(b.minColumn, b.maxColumn) ==>
        && status == Raised(DimensionFailed(InvalidColumnIndex))
        && ws.cells == old(ws.cells)
        && ws.columnDimensions == old(ws.columnDimensions)
        && ws.charts == old(ws.charts)
      ensures ColumnLettersExist(b.minColumn, b.maxColumn) && MainTotals(old(ws.cells), b).Err? ==>
        && status == Raised(TotalsFailed(MainTotals(old(ws.cells), b).error))
        && ws.cells == old(ws.cells)
        && ws.columnDimensions == DimensionHolder(b.minColumn, b.maxColumn)
        && ws.charts == old(ws.charts) + [Chart.SalesChart(b.minColumn, b.maxColumn, b.minRow, b.maxRow)]
    {
      var dims := ColumnDimensions(ws, b.minColumn, b.maxColumn);
      if dims.Raised? {
        return Raised(DimensionFailed(dims.error));
      }
      BarChart(ws, b.minColumn, b.maxColumn, b.minRow, b.maxRow);
      var totals := AddTotal(b.maxColumn, b.minRow, b.maxRow, ws);
      if totals.Raised? {
        return Raised(TotalsFailed(totals.error));
      }
      status := Done;
    }
  }
}
