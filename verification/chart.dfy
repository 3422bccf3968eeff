/** The bar chart that `barchart` builds from the table's bounds: a data
    reference, a category reference, an anchor cell, a title and a style. */
module Chart {
  /** An openpyxl `Reference`: the inclusive column and row bounds of a block of cells. */
  datatype Reference = Reference(minCol: int, maxCol: int, minRow: int, maxRow: int)

  datatype BarChart = BarChart(
    data: Reference,
    titlesFromData: bool,
    categories: Reference,
    anchor: string,
    title: string,
    style: int)

  const Anchor: string := "B12"
  const Title: string := "Sales berdasarkan Produk"
  const Style: int := 2

  predicate Covers(ref: Reference, col: int, row: int) {
    ref.minCol <= col <= ref.maxCol && ref.minRow <= row <= ref.maxRow
  }

  /** The reference at :80-85: every column but the first, header row included. */
  function DataReference(minCol: int, maxCol: int, minRow: int, maxRow: int): Reference {
    Reference(minCol + 1, maxCol, minRow, maxRow)
  }

  /** The reference at :87-92: every column, header row excluded. */
  function CategoryReference(minCol: int, maxCol: int, minRow: int, maxRow: int): Reference {
    Reference(minCol, maxCol, minRow + 1, maxRow)
  }

  /** The chart as it stands once `barchart` returns; the title and style are
      set after `add_chart` on the same object, so the sheet's chart carries them. */
  function SalesChart(minCol: int, maxCol: int, minRow: int, maxRow: int): BarChart {
    BarChart(
      DataReference(minCol, maxCol, minRow, maxRow),
      true,
      CategoryReference(minCol, maxCol, minRow, maxRow),
      Anchor, Title, Style)
  }

  /** One series per referenced data column. */
  function SeriesCount(chart: BarChart): int {
    chart.data.maxCol - chart.data.minCol + 1
  }

  /** Values per series: with titles taken from the data, the first row is the title. */
  function PointsPerSeries(chart: BarChart): int {
    if chart.titlesFromData then chart.data.maxRow - chart.data.minRow
    else chart.data.maxRow - chart.data.minRow + 1
  }

  /** The data block is the table without its label column: columns after
      `minCol`, every row from the header row down. */
  lemma DataIsTableWithoutLabels(minCol: int, maxCol: int, minRow: int, maxRow: int, col: int, row: int)
    ensures Covers(SalesChart(minCol, maxCol, minRow, maxRow).data, col, row)
        <==> minCol < col <= maxCol && minRow <= row <= maxRow
  {
  }

  /** There is one series per value column, each titled by its header cell,
      and its values lie on exactly the rows the categories span. */
  lemma SeriesAlignWithCategories(minCol: int, maxCol: int, minRow: int, maxRow: int)
    ensures var chart := SalesChart(minCol, maxCol, minRow, maxRow);
      && SeriesCount(chart) == maxCol - minCol
      && PointsPerSeries(chart) == maxRow - minRow
      && chart.data.minRow == minRow
      && chart.categories.minRow == chart.data.minRow + 1
      && chart.categories.maxRow == chart.data.maxRow
  {
  }

  /** The category reference spans every column of the table, so on any
      table with a value column and a data row it also covers the first cell
      of the data reference. */
  lemma CategoriesOverlapValues(minCol: int, maxCol: int, minRow: int, maxRow: int)
    requires minCol < maxCol && minRow < maxRow
    ensures var chart := SalesChart(minCol, maxCol, minRow, maxRow);
      Covers(chart.categories, minCol + 1, minRow + 1) && Covers(chart.data, minCol + 1, minRow + 1)
  {
  }

  lemma ChartPlacement(minCol: int, maxCol: int, minRow: int, maxRow: int)
    ensures var chart := SalesChart(minCol, maxCol, minRow, maxRow);
      chart.anchor == "B12" && chart.title == "Sales berdasarkan Produk" && chart.style == 2
  {
  }
}
