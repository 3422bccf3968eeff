# Sales report layout: a Dafny model of `ExcelReportPlugin`'s sheet arithmetic

`ExcelReportPlugin` (report/src/operators/xlsx_report_plugin.py) writes a
pivot table of sales to the sheet "Report". It then reopens the workbook and
lays the sheet out. It sets the column widths, places a bar chart, adds a
totals row of `=SUM` formulas with a "Total" label, and writes a two-line
title block in A1 and A2. This project models that layout step on an abstract
worksheet:

- `Sheet` holds the worksheet. It has a `Worksheet` class whose fields are
  updated in place: cells keyed by (column index, row), the column
  dimensions, and the placed charts. It also has the cell-level writes
  `ws[addr] = v`, `.style = ...` and `.font = ...`, and each of them is
  refused for an address whose row or column is below 1.
- `Text` renders integers as Python's `str(int)` does, and has the parser
  that reads them back.
- `Formula` builds the totals formula text `=SUM(L{first}:L{last})` and has a
  reader that recovers the summed range from it.
- `Totals` specifies `add_total` as functions on the cell map. It also gives
  an independent cell-by-cell description of the result, proves the two
  agree, and proves the properties of the totals row and title block.
- `Chart` covers the references, anchor, title and style of the chart that
  `barchart` builds.
- `ReportPlugin` holds the `ExcelReportPlugin` class. Its methods
  `ColumnDimensions` and `AddTotal` keep the source's loops, and `BarChart`
  builds the chart without one. Each method is proved against the
  specification functions (`DimensionHolder`, `WithTotals`,
  `Chart.SalesChart`). `Layout` runs the layout part of `main`.

The source does not run as written. The model follows what each definition
evidently means, and the deviations are:

- :14: the `__init__` signature lacks its closing `:`. The model's
  constructor stores both paths.
- :107: `string.ascli_uppercase` is read as `string.ascii_uppercase`.
- :72: `workbook.max` is read as `workbook.max_column`.
- :73: the call `column_dimensions(...)` is read as openpyxl's
  `ColumnDimension(...)`.
- :32 and :77-92: `barchart` is declared with `(workbook, min_col, max_col)`,
  but its body reads `min_column`, `max_column`, `min_row` and `max_row`, and
  `main` passes all four bounds. The model takes the four bounds.
- :33 passes `(max_column, max_row, min_row, ws)` to `add_total`, which is
  declared `(max_column, min_row, max_row, wb)`. `add_total` is modelled at
  its definition, with its parameters as declared. The call as written is
  the finding below, and `Layout` passes the arguments in declared order.
- :87-92: the category reference spans columns `min_col..max_col`. The model
  follows the code, and `Chart.CategoriesOverlapValues` shows that this range
  also covers the first value cell of the data reference.

`alphabet[:max_column]` is modelled with Python's slice semantics: a stop
beyond 26 is clamped, and a negative stop counts from the end. An empty
slice makes `alphabet_excel[0]` raise at :114. A totals row below row 1 is
refused at the first cell write. In both cases nothing has been written yet,
so the sheet is left unchanged.

## Model

| member | source | states |
|---|---|---|
| `Text.IntString` | report/src/operators/xlsx_report_plugin.py:111 | the row numbers in the formula are rendered as `str(int)`: a minus sign exactly for negative rows, digits otherwise, never a `:` or `)` |
| `Text.NatString` | report/src/operators/xlsx_report_plugin.py:111 | decimal digits without a leading zero (the first digit is `0` only for zero) |
| `Text.IntStringRoundTrip` | report/src/operators/xlsx_report_plugin.py:111 | parsing a rendered row number gives back that number |
| `Text.IntStringInjective` | report/src/operators/xlsx_report_plugin.py:111 | different rows render as different text |
| `Formula.CellName` | report/src/operators/xlsx_report_plugin.py:111 | a cell name `f'{letter}{row}'` starts with its letter, and nothing after the letter is `:` or `)` |
| `Formula.CellNameRoundTrip` | report/src/operators/xlsx_report_plugin.py:111 | reading a cell name gives back its letter and row |
| `Formula.SumFormulaRoundTrip` | report/src/operators/xlsx_report_plugin.py:111 | states what `SumFormula` builds: `=SUM(L{first}:L{last})` reads back as the range from column L row `first` to the same column L row `last` |
| `Totals.SliceStop` | report/src/operators/xlsx_report_plugin.py:108 | `alphabet[:max_column]` keeps `min(max_column, 26)` letters for a non-negative stop; a negative stop drops that many letters from the end |
| `Totals.Letters` | report/src/operators/xlsx_report_plugin.py:107-108 | `alphabet[:max_column]` is the first letters of the alphabet in order, as many as the Python slice keeps (`SliceStop`) |
| `Totals.AlphabetInOrder` | report/src/operators/xlsx_report_plugin.py:107 | `ascii_uppercase` is A to Z without gaps, so letter i names column i+1 |
| `Totals.WriteTotalsKeys` | report/src/operators/xlsx_report_plugin.py:109-112 | `WriteTotals`, the loop over the letters with `TotalStep` as its body, adds exactly the totals-row cells of columns 2..k to the sheet |
| `Totals.WriteTotalsCell` | report/src/operators/xlsx_report_plugin.py:109-112 | after `WriteTotals` over the first k letters, columns 2..k of the totals row hold their column's formula in currency style, and every other cell is as before |
| `Totals.WithTotalsKeys` | report/src/operators/xlsx_report_plugin.py:106-119 | a successful `WithTotals` (the whole `add_total`) uses 1 to 26 letters, and adds exactly the totals row (columns A..last letter), A1 and A2 |
| `Totals.WithTotalsAt` | report/src/operators/xlsx_report_plugin.py:106-119 | every cell after `WithTotals` (the whole `add_total`) is what the order-independent description `Expected` gives |
| `Totals.TotalsSumOwnColumn` | report/src/operators/xlsx_report_plugin.py:109-112 | for each letter L after A, cell `L{max_row+1}` holds `=SUM(L{min_row+1}:L{max_row})` in style `Currency`, and that formula reads as a range in column L alone, over rows `min_row+1..max_row` |
| `Totals.ColumnANeverFormula` | report/src/operators/xlsx_report_plugin.py:110 | a column-A cell keeps its style and holds its old content, "Total", "Sales Report" or "2019", never a formula |
| `Totals.TotalLabelBelowTable` | report/src/operators/xlsx_report_plugin.py:114 | `A{max_row+1}` holds "Total", except when that row is 1 or 2, where the later title writes win |
| `Totals.TitleBlock` | report/src/operators/xlsx_report_plugin.py:116-119 | the four title writes change A1 and A2 only: A1 gets "Sales Report" in the title font, A2 gets "2019" in the year font, and each keeps its style |
| `Totals.TitleBlockWritten` | report/src/operators/xlsx_report_plugin.py:116-119 | after the whole call, A1 is "Sales Report" in bold Arial 20 and A2 is "2019" in bold Arial 10, whatever the bounds |
| `Totals.NothingElseChanges` | report/src/operators/xlsx_report_plugin.py:106-119 | any cell outside the totals row's columns A..last letter and outside A1 and A2 is unchanged, and so is every column after Z |
| `Totals.TotalsCellsCount` | report/src/operators/xlsx_report_plugin.py:109-112 | with `width` letters, the totals row has `width - 1` formula cells |
| `Totals.FormulaCellCount` | report/src/operators/xlsx_report_plugin.py:107-112 | for `max_column >= 1`, `min(max_column, 26)` letters are used and exactly `min(max_column, 26) - 1` formula cells are written |
| `Totals.WithTotalsErrors` | report/src/operators/xlsx_report_plugin.py:108-114 | `add_total` raises on an empty letter slice exactly when `max_column` is 0 or at most -26, and otherwise exactly when the totals row lies above row 1 |
| `Totals.ExpectedStable` | report/src/operators/xlsx_report_plugin.py:106-119 | applying the cell description to a cell that already matches it changes nothing |
| `Totals.WithTotalsIdempotent` | report/src/operators/xlsx_report_plugin.py:106-119 | a second `add_total` with the same bounds leaves the sheet exactly as the first left it |
| `Chart.DataIsTableWithoutLabels` | report/src/operators/xlsx_report_plugin.py:80-85 | `DataReference`, the data of `SalesChart`, covers columns `min_col+1..max_col` and rows `min_row..max_row`: the table without its label column, header row included |
| `Chart.SeriesAlignWithCategories` | report/src/operators/xlsx_report_plugin.py:80-95 | in `SalesChart`, there is one series per value column, titled from the header row, and each series has one value for each category row `min_row+1..max_row` |
| `Chart.CategoriesOverlapValues` | report/src/operators/xlsx_report_plugin.py:87-92 | `CategoryReference`, as written, also covers value cells of the data reference, starting with the first one |
| `Chart.ChartPlacement` | report/src/operators/xlsx_report_plugin.py:97-99 | `SalesChart` is anchored at B12, with title "Sales berdasarkan Produk" and style 2 |
| `Sheet.Worksheet.constructor` | report/src/operators/xlsx_report_plugin.py:23-24 | the reopened sheet starts with its cells, no column dimensions and no charts |
| `Sheet.Worksheet.SetValue` | report/src/operators/xlsx_report_plugin.py:111 | `ws[addr] = v` changes only that cell's value and is refused for a row or column below 1 |
| `Sheet.Worksheet.SetStyle` | report/src/operators/xlsx_report_plugin.py:112 | `.style = s` changes only that cell's style |
| `Sheet.Worksheet.SetFont` | report/src/operators/xlsx_report_plugin.py:118-119 | `.font = f` changes only that cell's font |
| `Sheet.Worksheet.AddChart` | report/src/operators/xlsx_report_plugin.py:97 | `add_chart` appends the chart and changes nothing else |
| `ReportPlugin.DimensionHolderCovers` | report/src/operators/xlsx_report_plugin.py:72-73 | `DimensionHolder`, the holder the loop fills: every column from `min_column` to `max_column` gets width 20 and spans only itself, and no other column gets a dimension |
| `ReportPlugin.SwappedCallOverwritesData` | report/src/operators/xlsx_report_plugin.py:33 | `MainTotalsAsWritten`, the call as written: the first data row's B cell is replaced by `=SUM(B{max_row+1}:B{min_row})` |
| `ReportPlugin.SwappedCallExample` | report/src/operators/xlsx_report_plugin.py:33 | for a table in rows 5-7 whose B6 holds 100, the call as written leaves `=SUM(B8:B5)` in B6 |
| `ReportPlugin.MainTotalsKeepTable` | report/src/operators/xlsx_report_plugin.py:106-119 | `MainTotals`, the call in declared order: no cell of a table starting at row 3 or below is changed |
| `ReportPlugin.MainTotalsSumDataRows` | report/src/operators/xlsx_report_plugin.py:106-119 | `MainTotals`, the call in declared order: each value column's total covers exactly the data rows under its header |
| `ReportPlugin.ExcelReportPlugin.constructor` | report/src/operators/xlsx_report_plugin.py:12-16 | the plugin keeps its input and output paths |
| `ReportPlugin.ExcelReportPlugin.ColumnDimensions` | report/src/operators/xlsx_report_plugin.py:69-75 | the loop fills a fresh holder, and the holder replaces the sheet's column dimensions exactly when every column index has a letter; otherwise it raises and nothing changes |
| `ReportPlugin.ExcelReportPlugin.BarChart` | report/src/operators/xlsx_report_plugin.py:77-99 | appends exactly the chart described by `Chart.SalesChart`, and leaves the cells and column dimensions alone |
| `ReportPlugin.ExcelReportPlugin.AddTotal` | report/src/operators/xlsx_report_plugin.py:106-119 | the loop and the writes leave the cells exactly as `Totals.WithTotals` says, or raise its error with the sheet unchanged |
| `ReportPlugin.ExcelReportPlugin.Layout` | report/src/operators/xlsx_report_plugin.py:26-33 | runs widths, chart and totals in order; on success the sheet has the widths, the chart and the totals of the declared-order call; on a width error nothing changes; on a totals error the widths and chart are in place, the cells are unchanged and the totals error is raised |

## Findings

| source | as written | input that shows it | evidently intended | confidence | as-written member | corrected member |
|---|---|---|---|---|---|---|
| report/src/operators/xlsx_report_plugin.py:33 | `self.add_total(max_column, max_row, min_row, wb.active)` against the signature `(max_column, min_row, max_row, wb)` at :106 | a table in rows 5-7 and columns A-C whose B6 holds 100: the totals row goes to row 6 and B6 becomes `=SUM(B8:B5)` | the totals go to row 8 and sum rows 6-7 of each column, with the table untouched | high, not executed | `ReportPlugin.SwappedCallExample` | `ReportPlugin.MainTotalsKeepTable` |

## Left out

- `read_input_file` (:37-47) and `create_output_file` (:101-104): file input and output through pandas. The sheet enters the model as a `Worksheet` value.
- `transform` (:49-67): pandas `pivot_table(...).round()` is library behaviour on floating-point values. Cell contents are opaque values in the model.
- `load_workbook`, `wb.save` (:23, :121-122), `logging`, and the construction of openpyxl `Font`, `BarChart`, `Reference` and `DimensionHolder` objects. Only the integers and strings passed to them are modelled.
- `main` (:18-34): reading and saving are left out. Its bounds enter `Layout` as parameters, and openpyxl's computation of `min_row`, `max_row`, `min_column` and `max_column` from the stored cells is not modelled.
- Coordinate strings: openpyxl parses `f'{letter}{row}'` into a cell position. The model addresses cells by (column index, row) directly. The rendered text is modelled only where it is content, in the formula.
- `ReportPlugin.ExcelReportPlugin.ColumnDimensions`: the holder is keyed by column index rather than by `get_column_letter(col)`. The two agree because `get_column_letter` is one-to-one on 1..18278. Its letter computation is not modelled, only its refusal of other indices.
- `Sheet.Worksheet.SetValue`: a row above openpyxl's sheet limit of 1048576 is not refused. Only the refusal of rows and columns below 1 is modelled.
- `Sheet.Worksheet.SetStyle`: applying the named style "Currency" also sets number format, font and other attributes. Only the style name is recorded.
- The chart's title and style are set after `add_chart` (:97-99) on the same object. The model places the finished chart, which is what the sheet holds when `barchart` returns.
