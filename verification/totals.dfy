/** What `add_total` does to the report sheet, stated as functions on the
    cell map: the loop's writes letter by letter, the label and title writes
    after it, and a cell-by-cell description of the result. */
module Totals {
  import opened Outcomes
  import opened Sheet
  import Formula

  /** The letter `i` places after A. */
  function Letter(i: nat): char
    requires i < 26
  {
    ('A' as int + i) as char
  }

  /** `string.ascii_uppercase`; the source spells it `ascli_uppercase` (:107),
      which is read here as the standard constant. */
  const Alphabet: string := "ABCDEFGHIJKLMNOPQRSTUVWXYZ"

  /** The alphabet runs from A to Z without gaps. */
  lemma AlphabetInOrder()
    ensures forall i :: 0 <= i < |Alphabet| ==> Alphabet[i] == Letter(i)
  {
  }

  const Currency: string := "Currency"
  const TotalLabel: string := "Total"
  const ReportTitle: string := "Sales Report"
  const ReportYear: string := "2019"
  const TitleFont: Font := Font("Arial", true, 20)
  const YearFont: Font := Font("Arial", true, 10)
  const TitleCell: Coord := Coord(1, 1)
  const YearCell: Coord := Coord(1, 2)

  /** Why `add_total` raises: `alphabet_excel[0]` on an empty list, or the
      worksheet refusing a totals row below row 1. */
  datatype TotalError = EmptyColumnList | RowOutOfSheet

  function Min(a: int, b: int): int {
    if a <= b then a else b
  }

  /** Where Python's `xs[:stop]` ends on a list of `len` elements: a negative
      stop counts from the end. */
  function SliceStop(stop: int, len: nat): (r: nat)
    ensures r <= len
    ensures 0 <= stop ==> r == Min(stop, len)
    ensures stop < 0 ==> r + Min(-stop, len) == len
  {
    if stop >= 0 then Min(stop, len)
    else if len + stop > 0 then len + stop
    else 0
  }

  /** `alphabet[:max_column]`: the first letters of the alphabet, in order,
      as many as Python's slice keeps. */
  function Letters(maxColumn: int): (r: string)
    ensures AlphabetPrefix(r) && |r| == SliceStop(maxColumn, 26)
  {
    AlphabetInOrder();
    Alphabet[..SliceStop(maxColumn, |Alphabet|)]
  }

  /** The column index of a single column letter. */
  function ColumnIndex(letter: char): int {
    letter as int - 'A' as int + 1
  }

  /** One pass of the loop body at :110-112: a formula summing the letter's
      own column, then the currency style, both in the totals row. */
  function TotalStep(cells: Cells, letter: char, minRow: int, maxRow: int): Cells {
    if letter != 'A' then
      var c := Coord(ColumnIndex(letter), maxRow + 1);
      WithStyle(WithValue(cells, c, Str(Formula.SumFormula(letter, minRow + 1, maxRow))), c, Currency)
    else
      cells
  }

  /** The loop at :109-112 over `letters`, in order. */
  function WriteTotals(cells: Cells, letters: string, minRow: int, maxRow: int): Cells
    decreases |letters|
  {
    if letters == [] then cells
    else TotalStep(WriteTotals(cells, letters[..|letters| - 1], minRow, maxRow), letters[|letters| - 1], minRow, maxRow)
  }

  /** The writes at :116-119: title and year text, then their fonts. Only A1
      and A2 change, and each keeps its style. */
  function TitleBlock(cells: Cells): (r: Cells)
    ensures Get(r, TitleCell) == Get(cells, TitleCell).(value := Str(ReportTitle), font := TitleFont)
    ensures Get(r, YearCell) == Get(cells, YearCell).(value := Str(ReportYear), font := YearFont)
    ensures forall d :: d != TitleCell && d != YearCell ==> Get(r, d) == Get(cells, d)
  {
    var titled := WithValue(WithValue(cells, TitleCell, Str(ReportTitle)), YearCell, Str(ReportYear));
    WithFont(WithFont(titled, TitleCell, TitleFont), YearCell, YearFont)
  }

  /** `add_total(max_column, min_row, max_row, ws)` (:106-119) on the sheet's
      cells. The loop cannot write before the first error check fails:
      with no letters it writes nothing, and with a bad row its first write
      is already refused. */
  function WithTotals(cells: Cells, maxColumn: int, minRow: int, maxRow: int): Result<Cells, TotalError> {
    var letters := Letters(maxColumn);
    if |letters| == 0 then Err(EmptyColumnList)
    else if maxRow + 1 < 1 then Err(RowOutOfSheet)
    else
      var totalled := WriteTotals(cells, letters, minRow, maxRow);
      Ok(TitleBlock(WithValue(totalled, Coord(ColumnIndex(letters[0]), maxRow + 1), Str(TotalLabel))))
  }

  /** The formula cells of the totals row when `width` letters are used:
      every column from B to the last letter's. */
  function TotalsCells(width: int, row: int): set<Coord> {
    set col | 2 <= col <= width :: Coord(col, row)
  }

  /** Every cell `add_total` may write. */
  function Touched(width: int, row: int): set<Coord> {
    {TitleCell, YearCell, Coord(1, row)} + TotalsCells(width, row)
  }

  /** A totals cell: the sum formula for the column's letter, in currency style. */
  function FormulaCell(before: Cell, column: int, minRow: int, maxRow: int): Cell
    requires 1 <= column <= 26
  {
    before.(value := Str(Formula.SumFormula(Letter(column - 1), minRow + 1, maxRow)), style := Currency)
  }

  /** A cell after the loop has run over the first `width` letters. */
  function AfterLoop(cells: Cells, width: int, minRow: int, maxRow: int, c: Coord): Cell
    requires width <= 26
  {
    if c.row == maxRow + 1 && 2 <= c.column <= width then FormulaCell(Get(cells, c), c.column, minRow, maxRow)
    else Get(cells, c)
  }

  /** What a cell holds after `add_total`, stated cell by cell independently
      of the order of the writes. */
  function Expected(cells: Cells, width: int, minRow: int, maxRow: int, c: Coord): Cell
    requires 1 <= width <= 26
  {
    var before := Get(cells, c);
    if c == TitleCell then before.(value := Str(ReportTitle), font := TitleFont)
    else if c == YearCell then before.(value := Str(ReportYear), font := YearFont)
    else if c == Coord(1, maxRow + 1) then before.(value := Str(TotalLabel))
    else if c.row == maxRow + 1 && 2 <= c.column <= width then FormulaCell(before, c.column, minRow, maxRow)
    else before
  }

  /** The letters are the first letters of the alphabet, in order. */
  predicate AlphabetPrefix(letters: string) {
    |letters| <= 26 && forall i :: 0 <= i < |letters| ==> letters[i] == Letter(i)
  }

  /** Running the loop over a prefix of the alphabet adds exactly the formula
      cells of columns 2..k to the sheet. */
  lemma {:induction false} WriteTotalsKeys(cells: Cells, letters: string, minRow: int, maxRow: int)
    requires AlphabetPrefix(letters)
    ensures WriteTotals(cells, letters, minRow, maxRow).Keys == cells.Keys + TotalsCells(|letters|, maxRow + 1)
    decreases |letters|
  {
    var k := |letters|;
    if k == 0 {
      assert TotalsCells(k, maxRow + 1) == {};
    } else {
      var previous := letters[..k - 1];
      assert AlphabetPrefix(previous);
      WriteTotalsKeys(cells, previous, minRow, maxRow);
      if k == 1 {
        assert TotalsCells(k, maxRow + 1) == TotalsCells(k - 1, maxRow + 1);
      } else {
        assert ColumnIndex(letters[k - 1]) == k;
        assert TotalsCells(k, maxRow + 1) == TotalsCells(k - 1, maxRow + 1) + {Coord(k, maxRow + 1)};
      }
    }
  }

  /** Running the loop over a prefix of the alphabet puts a formula and the
      currency style in columns 2..k of the totals row and leaves every other
      cell alone. */
  lemma {:induction false} WriteTotalsCell(cells: Cells, letters: string, minRow: int, maxRow: int, c: Coord)
    requires AlphabetPrefix(letters)
    ensures Get(WriteTotals(cells, letters, minRow, maxRow), c) == AfterLoop(cells, |letters|, minRow, maxRow, c)
    decreases |letters|
  {
    var k := |letters|;
    if k > 0 {
      var previous := letters[..k - 1];
      assert AlphabetPrefix(previous);
      WriteTotalsCell(cells, previous, minRow, maxRow, c);
      assert ColumnIndex(letters[k - 1]) == k;
    }
  }

  /** The cells a successful `add_total` adds to the sheet. */
  lemma WithTotalsKeys(cells: Cells, maxColumn: int, minRow: int, maxRow: int)
    requires WithTotals(cells, maxColumn, minRow, maxRow).Ok?
    ensures 1 <= |Letters(maxColumn)| <= 26
    ensures WithTotals(cells, maxColumn, minRow, maxRow).value.Keys == cells.Keys + Touched(|Letters(maxColumn)|, maxRow + 1)
  {
    WriteTotalsKeys(cells, Letters(maxColumn), minRow, maxRow);
  }

  /** A cell after a successful `add_total` is what `Expected` says. */
  lemma WithTotalsAt(cells: Cells, maxColumn: int, minRow: int, maxRow: int, c: Coord)
    requires WithTotals(cells, maxColumn, minRow, maxRow).Ok?
    ensures 1 <= |Letters(maxColumn)| <= 26
    ensures Get(WithTotals(cells, maxColumn, minRow, maxRow).value, c) == Expected(cells, |Letters(maxColumn)|, minRow, maxRow, c)
  {
    var letters := Letters(maxColumn);
    WriteTotalsCell(cells, letters, minRow, maxRow, c);
    WriteTotalsCell(cells, letters, minRow, maxRow, Coord(1, maxRow + 1));
    WriteTotalsCell(cells, letters, minRow, maxRow, TitleCell);
    WriteTotalsCell(cells, letters, minRow, maxRow, YearCell);
  }

  /** Each letter after A gets `=SUM(L{min_row+1}:L{max_row})` in the totals
      row, in currency style: a sum over its own column only, from row
      `min_row + 1` to row `max_row`. */
  lemma TotalsSumOwnColumn(cells: Cells, maxColumn: int, minRow: int, maxRow: int, i: int)
    requires WithTotals(cells, maxColumn, minRow, maxRow).Ok?
    requires 1 <= i < |Letters(maxColumn)|
    ensures var cell := Get(WithTotals(cells, maxColumn, minRow, maxRow).value, Coord(i + 1, maxRow + 1));
      var letter := Letters(maxColumn)[i];
      && cell.value == Str(Formula.SumFormula(letter, minRow + 1, maxRow))
      && cell.style == Currency
      && Formula.ParseSumFormula(cell.value.text) == Some(Formula.CellRange(letter, minRow + 1, letter, maxRow))
  {
    WithTotalsAt(cells, maxColumn, minRow, maxRow, Coord(i + 1, maxRow + 1));
    var letter := Letters(maxColumn)[i];
    assert letter == Letter(i);
    Formula.SumFormulaRoundTrip(letter, minRow + 1, maxRow);
  }

  /** Column A never gets a formula or the currency style: its cells keep their
      style and hold either their old content or one of the fixed labels. */
  lemma ColumnANeverFormula(cells: Cells, maxColumn: int, minRow: int, maxRow: int, row: int)
    requires WithTotals(cells, maxColumn, minRow, maxRow).Ok?
    ensures var before := Get(cells, Coord(1, row));
      var after := Get(WithTotals(cells, maxColumn, minRow, maxRow).value, Coord(1, row));
      && after.style == before.style
      && (after.value == before.value
          || after.value == Str(TotalLabel) || after.value == Str(ReportTitle) || after.value == Str(ReportYear))
  {
    WithTotalsAt(cells, maxColumn, minRow, maxRow, Coord(1, row));
  }

  /** Column A of the row below the table holds "Total", unless that row is
      row 1 or 2, where the title block is written last and wins. */
  lemma TotalLabelBelowTable(cells: Cells, maxColumn: int, minRow: int, maxRow: int)
    requires WithTotals(cells, maxColumn, minRow, maxRow).Ok?
    ensures var after := WithTotals(cells, maxColumn, minRow, maxRow).value;
      && (maxRow + 1 > 2 ==> Get(after, Coord(1, maxRow + 1)).value == Str(TotalLabel))
      && (maxRow + 1 == 1 ==> Get(after, Coord(1, maxRow + 1)).value == Str(ReportTitle))
      && (maxRow + 1 == 2 ==> Get(after, Coord(1, maxRow + 1)).value == Str(ReportYear))
  {
    WithTotalsAt(cells, maxColumn, minRow, maxRow, Coord(1, maxRow + 1));
  }

  /** After the call A1 reads "Sales Report" in bold 20-point Arial and A2
      reads "2019" in bold 10-point Arial, whatever the table bounds. */
  lemma TitleBlockWritten(cells: Cells, maxColumn: int, minRow: int, maxRow: int)
    requires WithTotals(cells, maxColumn, minRow, maxRow).Ok?
    ensures var after := WithTotals(cells, maxColumn, minRow, maxRow).value;
      && Get(after, TitleCell).value == Str("Sales Report") && Get(after, TitleCell).font == Font("Arial", true, 20)
      && Get(after, YearCell).value == Str("2019") && Get(after, YearCell).font == Font("Arial", true, 10)
  {
    WithTotalsAt(cells, maxColumn, minRow, maxRow, TitleCell);
    WithTotalsAt(cells, maxColumn, minRow, maxRow, YearCell);
  }

  /** Only the totals row in columns A to the last letter, A1 and A2 change;
      in particular no column after Z is touched. */
  lemma NothingElseChanges(cells: Cells, maxColumn: int, minRow: int, maxRow: int, c: Coord)
    requires WithTotals(cells, maxColumn, minRow, maxRow).Ok?
    requires c !in Touched(|Letters(maxColumn)|, maxRow + 1) || c.column > 26
    ensures Get(WithTotals(cells, maxColumn, minRow, maxRow).value, c) == Get(cells, c)
  {
    WithTotalsAt(cells, maxColumn, minRow, maxRow, c);
  }

  lemma {:induction false} TotalsCellsCount(width: int, row: int)
    requires width >= 1
    ensures |TotalsCells(width, row)| == width - 1
    decreases width
  {
    if width == 1 {
      assert TotalsCells(width, row) == {};
    } else {
      TotalsCellsCount(width - 1, row);
      assert TotalsCells(width, row) == TotalsCells(width - 1, row) + {Coord(width, row)};
    }
  }

  /** With `max_column >= 1`, the letters used are the first `min(max_column, 26)`
      and exactly `min(max_column, 26) - 1` formula cells are written. */
  lemma FormulaCellCount(maxColumn: int, row: int)
    requires maxColumn >= 1
    ensures |Letters(maxColumn)| == Min(maxColumn, 26)
    ensures |TotalsCells(|Letters(maxColumn)|, row)| == Min(maxColumn, 26) - 1
  {
    TotalsCellsCount(Min(maxColumn, 26), row);
  }

  /** `add_total` raises exactly when the letter slice is empty (a `max_column`
      of 0, or of -26 or less as a Python slice bound) or the totals row would
      lie above row 1. */
  lemma WithTotalsErrors(cells: Cells, maxColumn: int, minRow: int, maxRow: int)
    ensures WithTotals(cells, maxColumn, minRow, maxRow) == Err(EmptyColumnList)
      <==> maxColumn == 0 || maxColumn <= -26
    ensures WithTotals(cells, maxColumn, minRow, maxRow) == Err(RowOutOfSheet)
      <==> maxColumn != 0 && maxColumn > -26 && maxRow < 0
  {
  }

  /** Rewriting a cell that already holds what `Expected` gives changes nothing. */
  lemma ExpectedStable(cells: Cells, after: Cells, width: int, minRow: int, maxRow: int, c: Coord)
    requires 1 <= width <= 26
    requires Get(after, c) == Expected(cells, width, minRow, maxRow, c)
    ensures Expected(after, width, minRow, maxRow, c) == Get(after, c)
  {
  }

  /** Running `add_total` again with the same bounds changes nothing more. */
  lemma WithTotalsIdempotent(cells: Cells, maxColumn: int, minRow: int, maxRow: int)
    requires WithTotals(cells, maxColumn, minRow, maxRow).Ok?
    ensures var after := WithTotals(cells, maxColumn, minRow, maxRow).value;
      WithTotals(after, maxColumn, minRow, maxRow) == Ok(after)
  {
    var after := WithTotals(cells, maxColumn, minRow, maxRow).value;
    var width := |Letters(maxColumn)|;
    assert WithTotals(after, maxColumn, minRow, maxRow).Ok?;
    var again := WithTotals(after, maxColumn, minRow, maxRow).value;
    WithTotalsKeys(cells, maxColumn, minRow, maxRow);
    WithTotalsKeys(after, maxColumn, minRow, maxRow);
    assert again.Keys == after.Keys;
    forall c | c in again
      ensures again[c] == after[c]
    {
      WithTotalsAt(cells, maxColumn, minRow, maxRow, c);
      WithTotalsAt(after, maxColumn, minRow, maxRow, c);
      ExpectedStable(cells, after, width, minRow, maxRow, c);
    }
    assert again == after;
  }
}
