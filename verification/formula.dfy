/** The `=SUM(...)` formula text that the totals row holds, and a reader for it
    that recovers the summed range. */
module Formula {
  import opened Outcomes
  import Text

  predicate IsColumnLetter(ch: char) {
    'A' <= ch <= 'Z'
  }

  /** A rectangular reference `first:last` written with column letters. */
  datatype CellRange = CellRange(firstColumn: char, firstRow: int, lastColumn: char, lastRow: int)

  /** A cell name as the f-string `f'{letter}{row}'` spells it. */
  function CellName(column: char, row: int): (s: string)
    ensures |s| >= 2 && s[0] == column
    ensures ':' !in s[1..] && ')' !in s[1..]
  {
    [column] + Text.IntString(row)
  }

  /** The formula `f'=SUM({L}{first}:{L}{last})'`. */
  function SumFormula(column: char, first: int, last: int): string
  {
    "=SUM(" + CellName(column, first) + ":" + CellName(column, last) + ")"
  }

  /** The position of the first `ch` in `s`, if any. */
  function FirstIndexOf(s: string, ch: char): (r: Option<nat>)
    ensures r.None? <==> ch !in s
    ensures r.Some? ==> r.value < |s| && s[r.value] == ch && ch !in s[..r.value]
  {
    if s == [] then None
    else if s[0] == ch then Some(0)
    else
      match FirstIndexOf(s[1..], ch)
      case None => None
      case Some(k) =>
        assert s[1..][..k] == s[1..k + 1];
        Some(k + 1)
  }

  function ParseCellName(s: string): Option<(char, int)>
  {
    if |s| >= 1 && IsColumnLetter(s[0]) then
      match Text.ParseInt(s[1..])
      case None => None
      case Some(row) => Some((s[0], row))
    else
      None
  }

  /** Reads `=SUM(<cell>:<cell>)`, splitting at the first colon. */
  function ParseSumFormula(f: string): Option<CellRange>
  {
    if |f| >= 6 && f[..5] == "=SUM(" && f[|f| - 1] == ')' then
      var body := f[5..|f| - 1];
      match FirstIndexOf(body, ':')
      case None => None
      case Some(k) =>
        match (ParseCellName(body[..k]), ParseCellName(body[k + 1..]))
        case (Some((c1, r1)), Some((c2, r2))) => Some(CellRange(c1, r1, c2, r2))
        case _ => None
    else
      None
  }

  lemma CellNameRoundTrip(column: char, row: int)
    requires IsColumnLetter(column)
    ensures ParseCellName(CellName(column, row)) == Some((column, row))
  {
    assert CellName(column, row)[1..] == Text.IntString(row);
    Text.IntStringRoundTrip(row);
  }

  /** A totals formula names one column at both ends of its range, and the
      exact first and last rows it was built from. */
  lemma SumFormulaRoundTrip(column: char, first: int, last: int)
    requires IsColumnLetter(column)
    ensures ParseSumFormula(SumFormula(column, first, last)) == Some(CellRange(column, first, column, last))
  {
    var a, b := CellName(column, first), CellName(column, last);
    var f := SumFormula(column, first, last);
    var body := a + ":" + b;
    assert f == "=SUM(" + body + ")";
    assert f[..5] == "=SUM(";
    assert f[5..|f| - 1] == body;
    assert ':' !in a by {
      assert a == [column] + a[1..];
    }
    var r := FirstIndexOf(body, ':');
    assert body[|a|] == ':';
    assert r.Some?;
    var k := r.value;
    assert k == |a|;
    assert body[..k] == a;
    assert body[k + 1..] == b;
    CellNameRoundTrip(column, first);
    CellNameRoundTrip(column, last);
  }
}
