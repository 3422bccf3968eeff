/** Decimal rendering of integers as Python's `str(int)` (and f-strings) produce
    it, together with the parser that undoes it. */
module Text {
  import opened Outcomes

  predicate IsDigit(ch: char) {
    '0' <= ch <= '9'
  }

  predicate AllDigits(s: string) {
    forall i :: 0 <= i < |s| ==> IsDigit(s[i])
  }

  function DigitChar(d: nat): (ch: char)
    requires d < 10
    ensures IsDigit(ch) && ch as int - '0' as int == d
  {
    ('0' as int + d) as char
  }

  /** The decimal digits of `n`, most significant first, without leading zeros. */
  function NatString(n: nat): (s: string)
    ensures |s| >= 1 && AllDigits(s)
    ensures s[0] == '0' <==> n == 0
    decreases n
  {
    if n < 10 then [DigitChar(n)] else NatString(n / 10) + [DigitChar(n % 10)]
  }

  /** `str(n)` in Python: a minus sign before the digits of a negative number. */
  function IntString(n: int): (s: string)
    ensures |s| >= 1
    ensures s[0] == '-' <==> n < 0
    ensures n >= 0 ==> AllDigits(s)
    ensures forall i :: 0 < i < |s| ==> IsDigit(s[i])
  {
    if n < 0 then "-" + NatString(-n) else NatString(n)
  }

  /** The number a non-empty string of decimal digits denotes. */
  function DigitsValue(s: string): nat
    requires AllDigits(s)
  {
    if s == [] then 0 else DigitsValue(s[..|s| - 1]) * 10 + (s[|s| - 1] as int - '0' as int)
  }

  function ParseNat(s: string): (r: Option<nat>)
    ensures r.Some? <==> |s| >= 1 && AllDigits(s)
  {
    if |s| >= 1 && AllDigits(s) then Some(DigitsValue(s)) else None
  }

  /** Reads an optional minus sign followed by at least one digit. */
  function ParseInt(s: string): (r: Option<int>)
    ensures r.Some? ==> |s| >= 1 && forall i :: 0 < i < |s| ==> IsDigit(s[i])
  {
    if |s| >= 1 && s[0] == '-' then
      match ParseNat(s[1..])
      case None => None
      case Some(n) => Some(-(n as int))
    else
      match ParseNat(s)
      case None => None
      case Some(n) => Some(n as int)
  }

  lemma {:induction false} NatStringValue(n: nat)
    ensures DigitsValue(NatString(n)) == n
    decreases n
  {
    if n >= 10 {
      var prefix := NatString(n / 10);
      var s := prefix + [DigitChar(n % 10)];
      assert s[..|s| - 1] == prefix;
      NatStringValue(n / 10);
    }
  }

  /** Reading back a rendered integer gives the integer. */
  lemma IntStringRoundTrip(n: int)
    ensures ParseInt(IntString(n)) == Some(n)
  {
    if n < 0 {
      assert IntString(n)[1..] == NatString(-n);
      NatStringValue(-n);
    } else {
      NatStringValue(n);
    }
  }

  /** Different integers render differently. */
  lemma IntStringInjective(m: int, n: int)
    requires IntString(m) == IntString(n)
    ensures m == n
  {
    IntStringRoundTrip(m);
    IntStringRoundTrip(n);
  }
}
