/**
 * Java's `%d` conversion of a `long` under Locale.US: an optional minus sign
 * followed by the decimal digits of the magnitude, with no grouping separator,
 * and a parser that reads such a field back.
 */
module Numerals {
  import opened Wrappers

  /** Java's `long`, the type of every FrameMetrics value. */
  type Int64 = x: int | -0x8000_0000_0000_0000 <= x < 0x8000_0000_0000_0000

  predicate IsDigit(c: char) {
    '0' <= c <= '9'
  }

  predicate AllDigits(s: string) {
    forall i :: 0 <= i < |s| ==> IsDigit(s[i])
  }

  /** The text shape of a `%d` field: '-' and at least one digit, or digits alone. */
  predicate IsDecimalText(s: string) {
    if |s| > 0 && s[0] == '-' then |s| > 1 && AllDigits(s[1..]) else |s| > 0 && AllDigits(s)
  }

  function DigitChar(d: nat): (c: char)
    requires d < 10
    ensures IsDigit(c) && c as int - '0' as int == d
  {
    ('0' as int + d) as char
  }

  function DigitValue(c: char): (d: nat)
    requires IsDigit(c)
    ensures d < 10 && DigitChar(d) == c
  {
    c as int - '0' as int
  }

  /** The digits of n, most significant first; never a leading zero except for 0 itself. */
  function NatDigits(n: nat): (r: string)
    ensures |r| > 0 && AllDigits(r)
    ensures r[0] == '0' ==> n == 0 && r == "0"
    decreases n
  {
    if n < 10 then [DigitChar(n)] else NatDigits(n / 10) + [DigitChar(n % 10)]
  }

  /** The number a string of digits denotes (the empty string denotes 0). */
  function DigitsValue(s: string): nat
    requires AllDigits(s)
  {
    if s == [] then 0 else DigitsValue(s[..|s| - 1]) * 10 + DigitValue(s[|s| - 1])
  }

  lemma {:induction false} NatDigitsValue(n: nat)
    ensures DigitsValue(NatDigits(n)) == n
    decreases n
  {
    var s := NatDigits(n);
    if n >= 10 {
      assert s[..|s| - 1] == NatDigits(n / 10);
      NatDigitsValue(n / 10);
    }
  }

  /** `String.format(Locale.US, "%d", x)`. */
  function Decimal(x: int): (r: string)
    ensures IsDecimalText(r)
    ensures r[0] == '-' <==> x < 0
    ensures var magnitude := if x < 0 then r[1..] else r; magnitude[0] != '0' || magnitude == "0"
  {
    if x < 0 then "-" + NatDigits(-x) else NatDigits(x)
  }

  /** Reads back one `%d` field; None when the text is not of that shape. */
  function ParseDecimal(s: string): (r: Option<int>)
    ensures r.Some? <==> IsDecimalText(s)
  {
    if |s| > 1 && s[0] == '-' && AllDigits(s[1..]) then Some(-(DigitsValue(s[1..]) as int))
    else if |s| > 0 && s[0] != '-' && AllDigits(s) then Some(DigitsValue(s))
    else None
  }

  /** Parsing a rendered field gives back the value that was rendered. */
  lemma DecimalRoundTrip(x: int)
    ensures ParseDecimal(Decimal(x)) == Some(x)
  {
    if x < 0 {
      assert ("-" + NatDigits(-x))[1..] == NatDigits(-x);
      NatDigitsValue(-x);
    } else {
      NatDigitsValue(x);
    }
  }

  /** A rendered field holds only '-' and digits, so no separator character occurs in it. */
  lemma DecimalAvoids(x: int, c: char)
    requires c != '-' && !IsDigit(c)
    ensures c !in Decimal(x)
  {
    var r := Decimal(x);
    forall i | 0 <= i < |r|
      ensures r[i] != c
    {
      if r[0] == '-' && i > 0 {
        assert r[i] == r[1..][i - 1];
      }
    }
  }

  /** The fields of a sequence of values, each rendered by `%d`. */
  function Decimals(xs: seq<int>): (r: seq<string>)
    ensures |r| == |xs|
  {
    seq(|xs|, k requires 0 <= k < |xs| => Decimal(xs[k]))
  }

  /** Reads back every field; None as soon as one of them is not a `%d` field. */
  function ParseDecimals(fields: seq<string>): (r: Option<seq<int>>)
    ensures r.Some? ==> |r.value| == |fields|
  {
    if fields == [] then Some([])
    else match (ParseDecimal(fields[0]), ParseDecimals(fields[1..]))
      case (Some(x), Some(xs)) => Some([x] + xs)
      case _ => None
  }

  lemma {:induction false} DecimalsRoundTrip(xs: seq<int>)
    ensures ParseDecimals(Decimals(xs)) == Some(xs)
  {
    if xs != [] {
      assert Decimals(xs)[1..] == Decimals(xs[1..]);
      DecimalRoundTrip(xs[0]);
      DecimalsRoundTrip(xs[1..]);
      assert [xs[0]] + xs[1..] == xs;
    }
  }
}
