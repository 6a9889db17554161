/** Decimal integers as .NET reads and writes them for the chat-command
    script: `int.TryParse(string, out int)` under `NumberStyles.Integer`
    with invariant-culture signs, and `Int32.ToString()`. */
module Decimal {
  import opened Options
  import Text

  const MinInt32: int := -0x8000_0000
  const MaxInt32: int := 0x7FFF_FFFF

  /** The white space `NumberStyles.Integer` tolerates around a number. */
  const NumberWhiteSpace: set<char> := {'\t', '\n', '\U{B}', '\U{C}', '\r', ' '}

  predicate IsDigit(c: char) {
    '0' <= c <= '9'
  }

  predicate AllDigits(s: string) {
    forall i :: 0 <= i < |s| ==> IsDigit(s[i])
  }

  function DigitValue(c: char): (d: nat)
    requires IsDigit(c)
    ensures d < 10
  {
    (c as int) - ('0' as int)
  }

  function DigitChar(d: nat): (c: char)
    requires d < 10
    ensures IsDigit(c) && DigitValue(c) == d
  {
    (('0' as int) + d) as char
  }

  /** The value of a string of decimal digits, most significant first. */
  function DigitsValue(s: string): nat
    requires AllDigits(s)
  {
    if |s| == 0 then 0
    else DigitsValue(s[..|s| - 1]) * 10 + DigitValue(s[|s| - 1])
  }

  /** The shortest decimal rendering of `n`: no sign, no leading zero. */
  function NatToDecimal(n: nat): (s: string)
    ensures |s| >= 1 && AllDigits(s)
    ensures |s| > 1 ==> s[0] != '0'
  {
    if n < 10 then [DigitChar(n)]
    else NatToDecimal(n / 10) + [DigitChar(n % 10)]
  }

  /** A shortest decimal numeral: at least one digit, no leading zero. */
  predicate Canonical(d: string) {
    |d| >= 1 && AllDigits(d) && (|d| > 1 ==> d[0] != '0')
  }

  /** `Int32.ToString()`: a leading '-' for negative values, then the
      canonical digits of the magnitude. */
  function IntToString(n: int): (s: string)
    ensures |s| >= 1
    ensures n < 0 <==> s[0] == '-'
    ensures var d := if n < 0 then s[1..] else s;
      Canonical(d) && DigitsValue(d) == (if n < 0 then -n else n)
  {
    DigitsValueOfDecimal(if n < 0 then -n else n);
    if n < 0 then "-" + NatToDecimal(-n) else NatToDecimal(n)
  }

  /** `int.TryParse`: optional surrounding number white space, one optional
      sign, at least one ASCII digit, and a value that fits in 32 bits. */
  function ParseInt32(word: string): (r: Option<int>)
    ensures r.Some? ==> MinInt32 <= r.value <= MaxInt32
  {
    ParseSigned(Text.Trim(word, NumberWhiteSpace))
  }

  /** The number itself, once the white space is gone: one optional sign,
      at least one ASCII digit, and a value that fits in 32 bits. */
  function ParseSigned(s: string): (r: Option<int>)
    ensures r.Some? ==> MinInt32 <= r.value <= MaxInt32
  {
    if |s| == 0 then None
    else
      var negative := s[0] == '-';
      var digits := if s[0] == '-' || s[0] == '+' then s[1..] else s;
      if |digits| == 0 || !AllDigits(digits) then None
      else
        var v: int := if negative then -(DigitsValue(digits) as int) else DigitsValue(digits);
        if MinInt32 <= v <= MaxInt32 then Some(v) else None
  }

  /** Reading back a rendered natural number gives the number. */
  lemma {:induction false} DigitsValueOfDecimal(n: nat)
    ensures DigitsValue(NatToDecimal(n)) == n
  {
    if n >= 10 {
      var s := NatToDecimal(n);
      DigitsValueOfDecimal(n / 10);
      assert s[..|s| - 1] == NatToDecimal(n / 10);
    }
  }

  /** A canonical numeral with a non-zero first digit has a positive value. */
  lemma {:induction false} PositiveLead(d: string)
    requires |d| >= 1 && AllDigits(d) && d[0] != '0'
    ensures DigitsValue(d) >= 1
    decreases |d|
  {
    if |d| > 1 {
      var p := d[..|d| - 1];
      assert p[0] == d[0];
      PositiveLead(p);
    }
  }

  /** There is one canonical numeral per number: the one `NatToDecimal`
      writes. */
  lemma {:induction false} CanonicalUnique(d: string)
    requires Canonical(d)
    ensures d == NatToDecimal(DigitsValue(d))
    decreases |d|
  {
    var n := DigitsValue(d);
    var c := d[|d| - 1];
    assert DigitChar(DigitValue(c)) == c;
    if |d| == 1 {
      assert d[..0] == "";
      assert n == DigitValue(c);
    } else {
      var p := d[..|d| - 1];
      assert p[0] == d[0];
      PositiveLead(p);
      CanonicalUnique(p);
      var m := DigitsValue(p);
      assert n == m * 10 + DigitValue(c);
      assert n / 10 == m && n % 10 == DigitValue(c);
      assert d == p + [c];
    }
  }

  /** Rendering and parsing are inverse on every 32-bit value. */
  lemma ParseRendered(n: int)
    requires MinInt32 <= n <= MaxInt32
    ensures ParseInt32(IntToString(n)) == Some(n)
  {
    if n < 0 {
      ParseRenderedNegative(n);
    } else {
      ParseRenderedNatural(n);
    }
  }

  /** A negative rendering is '-' and digits, read back to the value. */
  lemma ParseRenderedNegative(n: int)
    requires MinInt32 <= n < 0
    ensures ParseInt32(IntToString(n)) == Some(n)
  {
    var s := IntToString(n);
    assert s == "-" + s[1..];
    ParseNegativeDigits(s[1..]);
  }

  /** A non-negative rendering is digits only, read back to the value. */
  lemma ParseRenderedNatural(n: int)
    requires 0 <= n <= MaxInt32
    ensures ParseInt32(IntToString(n)) == Some(n)
  {
    var s := IntToString(n);
    assert IsDigit(s[0]) && IsDigit(s[|s| - 1]);
    Text.TrimOfTrimmed(s, NumberWhiteSpace);
    SignedDigits(s);
  }

  /** '-' followed by digits parses to minus their value, when in range. */
  lemma ParseNegativeDigits(d: string)
    requires |d| >= 1 && AllDigits(d) && DigitsValue(d) <= -MinInt32
    ensures ParseInt32("-" + d) == Some(-(DigitsValue(d) as int))
  {
    var s := "-" + d;
    assert s[0] == '-' && s[1..] == d;
    assert s[|s| - 1] == d[|d| - 1] && IsDigit(d[|d| - 1]);
    Text.TrimOfTrimmed(s, NumberWhiteSpace);
  }

  /** Without white space or sign, digits read as their value. */
  lemma SignedDigits(d: string)
    requires |d| >= 1 && AllDigits(d) && DigitsValue(d) <= MaxInt32
    ensures ParseSigned(d) == Some(DigitsValue(d) as int)
  {
    assert IsDigit(d[0]);
  }

  /** A parsed word is rendered canonically: "+030" comes back as "30". */
  lemma ParseExample()
    ensures ParseInt32("+030") == Some(30)
    ensures IntToString(30) == "30"
  {
    var s := "+030";
    Text.TrimOfTrimmed(s, NumberWhiteSpace);
    assert s[1..] == "030";
    assert "030"[..2] == "03" && "03"[..1] == "0" && "0"[..0] == "";
    assert NatToDecimal(3) == "3";
  }
}
