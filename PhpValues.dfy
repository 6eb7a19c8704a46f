/** PHP values as the error handler sees them: what a user callback can
    return, and how PHP turns a value into text when it is echoed or
    concatenated (`echo $x`, `'...' . $x`). */
module PhpValues {

  /** The values a callback's return is inspected for. Floats, arrays and
      objects are not part of this model. */
  datatype PhpValue = Null | Bool(b: bool) | Int(i: int) | Str(s: string)

  predicate IsDigit(c: char) {
    '0' <= c <= '9'
  }

  predicate AllDigits(s: string) {
    forall k :: 0 <= k < |s| ==> IsDigit(s[k])
  }

  function DigitChar(d: nat): (c: char)
    requires d < 10
    ensures IsDigit(c)
  {
    (d + '0' as int) as char
  }

  function DigitValue(c: char): (d: nat)
    requires IsDigit(c)
    ensures d < 10
  {
    c as int - '0' as int
  }

  /** Decimal digits of `n`, most significant first, without leading zeros. */
  function NatToString(n: nat): (s: string)
    ensures |s| >= 1 && AllDigits(s)
    ensures |s| > 1 ==> s[0] != '0'
  {
    if n < 10 then [DigitChar(n)] else NatToString(n / 10) + [DigitChar(n % 10)]
  }

  /** The number a string of decimal digits denotes: the reading that
      NatToString must agree with. */
  function DigitsValue(s: string): nat
    requires AllDigits(s)
  {
    if s == [] then 0 else DigitsValue(s[..|s| - 1]) * 10 + DigitValue(s[|s| - 1])
  }

  /** Reading back the digits PHP writes for a non-negative integer gives
      that integer. */
  lemma {:induction false} NatToStringRoundTrip(n: nat)
    ensures DigitsValue(NatToString(n)) == n
  {
    var s := NatToString(n);
    if n >= 10 {
      NatToStringRoundTrip(n / 10);
      assert s[..|s| - 1] == NatToString(n / 10);
    }
  }

  /** PHP's integer-to-string conversion: decimal, with a leading '-' for
      negative values. */
  function IntToString(i: int): (s: string)
    ensures |s| >= 1
    ensures i >= 0 <==> s[0] != '-'
    ensures i >= 0 ==> AllDigits(s)
    ensures i < 0 ==> AllDigits(s[1..])
  {
    if i < 0 then "-" + NatToString(-i) else NatToString(i)
  }

  /** Distinct integers are written as distinct strings. */
  lemma IntToStringInjective(a: int, b: int)
    requires IntToString(a) == IntToString(b)
    ensures a == b
  {
    var s := IntToString(a);
    if a < 0 {
      assert b < 0 by { assert s[0] == '-'; }
      assert NatToString(-a) == s[1..] by { assert ("-" + NatToString(-a))[1..] == NatToString(-a); }
      assert NatToString(-b) == s[1..] by { assert ("-" + NatToString(-b))[1..] == NatToString(-b); }
      NatToStringRoundTrip(-a);
      NatToStringRoundTrip(-b);
    } else {
      assert b >= 0 by { assert s[0] != '-'; }
      NatToStringRoundTrip(a);
      NatToStringRoundTrip(b);
    }
  }

  /** The text PHP produces when `v` is echoed or concatenated: null and
      false give the empty string, true gives "1". */
  function ToPhpString(v: PhpValue): (s: string)
    ensures s == "" <==> v == Null || v == Bool(false) || v == Str("")
    ensures v.Int? ==> |s| >= 1 && (s[0] == '-' <==> v.i < 0)
  {
    match v
    case Null => ""
    case Bool(b) => if b then "1" else ""
    case Int(i) => IntToString(i)
    case Str(s) => s
  }
}
