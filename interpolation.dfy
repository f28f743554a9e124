/**
  Decimal rendering of integers, as Swift's string interpolation `"\(n)"`
  writes an `Int`: an optional minus sign followed by the digits of the
  magnitude, without leading zeros. The parser below is the inverse used to
  state what the rendering means.
*/
module Interpolation {
  import opened Wrappers

  predicate IsDigit(c: char) {
    '0' <= c <= '9'
  }

  predicate AllDigits(s: string) {
    forall i :: 0 <= i < |s| ==> IsDigit(s[i])
  }

  function DigitChar(d: nat): (c: char)
    requires d < 10
    ensures IsDigit(c) && c as int - '0' as int == d
  {
    (48 + d) as char
  }

  /** The digits of `n`, most significant first. */
  function NatString(n: nat): (s: string)
    ensures |s| >= 1 && AllDigits(s)
    ensures s[0] == '0' ==> n == 0
  {
    if n < 10 then [DigitChar(n)] else NatString(n / 10) + [DigitChar(n % 10)]
  }

  /** `"\(n)"` for a Swift `Int`. */
  function IntString(n: int): string {
    if n < 0 then "-" + NatString(-n) else NatString(n)
  }

  /** The number a non-empty digit string denotes (read left to right). */
  function DigitsValue(s: string): nat
    requires AllDigits(s)
  {
    if s == [] then 0
    else DigitsValue(s[..|s| - 1]) * 10 + (s[|s| - 1] as int - '0' as int)
  }

  /** Reads back what `IntString` writes: an optional `-`, then one or more digits. */
  function ParseInt(s: string): Option<int> {
    if |s| >= 2 && s[0] == '-' && AllDigits(s[1..]) then Some(0 - DigitsValue(s[1..]))
    else if |s| >= 1 && AllDigits(s) then Some(DigitsValue(s))
    else None
  }

  lemma {:induction false} NatStringRoundTrip(n: nat)
    ensures DigitsValue(NatString(n)) == n
  {
    if n >= 10 {
      var s := NatString(n);
      assert s[..|s| - 1] == NatString(n / 10);
      NatStringRoundTrip(n / 10);
    }
  }

  /** The rendering of an integer is read back as that integer. */
  lemma IntStringRoundTrip(n: int)
    ensures ParseInt(IntString(n)) == Some(n)
  {
    NatStringRoundTrip(if n < 0 then -n else n);
    if n < 0 {
      assert IntString(n)[1..] == NatString(-n);
    }
  }

  /** Different integers are rendered differently. */
  lemma IntStringInjective(m: int, n: int)
    ensures IntString(m) == IntString(n) ==> m == n
  {
    IntStringRoundTrip(m);
    IntStringRoundTrip(n);
  }

  /** No rendered integer contains a space, a comma or a dash between its digits. */
  lemma IntStringShape(n: int)
    ensures |IntString(n)| >= 1
    ensures forall i :: 0 <= i < |IntString(n)| ==> IntString(n)[i] != ' ' && IntString(n)[i] != ','
    ensures n >= 0 ==> AllDigits(IntString(n))
  {
  }

  // ---------------------------------------------------------------------
  // One-decimal rendering of a real, as C's `%.1f` writes it

  /** `y` rounded to the nearest whole number, a tie going to the even one. */
  function RoundHalfEven(y: real): nat
    requires y >= 0.0
  {
    var f := y.Floor;
    var frac := y - f as real;
    if frac < 0.5 then f
    else if frac > 0.5 then f + 1
    else if f % 2 == 0 then f
    else f + 1
  }

  /**
    `String(format: "%.1f", x)` on the exact value `x`: a minus sign for a
    negative value, the whole part, a point and one digit, the magnitude
    rounded to tenths with ties to even.
  */
  function OneDecimal(x: real): (s: string)
    ensures |s| >= 3 && s[|s| - 2] == '.' && IsDigit(s[|s| - 1])
  {
    var m := RoundHalfEven(if x < 0.0 then -x * 10.0 else x * 10.0);
    (if x < 0.0 then "-" else "") + NatString(m / 10) + "." + [DigitChar(m % 10)]
  }

  /** A whole number is written as `"\(n)"` writes it, followed by `.0`. */
  lemma OneDecimalOfWhole(n: int)
    ensures OneDecimal(n as real) == IntString(n) + ".0"
  {
    var a: nat := if n < 0 then -n else n;
    var y := if n < 0 then -(n as real) * 10.0 else n as real * 10.0;
    assert y == (a * 10) as real;
    assert y.Floor == a * 10;
    assert RoundHalfEven(y) == a * 10;
    assert (a * 10) / 10 == a && (a * 10) % 10 == 0;
    assert [DigitChar(0)] == "0";
  }
}
