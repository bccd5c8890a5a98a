/**
 * Money arithmetic as the TypeScript code does it, on exact reals:
 * `Math.round(x * 100) / 100` (rounding to cents) and `x.toFixed(2)`
 * (the two-decimal text shown in messages and reports).
 */
module Money {
  import opened Wrappers

  /** `Math.round(y)`: the nearest integer, halves going toward +infinity. */
  function MathRound(y: real): (n: int)
    ensures y - 0.5 < n as real <= y + 0.5
  {
    (y + 0.5).Floor
  }

  /** A value that is a whole number of cents. */
  ghost predicate IsCents(r: real)
  {
    (r * 100.0).Floor as real == r * 100.0
  }

  /** `Math.round(x * 100) / 100`: the whole-cent value nearest x, ties going up. */
  function Round2(x: real): (r: real)
    ensures IsCents(r)
    ensures x - 0.005 < r <= x + 0.005
  {
    var n := MathRound(x * 100.0);
    assert (n as real / 100.0) * 100.0 == n as real;
    n as real / 100.0
  }

  /** Round2 is the only whole-cent value in (x - 0.005, x + 0.005]. */
  lemma Round2Unique(x: real, r: real)
    requires IsCents(r)
    requires x - 0.005 < r <= x + 0.005
    ensures r == Round2(x)
  {
    var k := (r * 100.0).Floor;
    var n := MathRound(x * 100.0);
    assert k as real == r * 100.0;
    assert x * 100.0 - 0.5 < k as real <= x * 100.0 + 0.5;
    assert x * 100.0 - 0.5 < n as real <= x * 100.0 + 0.5;
    assert k == n;
  }

  /** An exact half cent is rounded up (toward +infinity), also for negative values. */
  lemma Round2TiesUp(x: real)
    requires IsCents(x + 0.005)
    ensures Round2(x) == x + 0.005
  {
    Round2Unique(x, x + 0.005);
  }

  /** Rounding an already rounded amount changes nothing. */
  lemma Round2Idempotent(x: real)
    ensures Round2(Round2(x)) == Round2(x)
  {
    Round2Unique(Round2(x), Round2(x));
  }

  // ---- decimal digits ----

  predicate IsDigit(c: char)
  {
    '0' <= c <= '9'
  }

  predicate AllDigits(s: string)
  {
    forall i :: 0 <= i < |s| ==> IsDigit(s[i])
  }

  function Digit(d: nat): (c: char)
    requires d < 10
    ensures IsDigit(c)
  {
    (48 + d) as char
  }

  function DigitValue(c: char): nat
    requires IsDigit(c)
  {
    c as int - 48
  }

  /** The decimal numeral of n, without leading zeros. */
  function DecimalText(n: nat): (s: string)
    decreases n
  {
    if n < 10 then [Digit(n)] else DecimalText(n / 10) + [Digit(n % 10)]
  }

  /** The value of a numeral, read left to right. */
  function DecimalValue(s: string): nat
    requires AllDigits(s)
  {
    if |s| == 0 then 0 else DecimalValue(s[..|s| - 1]) * 10 + DigitValue(s[|s| - 1])
  }

  lemma {:induction false} DecimalRoundTrip(n: nat)
    ensures |DecimalText(n)| > 0 && AllDigits(DecimalText(n))
    ensures DecimalValue(DecimalText(n)) == n
    decreases n
  {
    if n >= 10 {
      DecimalRoundTrip(n / 10);
      var s := DecimalText(n / 10) + [Digit(n % 10)];
      assert s[..|s| - 1] == DecimalText(n / 10);
    }
  }

  // ---- Number.prototype.toFixed(2) ----

  /**
   * `y.toFixed(2)` for y >= 0: the integer n for which n / 100 - y is closest
   * to zero (the larger one on a tie), written as its integer part, a point
   * and exactly two fraction digits (ECMA-262, Number.prototype.toFixed).
   */
  function FixedDigits(y: real): (s: string)
    requires y >= 0.0
  {
    var n := MathRound(y * 100.0);
    var q, m := n / 100, n % 100;
    DecimalText(q) + "." + [Digit(m / 10), Digit(m % 10)]
  }

  /** `x.toFixed(2)`: a minus sign for negative x, then the digits of |x|. */
  function ToFixed2(x: real): string
  {
    if x < 0.0 then "-" + FixedDigits(-x) else FixedDigits(x)
  }

  /** Reads an unsigned "d...d.dd" numeral as a number of cents. */
  function ParseUnsignedFixed2(t: string): Option<int>
  {
    if |t| >= 4 && t[|t| - 3] == '.' && AllDigits(t[..|t| - 3]) && AllDigits(t[|t| - 2..])
    then Some(DecimalValue(t[..|t| - 3]) * 100 + DecimalValue(t[|t| - 2..]))
    else None
  }

  /** Reads the text `toFixed(2)` produces back as a (signed) number of cents. */
  function ParseFixed2(s: string): Option<int>
  {
    if |s| > 0 && s[0] == '-' then
      match ParseUnsignedFixed2(s[1..])
      case Some(v) => Some(-v)
      case None => None
    else ParseUnsignedFixed2(s)
  }

  lemma FixedDigitsRoundTrip(y: real)
    requires y >= 0.0
    ensures FixedDigits(y) != [] && FixedDigits(y)[0] != '-'
    ensures ParseUnsignedFixed2(FixedDigits(y)) == Some(MathRound(y * 100.0))
  {
    var n := MathRound(y * 100.0);
    var q, m := n / 100, n % 100;
    DecimalRoundTrip(q);
    var head := DecimalText(q);
    var t := head + "." + [Digit(m / 10), Digit(m % 10)];
    assert t == FixedDigits(y);
    assert t[..|t| - 3] == head;
    assert t[|t| - 2..] == [Digit(m / 10), Digit(m % 10)];
    var tail := t[|t| - 2..];
    assert tail[..1] == [Digit(m / 10)];
    assert [Digit(m / 10)][..0] == [];
    assert DecimalValue([Digit(m / 10)]) == m / 10;
    assert DecimalValue(tail) == (m / 10) * 10 + m % 10;
    assert IsDigit(head[0]);
  }

  /** The text toFixed(2) produces reads back as |x| rounded to cents, with x's sign. */
  lemma ToFixed2RoundTrip(x: real)
    ensures ParseFixed2(ToFixed2(x)) == Some(if x < 0.0 then -MathRound(-x * 100.0) else MathRound(x * 100.0))
  {
    if x < 0.0 {
      var t := FixedDigits(-x);
      FixedDigitsRoundTrip(-x);
      var s := "-" + t;
      assert s[0] == '-' && s[1..] == t;
      assert ParseFixed2(s) == Some(-MathRound(-x * 100.0));
    } else {
      FixedDigitsRoundTrip(x);
      assert ToFixed2(x) == FixedDigits(x);
    }
  }

  /** For a whole-cent amount, toFixed(2) is exact: its text reads back as the amount's cents. */
  lemma ToFixed2OfCents(x: real)
    requires IsCents(x)
    ensures ParseFixed2(ToFixed2(x)) == Some((x * 100.0).Floor)
  {
    ToFixed2RoundTrip(x);
    var k := (x * 100.0).Floor;
    assert k as real == x * 100.0;
    if x < 0.0 {
      var n := MathRound(-x * 100.0);
      assert -x * 100.0 == (-k) as real;
      NearestInteger(n, -k);
    } else {
      NearestInteger(MathRound(x * 100.0), k);
    }
  }

  lemma NearestInteger(n: int, k: int)
    requires k as real - 0.5 < n as real <= k as real + 0.5
    ensures n == k
  {
  }

  /** The text "0.00" is what toFixed(2) gives for zero. */
  lemma ZeroText()
    ensures ToFixed2(0.0) == "0.00"
  {
  }
}
