/**
 * Decimal numerals as the notation writes them: `String(n)` on the
 * printing side, `acc := 10*acc + digit` on the reading side.
 */
module Decimal {

  /**
   * `Number.MAX_SAFE_INTEGER`, 2^53 - 1: the clocks are JavaScript doubles,
   * and `10*acc + d` and `String(n)` are exact on integers up to this bound.
   */
  const MAX_SAFE_INTEGER := 0x1F_FFFF_FFFF_FFFF

  predicate IsDigit(c: char) {
    '0' <= c <= '9'
  }

  predicate IsNonZeroDigit(c: char) {
    '1' <= c <= '9'
  }

  function DigitValue(c: char): (d: nat)
    requires IsDigit(c)
    ensures d < 10
  {
    (c as int) - ('0' as int)
  }

  function DigitChar(d: nat): (c: char)
    requires d < 10
    ensures IsDigit(c) && DigitValue(c) == d
  {
    (('0' as int) + d) as char
  }

  predicate AllDigits(s: string) {
    forall k :: 0 <= k < |s| ==> IsDigit(s[k])
  }

  /** A numeral as `String(n)` writes a non-negative integer. */
  function NatToString(n: nat): (s: string)
    ensures |s| >= 1 && AllDigits(s)
    ensures n >= 1 ==> s[0] != '0'
    ensures n < 10 <==> |s| == 1
    decreases n
  {
    if n < 10 then [DigitChar(n)] else NatToString(n / 10) + [DigitChar(n % 10)]
  }

  /** `String(n)` for any integer: a minus sign before the magnitude. */
  function IntText(n: int): (s: string)
    ensures n >= 0 ==> s == NatToString(n)
    ensures n < 0 ==> |s| >= 2 && s[0] == '-' && s[1..] == NatToString(-n)
  {
    if n < 0 then "-" + NatToString(-n) else NatToString(n)
  }

  /** The value the reading loop accumulates: each digit does `acc := 10*acc + d`. */
  function Accumulate(acc: int, s: string): int
    requires AllDigits(s)
    decreases |s|
  {
    if s == [] then acc else Accumulate(10 * acc + DigitValue(s[0]), s[1..])
  }

  /** A numeral with no leading zero, except "0" itself. */
  predicate IsDecimal(s: string) {
    |s| >= 1 && AllDigits(s) && (|s| > 1 ==> s[0] != '0')
  }

  lemma {:induction false} AccumulateAppend(acc: int, a: string, b: string)
    requires AllDigits(a) && AllDigits(b)
    ensures AllDigits(a + b)
    ensures Accumulate(acc, a + b) == Accumulate(Accumulate(acc, a), b)
    decreases |a|
  {
    if a != [] {
      assert (a + b)[0] == a[0];
      assert (a + b)[1..] == a[1..] + b;
      AccumulateAppend(10 * acc + DigitValue(a[0]), a[1..], b);
    } else {
      assert a + b == b;
    }
  }

  lemma {:induction false} AccumulateGrows(acc: int, s: string)
    requires AllDigits(s) && acc >= 0
    ensures Accumulate(acc, s) >= acc
    decreases |s|
  {
    if s != [] {
      AccumulateGrows(10 * acc + DigitValue(s[0]), s[1..]);
    }
  }

  /** Reading back what `String(n)` wrote gives n. */
  lemma {:induction false} AccumulateNatToString(n: nat)
    ensures Accumulate(0, NatToString(n)) == n
    decreases n
  {
    if n >= 10 {
      AccumulateNatToString(n / 10);
      AccumulateAppend(0, NatToString(n / 10), [DigitChar(n % 10)]);
    }
  }

  /** Writing what was read from a numeral without leading zero gives the numeral back. */
  lemma {:induction false} NatToStringAccumulate(s: string)
    requires IsDecimal(s)
    ensures Accumulate(0, s) >= 0
    ensures NatToString(Accumulate(0, s)) == s
    decreases |s|
  {
    AccumulateGrows(0, s);
    if |s| > 1 {
      var init, last := s[..|s| - 1], s[|s| - 1];
      assert s == init + [last];
      NatToStringAccumulate(init);
      AccumulateAppend(0, init, [last]);
      var w := Accumulate(0, init);
      assert Accumulate(w, [last]) == 10 * w + DigitValue(last);
      assert init == [init[0]] + init[1..];
      AccumulateGrows(DigitValue(init[0]), init[1..]);
      assert w >= 1;
      assert (10 * w + DigitValue(last)) / 10 == w;
      assert (10 * w + DigitValue(last)) % 10 == DigitValue(last);
      assert DigitChar(DigitValue(last)) == last;
    } else {
      assert Accumulate(0, s) == DigitValue(s[0]);
      assert DigitChar(DigitValue(s[0])) == s[0];
    }
  }
}
