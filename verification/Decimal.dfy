/** Decimal numerals as Python prints and parses them. */
module Decimal {

  predicate IsDigit(c: char) {
    '0' <= c <= '9'
  }

  predicate AllDigits(s: string) {
    forall i :: 0 <= i < |s| ==> IsDigit(s[i])
  }

  function Digit(n: nat): (c: char)
    requires n < 10
    ensures IsDigit(c) && DigitValue(c) == n
  {
    '0' + n as char
  }

  function DigitValue(c: char): nat
    requires IsDigit(c)
  {
    (c - '0') as nat
  }

  /** `str(n)` */
  function Dec(n: nat): (s: string)
    ensures s != "" && AllDigits(s)
  {
    if n < 10 then [Digit(n)] else Dec(n / 10) + [Digit(n % 10)]
  }

  /** `int(s)` on a digit string. */
  function DecValue(s: string): nat
    requires AllDigits(s)
  {
    if s == "" then 0 else 10 * DecValue(s[..|s| - 1]) + DigitValue(s[|s| - 1])
  }

  function Pow10(d: nat): (p: nat)
    ensures p > 0
  {
    if d == 0 then 1 else 10 * Pow10(d - 1)
  }

  /** The number made of the first two digits (the number itself when it has fewer). */
  function Leading(n: nat): nat {
    if n < 100 then n else Leading(n / 10)
  }

  lemma {:induction false} DecValueOfDec(n: nat)
    ensures DecValue(Dec(n)) == n
  {
    var s := Dec(n);
    if n < 10 {
      assert s[..|s| - 1] == "";
    } else {
      DecValueOfDec(n / 10);
      assert s[..|s| - 1] == Dec(n / 10);
    }
  }

  /** A numeral of at least two digits starts with the digits of `Leading`. */
  lemma {:induction false} DecStartsWithLeading(n: nat) returns (tail: string)
    requires n >= 10
    ensures 10 <= Leading(n) < 100 && AllDigits(tail)
    ensures Dec(n) == [Digit(Leading(n) / 10), Digit(Leading(n) % 10)] + tail
  {
    if n < 100 {
      tail := "";
      assert Dec(n / 10) == [Digit(n / 10)];
    } else {
      var shorter := DecStartsWithLeading(n / 10);
      tail := shorter + [Digit(n % 10)];
    }
  }

  /** Comparing `n` with a two-digit bound scaled to its own length only looks at the leading digits. */
  lemma {:induction false} LeadingDecidesScale(n: nat, bound: nat)
    requires n >= 10 && bound < 100
    ensures 100 * n >= bound * Pow10(|Dec(n)|) <==> Leading(n) >= bound
    ensures Pow10(|Dec(n)|) % 100 == 0
  {
    if n < 100 {
      assert |Dec(n / 10)| == 1;
      assert Pow10(2) == 10 * Pow10(1) == 100;
    } else {
      LeadingDecidesScale(n / 10, bound);
      ScaleByTen(n, bound, Pow10(|Dec(n / 10)|));
    }
  }

  lemma {:induction false} ScaleByTen(n: nat, bound: nat, p: nat)
    requires p % 100 == 0
    ensures 100 * n >= bound * (10 * p) <==> 100 * (n / 10) >= bound * p
    ensures (10 * p) % 100 == 0
  {
    var q, r, k := n / 10, n % 10, p / 100;
    assert p == 100 * k && n == 10 * q + r;
    ScaleStep(q, r, bound, k);
  }

  lemma {:induction false} ScaleStep(q: nat, r: nat, bound: nat, k: nat)
    requires r < 10
    ensures 100 * (10 * q + r) >= bound * (10 * (100 * k)) <==> 100 * q >= bound * (100 * k)
  {
    var bk := bound * k;
    assert bound * (100 * k) == 100 * bk;
    assert bound * (10 * (100 * k)) == 1000 * bk;
  }
}
