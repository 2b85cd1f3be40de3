/**
 The two version gates of the repository.  `kube_release` is compared as a string with '1.24.0'
 (cri_socket.py and the cri-dockerd install tasks); `kube_base_version` is compared as a float with 1.28.
 */
module Versions {
  import opened Text
  import opened Decimal

  const CRI_DOCKERD_RELEASE: string := "1.24.0"

  /** Python's `a <= b` on strings. */
  predicate StringAtMost(a: string, b: string) {
    a == "" || (b != "" && (a[0] < b[0] || (a[0] == b[0] && StringAtMost(a[1..], b[1..]))))
  }

  /** `kube_release >= '1.24.0'` */
  predicate NeedsCriDockerd(release: string) {
    StringAtMost(CRI_DOCKERD_RELEASE, release)
  }

  /** The number the text `digits.digits` denotes; `float(text)` is the double nearest to it. */
  function FloatOf(whole: string, fraction: string): real
    requires AllDigits(whole) && AllDigits(fraction)
  {
    DecValue(whole) as real + DecValue(fraction) as real / Pow10(|fraction|) as real
  }

  /** The integer nearest to `y`, the even one of two. */
  function Nearest(y: real): int {
    var f := y.Floor;
    if y - f as real < 0.5 then f
    else if y - f as real > 0.5 then f + 1
    else if f % 2 == 0 then f
    else f + 1
  }

  /** The double nearest to a number between 1 and 2, in units of 2 to the power -52. */
  function Double(x: real): int {
    Nearest(x * 4503599627370496.0)
  }

  /** `release_bump`: the first two dotted parts of the release, read as one float, are at least 1.28. */
  predicate ReleaseBump(release: string)
    requires var parts := Split(release, {'.'}); |parts| >= 2 && parts[0] == "1" && AllDigits(parts[1])
  {
    Double(FloatOf("1", Split(release, {'.'})[1])) >= Double(1.28)
  }

  /** The Kubernetes release 1.minor.patch. */
  function Release(minor: nat, patch: nat): string {
    Join(["1", Dec(minor), Dec(patch)], ".")
  }

  lemma {:induction false} ReleaseParts(minor: nat, patch: nat)
    ensures Split(Release(minor, patch), {'.'}) == ["1", Dec(minor), Dec(patch)]
  {
    SplitOfJoin(["1", Dec(minor), Dec(patch)], '.');
  }

  lemma {:induction false} ReleaseText(minor: nat, patch: nat)
    ensures Release(minor, patch) == "1." + (Dec(minor) + ("." + Dec(patch)))
  {
    var parts := ["1", Dec(minor), Dec(patch)];
    assert parts[1..] == [Dec(minor), Dec(patch)];
    JoinTwo(Dec(minor), Dec(patch), ".");
    var tail := Dec(minor) + ("." + Dec(patch));
    assert Dec(minor) + "." + Dec(patch) == tail;
    assert "1" + "." + tail == "1." + tail;
  }

  lemma {:induction false} SharedPrefix(p: string, a: string, b: string)
    ensures StringAtMost(p + a, p + b) <==> StringAtMost(a, b)
  {
    if p == "" {
      assert p + a == a && p + b == b;
    } else {
      SharedPrefix(p[1..], a, b);
      assert (p + a)[1..] == p[1..] + a && (p + b)[1..] == p[1..] + b;
    }
  }

  lemma {:induction false} CompareOneDigit(d: char, rest: string)
    requires IsDigit(d) && rest != "" && rest[0] == '.'
    ensures StringAtMost("24.0", [d] + rest) <==> d >= '3'
  {
    var t := [d] + rest;
    assert "24.0"[0] == '2' && "24.0"[1..] == "4.0" && t[0] == d && t[1..] == rest;
    assert "4.0"[0] == '4';
  }

  lemma {:induction false} CompareTwoDigits(leading: nat, rest: string)
    requires 10 <= leading < 100 && StringAtMost(".0", rest)
    ensures StringAtMost("24.0", [Digit(leading / 10), Digit(leading % 10)] + rest) <==> leading >= 24
  {
    var d0, d1 := Digit(leading / 10), Digit(leading % 10);
    var t := [d0, d1] + rest;
    assert "24.0"[0] == '2' && "24.0"[1..] == "4.0" && "4.0"[0] == '4' && "4.0"[1..] == ".0";
    assert t[0] == d0 && t[1..] == [d1] + rest && t[1..][0] == d1 && t[1..][1..] == rest;
  }

  lemma {:induction false} CompareMinor(minor: nat, rest: string)
    requires rest != "" && rest[0] == '.' && forall tail :: AllDigits(tail) ==> StringAtMost(".0", tail + rest)
    ensures StringAtMost("24.0", Dec(minor) + rest) <==> if minor < 10 then minor >= 3 else Leading(minor) >= 24
  {
    if minor < 10 {
      CompareOneDigit(Digit(minor), rest);
    } else {
      var tail := DecStartsWithLeading(minor);
      var head := [Digit(Leading(minor) / 10), Digit(Leading(minor) % 10)];
      assert Dec(minor) + rest == head + (tail + rest);
      CompareTwoDigits(Leading(minor), tail + rest);
    }
  }

  /** What the string gate really tests, for every release 1.minor.patch. */
  lemma {:induction false} StringGate(minor: nat, patch: nat)
    ensures NeedsCriDockerd(Release(minor, patch)) <==>
            if minor < 10 then minor >= 3 else Leading(minor) >= 24
  {
    ReleaseText(minor, patch);
    assert CRI_DOCKERD_RELEASE == "1." + "24.0";
    SharedPrefix("1.", "24.0", Dec(minor) + ("." + Dec(patch)));
    forall tail | AllDigits(tail)
      ensures StringAtMost(".0", tail + ("." + Dec(patch)))
    {
    }
    CompareMinor(minor, "." + Dec(patch));
  }

  /** The string gate agrees with the numeric order exactly outside 3..9 and the long numerals starting below 24. */
  lemma {:induction false} StringGateIsNumericIff(minor: nat, patch: nat)
    ensures (NeedsCriDockerd(Release(minor, patch)) <==> minor >= 24) <==>
            (minor < 3 || 10 <= minor < 100 || (minor >= 100 && Leading(minor) >= 24))
  {
    StringGate(minor, patch);
  }

  lemma {:induction false} NearestAtLeast(y: real, k: int)
    requires k % 2 == 1
    ensures Nearest(y) >= k <==> y > k as real - 0.5
  {
    var f := y.Floor;
    assert f as real <= y < f as real + 1.0;
    if f >= k {
      assert f as real >= k as real;
    } else if f + 1 < k {
      assert f as real + 2.0 <= k as real;
    } else {
      assert f == k - 1 && f as real == k as real - 1.0;
    }
  }

  /** The double nearest to 1.28 lies above it; from half a unit below it on, numbers are rounded to it. */
  lemma {:induction false} DoubleBound(x: real)
    ensures Double(x) >= Double(1.28) <==> x * 9007199254740992.0 > 11529215046068469.0
  {
    var y := 1.28 * 4503599627370496.0;
    assert y.Floor == 5764607523034234;
    assert Double(1.28) == 5764607523034235;
    NearestAtLeast(x * 4503599627370496.0, 5764607523034235);
  }

  /** `1 + n / p` is at least 1.28, as doubles. */
  predicate DoubleAtLeast(n: nat, p: nat) {
    9007199254740992 * n > 2522015791327477 * p
  }

  lemma {:induction false} SignOfProduct(d: real, p: real)
    requires p > 0.0
    ensures d > 0.0 <==> d * p > 0.0
  {
    if d <= 0.0 {
      assert d * p <= 0.0;
    }
  }

  lemma {:induction false} Spread(x: real, a: real, c: real, p: real, n: real)
    requires x * p == n
    ensures (x * a - c) * p == a * n - c * p
  {
    assert (x * a - c) * p == (x * a) * p - c * p;
    assert (x * a) * p == a * (x * p);
  }

  lemma {:induction false} RatioBound(n: nat, p: nat, a: nat, c: nat)
    requires p > 0
    ensures n as real / p as real * a as real > c as real <==> a * n > c * p
  {
    var x := n as real / p as real;
    assert x * p as real == n as real;
    Spread(x, a as real, c as real, p as real, n as real);
    SignOfProduct(x * a as real - c as real, p as real);
    assert a as real * n as real - c as real * p as real == (a * n - c * p) as real;
  }

  lemma {:induction false} FractionBound(n: nat, p: nat)
    requires p > 0
    ensures (1.0 + n as real / p as real) * 9007199254740992.0 > 11529215046068469.0 <==> DoubleAtLeast(n, p)
  {
    RatioBound(n, p, 9007199254740992, 2522015791327477);
  }

  /** What the float gate really tests, for every release 1.minor.patch. */
  lemma {:induction false} FloatGate(minor: nat, patch: nat)
    ensures var parts := Split(Release(minor, patch), {'.'}); |parts| >= 2 && parts[0] == "1" && AllDigits(parts[1])
    ensures ReleaseBump(Release(minor, patch)) <==> DoubleAtLeast(minor, Pow10(|Dec(minor)|))
  {
    ReleaseParts(minor, patch);
    DecValueOfDec(minor);
    DecValueOfDec(1);
    assert Dec(1) == "1";
    var p := Pow10(|Dec(minor)|);
    assert FloatOf("1", Dec(minor)) == 1.0 + minor as real / p as real;
    FractionBound(minor, p);
    DoubleBound(1.0 + minor as real / p as real);
  }

  /** On minors of up to sixteen digits, the leading digits decide, and rounding does not show. */
  lemma {:induction false} LeadingDecidesFloat(minor: nat)
    ensures minor < 10 ==> (DoubleAtLeast(minor, Pow10(|Dec(minor)|)) <==> minor >= 3)
    ensures minor >= 10 && Leading(minor) >= 28 ==> DoubleAtLeast(minor, Pow10(|Dec(minor)|))
    ensures minor >= 10 && Leading(minor) < 27 ==> !DoubleAtLeast(minor, Pow10(|Dec(minor)|))
    ensures minor >= 10 && Leading(minor) < 28 && Pow10(|Dec(minor)|) <= 10000000000000000 ==>
              !DoubleAtLeast(minor, Pow10(|Dec(minor)|))
  {
    var p := Pow10(|Dec(minor)|);
    if minor < 10 {
      assert p == 10 * Pow10(0) == 10;
    } else {
      LeadingDecidesScale(minor, 28);
      LeadingDecidesScale(minor, 27);
      var q := p / 100;
      assert p == 100 * q;
      if minor >= 28 * q {
        PassesFrom28(minor, q);
      } else if minor < 27 * q {
        FailsBelow27(minor, q);
      } else if q <= 100000000000000 {
        FailsBelow28(minor, q);
      }
    }
  }

  lemma {:induction false} PassesFrom28(n: nat, q: nat)
    requires q > 0 && n >= 28 * q
    ensures DoubleAtLeast(n, 100 * q)
  {
  }

  lemma {:induction false} FailsBelow27(n: nat, q: nat)
    requires n < 27 * q
    ensures !DoubleAtLeast(n, 100 * q)
  {
  }

  lemma {:induction false} FailsBelow28(n: nat, q: nat)
    requires n < 28 * q && q <= 100000000000000
    ensures !DoubleAtLeast(n, 100 * q)
  {
  }

  /** The float gate agrees with the numeric order exactly below 3, on two digits, and where longer minors pass it. */
  lemma {:induction false} FloatGateIsNumericIff(minor: nat, patch: nat)
    ensures var parts := Split(Release(minor, patch), {'.'}); |parts| >= 2 && parts[0] == "1" && AllDigits(parts[1])
    ensures (ReleaseBump(Release(minor, patch)) <==> minor >= 28) <==>
            (minor < 3 || 10 <= minor < 100 || (minor >= 100 && DoubleAtLeast(minor, Pow10(|Dec(minor)|))))
  {
    FloatGate(minor, patch);
    LeadingDecidesFloat(minor);
    if 10 <= minor < 100 {
      assert Leading(minor) == minor && |Dec(minor / 10)| == 1;
      assert Pow10(2) == 10 * Pow10(1) == 100;
    }
  }

  /** Every release that uses the bumped package repository also uses cri-dockerd on docker hosts. */
  lemma {:induction false} BumpImpliesCriDockerd(minor: nat, patch: nat)
    ensures var parts := Split(Release(minor, patch), {'.'}); |parts| >= 2 && parts[0] == "1" && AllDigits(parts[1])
    ensures ReleaseBump(Release(minor, patch)) ==> NeedsCriDockerd(Release(minor, patch))
  {
    FloatGate(minor, patch);
    LeadingDecidesFloat(minor);
    StringGate(minor, patch);
  }

  /** 1.9 passes both gates although it is older than 1.24 and 1.28. */
  lemma {:induction false} OldReleasePassesBothGates(patch: nat)
    ensures var parts := Split(Release(9, patch), {'.'}); |parts| >= 2 && parts[0] == "1" && AllDigits(parts[1])
    ensures NeedsCriDockerd(Release(9, patch)) && ReleaseBump(Release(9, patch))
  {
    StringGate(9, patch);
    FloatGate(9, patch);
    LeadingDecidesFloat(9);
  }
}
