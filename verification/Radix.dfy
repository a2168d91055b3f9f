/** Numbers written in digits, the most significant first. */
module Radix {
  import opened Arithmetic

  type byte = b: nat | b < 256

  function Power(base: nat, k: nat): (p: nat)
    ensures base > 0 ==> p > 0
  {
    if k == 0 then 1 else Power(base, k - 1) * base
  }

  ghost predicate Digits(base: nat, s: seq<nat>) {
    forall i | 0 <= i < |s| :: s[i] < base
  }

  function Value(base: nat, s: seq<nat>): nat {
    if s == [] then 0 else Value(base, s[..|s| - 1]) * base + s[|s| - 1]
  }

  /** Without leading zeros; no digits at all for zero. */
  function DigitsOf(base: nat, v: nat): seq<nat>
    requires base >= 2
  {
    if v == 0 then [] else Shrinks(v, base); DigitsOf(base, v / base) + [v % base]
  }

  lemma Shrinks(v: nat, base: nat)
    requires v > 0 && base >= 2
    ensures v / base < v
  {
    QuotientBounds(v, base);
    Scale(2, base, v / base);
  }

  lemma {:induction false} ValueBound(base: nat, s: seq<nat>)
    requires base > 0 && Digits(base, s)
    ensures Value(base, s) < Power(base, |s|)
    ensures s != [] ==> s[0] * Power(base, |s| - 1) <= Value(base, s) < (s[0] + 1) * Power(base, |s| - 1)
  {
    if s != [] {
      var k := |s| - 1;
      ValueBound(base, s[..k]);
      if k > 0 {
        OneMoreDigit(base, s[0], Power(base, k - 1), Value(base, s[..k]), s[k]);
      }
      Scale(s[0] + 1, base, Power(base, k));
    }
  }

  lemma OneMoreDigit(base: nat, f: nat, p: nat, m: nat, d: nat)
    requires f * p <= m < (f + 1) * p && d < base
    ensures f * (p * base) <= m * base + d < (f + 1) * (p * base)
  {
    Regroup(f, p, base);
    Regroup(f + 1, p, base);
    Scale(f * p, m, base);
    Scale(m + 1, (f + 1) * p, base);
    assert (m + 1) * base == m * base + base;
  }

  lemma {:induction false} ValueAppend(base: nat, a: seq<nat>, b: seq<nat>)
    ensures Value(base, a + b) == Value(base, a) * Power(base, |b|) + Value(base, b)
  {
    if b == [] {
      assert a + b == a;
    } else {
      var k := |b| - 1;
      ValueAppend(base, a, b[..k]);
      assert (a + b)[..|a + b| - 1] == a + b[..k];
      Regroup(Value(base, a), Power(base, k), base);
      Distribute(Value(base, a) * Power(base, k), Value(base, b[..k]), base);
    }
  }

  lemma {:induction false} ValueZeros(base: nat, s: seq<nat>)
    requires forall i | 0 <= i < |s| :: s[i] == 0
    ensures Value(base, s) == 0
  {
    if s != [] {
      ValueZeros(base, s[..|s| - 1]);
    }
  }

  /** Zeros in front do not count. */
  lemma LeadingZeros(base: nat, s: seq<nat>, k: nat)
    requires k <= |s| && forall i | 0 <= i < k :: s[i] == 0
    ensures Value(base, s) == Value(base, s[k..])
  {
    assert s == s[..k] + s[k..];
    ValueAppend(base, s[..k], s[k..]);
    ValueZeros(base, s[..k]);
  }

  lemma {:induction false} ValueOfDigits(base: nat, v: nat)
    requires base >= 2
    ensures Value(base, DigitsOf(base, v)) == v && Digits(base, DigitsOf(base, v))
    ensures v > 0 ==> DigitsOf(base, v) != [] && DigitsOf(base, v)[0] > 0
  {
    hide Value;
    NoDigits(base);
    if v > 0 {
      Shrinks(v, base);
      ValueOfDigits(base, v / base);
      QuotientBounds(v, base);
      ValueNext(base, DigitsOf(base, v / base), v % base);
      FirstDigit(v, base);
    }
  }

  lemma NoDigits(base: nat)
    ensures Value(base, []) == 0
  {
  }

  lemma ValueNext(base: nat, s: seq<nat>, d: nat)
    ensures Value(base, s + [d]) == Value(base, s) * base + d
  {
    assert (s + [d])[..|s|] == s;
  }

  lemma FirstDigit(v: nat, base: nat)
    requires v > 0 && base > 0
    ensures v / base == 0 ==> v % base == v
  {
    QuotientBounds(v, base);
  }

  /** Digits that start with one that is not zero are those of their value. */
  lemma {:induction false} DigitsOfValue(base: nat, s: seq<nat>)
    requires base >= 2 && Digits(base, s) && (s != [] ==> s[0] > 0)
    ensures DigitsOf(base, Value(base, s)) == s
  {
    if s != [] {
      var k := |s| - 1;
      DigitsOfValue(base, s[..k]);
      Quotient(Value(base, s[..k]), base, s[k]);
      ValueBound(base, s);
      Scale(1, s[0], Power(base, k));
      assert s == s[..k] + [s[k]];
    }
  }

  lemma {:induction false} SameValue(base: nat, s: seq<nat>, t: seq<nat>)
    requires base > 0 && Digits(base, s) && Digits(base, t) && |s| == |t| && Value(base, s) == Value(base, t)
    ensures s == t
  {
    if s != [] {
      var k := |s| - 1;
      Quotient(Value(base, s[..k]), base, s[k]);
      Quotient(Value(base, t[..k]), base, t[k]);
      SameValue(base, s[..k], t[..k]);
      assert s == s[..k] + [s[k]];
      assert t == t[..k] + [t[k]];
    }
  }

  lemma {:induction false} PowerAdd(base: nat, j: nat, k: nat)
    ensures Power(base, j + k) == Power(base, j) * Power(base, k)
  {
    if k > 0 {
      PowerAdd(base, j, k - 1);
      Regroup(Power(base, j), Power(base, k - 1), base);
    }
  }

  lemma {:induction false} PowerGrows(base: nat, j: nat, k: nat)
    requires base > 0 && j <= k
    ensures Power(base, j) <= Power(base, k)
  {
    if j < k {
      PowerGrows(base, j, k - 1);
      Scale(1, base, Power(base, k - 1));
    }
  }

  /** A value below a power has at most that many digits. */
  lemma {:induction false} DigitsLength(base: nat, v: nat, k: nat)
    requires base >= 2 && v < Power(base, k)
    ensures |DigitsOf(base, v)| <= k
  {
    if v > 0 {
      ValueOfDigits(base, v);
      var s := DigitsOf(base, v);
      ValueBound(base, s);
      if k < |s| {
        PowerGrows(base, k, |s| - 1);
        Scale(1, s[0], Power(base, |s| - 1));
      }
    }
  }

  /** Exactly `n` digits: those of `v`, or its last `n`. */
  function FixedDigits(base: nat, v: nat, n: nat): (s: seq<nat>)
    requires base > 0
    ensures |s| == n && Digits(base, s)
    decreases n
  {
    if n == 0 then [] else FixedDigits(base, v / base, n - 1) + [v % base]
  }

  lemma {:induction false} FixedDigitsOfValue(base: nat, s: seq<nat>)
    requires base > 0 && Digits(base, s)
    ensures FixedDigits(base, Value(base, s), |s|) == s
  {
    if s != [] {
      var k := |s| - 1;
      FixedDigitsOfValue(base, s[..k]);
      Quotient(Value(base, s[..k]), base, s[k]);
      assert s == s[..k] + [s[k]];
    }
  }

  lemma {:induction false} ValueOfFixedDigits(base: nat, v: nat, n: nat)
    requires base > 0 && v < Power(base, n)
    ensures Value(base, FixedDigits(base, v, n)) == v
    decreases n
  {
    hide Value;
    NoDigits(base);
    if n > 0 {
      OneDigitLess(base, v, n);
      ValueOfFixedDigits(base, v / base, n - 1);
      ValueNext(base, FixedDigits(base, v / base, n - 1), v % base);
    }
  }

  lemma OneDigitLess(base: nat, v: nat, n: nat)
    requires base > 0 && n > 0 && v < Power(base, n)
    ensures v / base < Power(base, n - 1) && v == v / base * base + v % base
  {
    QuotientBounds(v, base);
    BelowProduct(v / base, Power(base, n - 1), base, v);
  }

  lemma BelowProduct(q: nat, p: nat, base: nat, v: nat)
    requires q * base <= v < p * base
    ensures q < p
  {
    if q >= p {
      Scale(p, q, base);
    }
  }

  lemma {:induction false} PowerOfPower(base: nat, j: nat, k: nat)
    ensures Power(Power(base, j), k) == Power(base, j * k)
  {
    if k > 0 {
      PowerOfPower(base, j, k - 1);
      assert j * k == j * (k - 1) + j;
      PowerAdd(base, j * (k - 1), j);
    }
  }
}
