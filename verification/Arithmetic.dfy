/** The few facts about products and quotients that proofs here use one at a time. */
module Arithmetic {

  lemma Scale(a: int, b: int, p: nat)
    requires a <= b
    ensures a * p <= b * p
  {
  }

  lemma ScaleRight(p: nat, a: int, b: int)
    requires a <= b
    ensures p * a <= p * b
  {
  }

  lemma NotAbove(k: int, d: nat)
    requires k * d < d
    ensures k <= 0
  {
  }

  lemma Quotient(q: nat, d: nat, r: nat)
    requires r < d
    ensures (q * d + r) / d == q && (q * d + r) % d == r
  {
    var x := q * d + r;
    assert x == x / d * d + x % d;
    assert (x / d - q) * d == r - x % d;
    assert (q - x / d) * d == x % d - r;
    NotAbove(x / d - q, d);
    NotAbove(q - x / d, d);
  }

  lemma QuotientAtLeast(x: nat, d: nat, q: nat)
    requires 0 < d && q * d <= x
    ensures q <= x / d
  {
    var r := x / d;
    assert x == r * d + x % d;
    assert (q - r) * d == q * d - r * d;
    NotAbove(q - r, d);
  }

  lemma QuotientBounds(x: nat, d: nat)
    requires 0 < d
    ensures x / d * d <= x < x / d * d + d
  {
    assert x == x / d * d + x % d;
  }

  lemma QuotientsInOrder(x: nat, y: nat, d: nat)
    requires 0 < d && x <= y
    ensures x / d <= y / d
  {
    QuotientBounds(x, d);
    QuotientAtLeast(y, d, x / d);
  }

  lemma Distribute(x: nat, y: nat, p: nat)
    ensures (x + y) * p == x * p + y * p
  {
  }

  lemma Regroup(q: nat, b: nat, a: nat)
    ensures q * b * a == q * (a * b)
  {
  }

  lemma Nested(x: nat, a: nat, b: nat, y: nat, q: nat)
    requires y * a <= x < y * a + a && q * b <= y < q * b + b
    ensures q * (a * b) <= x < q * (a * b) + a * b
  {
    Scale(q * b, y, a);
    Scale(y + 1, q * b + b, a);
    Distribute(y, 1, a);
    Distribute(q * b, b, a);
    Regroup(q, b, a);
    Regroup(1, b, a);
  }

  lemma QuotientIs(x: nat, d: nat, q: nat)
    requires q * d <= x < q * d + d
    ensures x / d == q
  {
    Quotient(q, d, x - q * d);
  }

  /** Dividing in two steps. */
  lemma QuotientOfQuotient(x: nat, a: nat, b: nat)
    requires 0 < a && 0 < b
    ensures a * b > 0 && x / (a * b) == x / a / b
  {
    Scale(1, a, b);
    QuotientBounds(x, a);
    QuotientBounds(x / a, b);
    Nested(x, a, b, x / a, x / a / b);
    QuotientIs(x, a * b, x / a / b);
  }

  lemma BelowTop(h: nat, q: nat, s: nat, y: nat)
    requires h < q && y < s
    ensures h * s + y < q * s
  {
    Scale(h + 1, q, s);
    Distribute(h, 1, s);
  }

  lemma Commute(s: nat, q: nat)
    ensures s * q == q * s
  {
  }

  /** Of a product of digits, the remainder by its place and the number of its values. */
  lemma RemainderAt(b: nat, s: nat, q: nat, y: nat)
    requires y < s && 0 < q
    ensures s * q > 0 && (b * s + y) % (s * q) == b % q * s + y
  {
    var k, h := b / q, b % q;
    BelowTop(h, q, s, y);
    Split(b, s, q);
    Quotient(k, q * s, h * s + y);
    Commute(s, q);
  }

  lemma Split(b: nat, s: nat, q: nat)
    requires 0 < q
    ensures b * s == b / q * (q * s) + b % q * s
  {
    QuotientBounds(b, q);
    Distribute(b / q * q, b % q, s);
    Regroup(b / q, q, s);
  }

  lemma QuotientOfSum(b: nat, d: nat, y: nat)
    requires 0 < d
    ensures (b * d + y) / d == b + y / d
  {
    QuotientBounds(y, d);
    Distribute(b, y / d, d);
    QuotientIs(b * d + y, d, b + y / d);
  }

  lemma QuotientJoin(x: nat, a: nat, p: nat, d: nat, y: nat)
    requires 0 < d && x == a * (p * d) + y
    ensures x / d == a * p + y / d
  {
    Regroup(a, p, d);
    QuotientOfSum(a * p, d, y);
  }

  lemma TimesBack(a: nat, p: nat, d: nat, y: nat)
    ensures (a * p + y) * d == a * (p * d) + y * d
  {
    Distribute(a * p, y, d);
    Regroup(a, p, d);
  }
}
