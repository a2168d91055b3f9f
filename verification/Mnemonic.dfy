/** Mnemonic phrases: entropy with its checksum, cut into words of eleven bits, and back. */
module Mnemonic {
  import opened Arithmetic
  import opened Radix
  import opened WordList

  // ----- bits

  function Shl(x: nat, n: nat): nat {
    x * Power(2, n)
  }

  function Shr(x: nat, n: nat): nat {
    x / Power(2, n)
  }

  /** Bitwise or. */
  function Or(a: nat, b: nat): nat {
    if a == 0 then b else if b == 0 then a
    else Or(a / 2, b / 2) * 2 + if a % 2 == 1 || b % 2 == 1 then 1 else 0
  }

  /** Where no bit is in both, it is the sum. */
  lemma {:induction false} OrApart(x: nat, k: nat, y: nat)
    requires y < Power(2, k)
    ensures Or(x * Power(2, k), y) == x * Power(2, k) + y
  {
    if k > 0 && x > 0 && y > 0 {
      var a := x * Power(2, k);
      assert a == x * Power(2, k - 1) * 2;
      OrApart(x, k - 1, y / 2);
    }
  }

  lemma Powers2()
    ensures Power(2, 0) == 1 && Power(2, 1) == 2 && Power(2, 2) == 4 && Power(2, 3) == 8 && Power(2, 4) == 16 && Power(2, 5) == 32
    ensures Power(2, 6) == 64 && Power(2, 7) == 128 && Power(2, 8) == 256 && Power(2, 9) == 512 && Power(2, 10) == 1024
    ensures Power(2, 11) == 2048
  {
  }

  /** Eleven bits from bit `r` of the first byte on, as the loop of MnemonicEncode joins them. */
  function WordFrom(b1: byte, b2: byte, b3: byte, r: nat): nat
    requires r < 8
  {
    var o := Shl(Shl(b1, r) % 256, 3);
    (if r > 5 then Or(Or(o, Shl(b2, r - 5)), Shr(b3, 13 - r)) else Or(o, Shr(b2, 5 - r))) % 2048
  }

  lemma FirstByte(b1: byte, r: nat)
    requires r < 8
    ensures Shl(Shl(b1, r) % 256, 3) == b1 % Power(2, 8 - r) * Power(2, r + 3)
  {
    hide Power;
    Powers2();
    var p, q := Power(2, r), Power(2, 8 - r);
    PowerAdd(2, r, 8 - r);
    PowerAdd(2, r, 3);
    RemainderAt(b1, p, q, 0);
    Regroup(b1 % q, p, 8);
  }

  /** The window over two bytes: `s` places for the second, of which `d` are left over. */
  lemma WindowTwo(b1: nat, b2: byte, s: nat, d: nat, q: nat)
    requires 0 < q && s * d == 256 && s * q == 2048
    ensures b2 / d < s && (b1 * 256 + b2) / d % 2048 == b1 % q * s + b2 / d
  {
    NotZero(s, d);
    BelowQuotient(b2, s, d);
    Regroup(b1, s, d);
    QuotientOfSum(b1 * s, d, b2);
    RemainderAt(b1, s, q, b2 / d);
  }

  lemma NotZero(s: nat, d: nat)
    requires s * d > 0
    ensures s > 0 && d > 0
  {
  }

  lemma BelowQuotient(b: nat, s: nat, d: nat)
    requires 0 < d && b < s * d
    ensures b / d < s
  {
    QuotientBounds(b, d);
    BelowProduct(b / d, s, d, b);
  }

  lemma TwoBytes(b1: byte, b2: byte, r: nat)
    requires r <= 5
    ensures Or(b1 % Power(2, 8 - r) * Power(2, r + 3), Shr(b2, 5 - r)) == (b1 * 256 + b2) / Power(2, 5 - r) % 2048
  {
    hide Or, Power;
    Powers2();
    PowerAdd(2, r + 3, 5 - r);
    PowerAdd(2, r + 3, 8 - r);
    WindowTwo(b1, b2, Power(2, r + 3), Power(2, 5 - r), Power(2, 8 - r));
    OrApart(b1 % Power(2, 8 - r), r + 3, b2 / Power(2, 5 - r));
  }

  lemma ThreeBytes(b1: byte, b2: byte, b3: byte, r: nat)
    requires 5 < r < 8
    ensures Or(Or(b1 % Power(2, 8 - r) * Power(2, r + 3), Shl(b2, r - 5)), Shr(b3, 13 - r)) ==
            ((b1 * 256 + b2) * 256 + b3) / Power(2, 13 - r) % 2048
  {
    hide Or, Power;
    Powers2();
    var q, t := Power(2, 8 - r), Power(2, r - 5);
    PowerAdd(2, r - 5, 13 - r);
    JoinTwo(b1 % q, b2, r);
    WindowTwo(b1 * 256 + b2, b3, t, Power(2, 13 - r), 256 * q);
    RemainderAt(b1, 256, q, b2);
    OrApart(b1 % q * 256 + b2, r - 5, b3 / Power(2, 13 - r));
  }

  lemma JoinTwo(h: nat, b2: byte, r: nat)
    requires 5 < r < 8
    ensures Or(h * Power(2, r + 3), Shl(b2, r - 5)) == (h * 256 + b2) * Power(2, r - 5)
    ensures Power(2, r - 5) * (256 * Power(2, 8 - r)) == 2048
  {
    hide Or, Power;
    Powers2();
    var t := Power(2, r - 5);
    PowerAdd(2, 8, r - 5);
    Scale(b2 as nat + 1, 256, t);
    Distribute(b2, 1, t);
    OrApart(h, r + 3, b2 * t);
    Regroup(h, 256, t);
    Distribute(h * 256, b2, t);
    PowerAdd(2, r - 5, 8 - r);
  }

  /** With `r` up to 5 the bits are in two bytes, else in three. */
  lemma WordFromIs(b1: byte, b2: byte, b3: byte, r: nat)
    requires r < 8
    ensures WordFrom(b1, b2, b3, r) ==
            if r > 5 then ((b1 * 256 + b2) * 256 + b3) / Power(2, 13 - r) % 2048 else (b1 * 256 + b2) / Power(2, 5 - r) % 2048
  {
    hide Or, Power, Shl, Shr;
    FirstByte(b1, r);
    if r > 5 {
      ThreeBytes(b1, b2, b3, r);
    } else {
      TwoBytes(b1, b2, r);
    }
  }

  // ----- cutting bytes into words

  lemma BytesAreBits(n: nat)
    ensures Power(256, n) == Power(2, 8 * n) && Power(2048, n) == Power(2, 11 * n)
  {
    hide Power;
    Powers2();
    PowerOfPower(2, 8, n);
    PowerOfPower(2, 11, n);
  }

  lemma LastDigits(k: nat, y: nat)
    ensures (k * 2048 + y) % 2048 == y % 2048
  {
  }

  lemma FourFactors(high: nat, p: nat, d: nat)
    ensures high * (p * 2048 * d) == high * p * 2048 * d
  {
    Regroup(high, p * 2048, d);
    Regroup(high, p, 2048);
  }

  lemma HighPart(x: nat, high: nat, d: nat, low: nat)
    requires 0 < d && x == high * 2048 * d
    ensures (x + low) / d % 2048 == low / d % 2048
  {
    QuotientOfSum(high * 2048, d, low);
    LastDigits(high, low / d);
  }

  /** Of a number, eleven bits depend only on the bytes that hold them. */
  lemma HighBitsIgnored(high: nat, low: nat, e: nat, r: nat)
    ensures (high * Power(2, r + 11 + e) + low) / Power(2, e) % 2048 == low / Power(2, e) % 2048
  {
    hide Power;
    Powers2();
    PowerAdd(2, r + 11, e);
    PowerAdd(2, r, 11);
    FourFactors(high, Power(2, r), Power(2, e));
    HighPart(high * Power(2, r + 11 + e), high * Power(2, r), Power(2, e), low);
  }

  lemma LowBytesIgnored(high: nat, c: nat, low: nat, e: nat)
    requires low < Power(256, c)
    ensures (high * Power(256, c) + low) / Power(2, 8 * c + e) == high / Power(2, e)
  {
    hide Power;
    BytesAreBits(c);
    PowerAdd(2, 8 * c, e);
    Quotient(high, Power(256, c), low);
    QuotientOfQuotient(high * Power(256, c) + low, Power(256, c), Power(2, e));
  }

  /** Eleven bits of a string of bytes, from a window of `n` bytes at place `s`. */
  lemma BitsInWindow(v: seq<byte>, s: nat, n: nat, r: nat, e: nat)
    requires s + n <= |v| && r + 11 + e == 8 * n
    ensures Value(256, v) / Power(2, 8 * (|v| - s - n) + e) % 2048 == Value(256, v[s..s + n]) / Power(2, e) % 2048
  {
    hide Power, Value;
    var c := |v| - s - n;
    assert v == v[..s + n] + v[s + n..] && v[..s + n] == v[..s] + v[s..s + n];
    ValueAppend(256, v[..s + n], v[s + n..]);
    ValueAppend(256, v[..s], v[s..s + n]);
    ValueBound(256, v[s + n..]);
    BytesAreBits(n);
    LowBytesIgnored(Value(256, v[..s + n]), c, Value(256, v[s + n..]), e);
    HighBitsIgnored(Value(256, v[..s]), Value(256, v[s..s + n]), e, r);
  }

  lemma ValueOfTwo(b1: nat, b2: nat)
    ensures Value(256, [b1, b2]) == b1 * 256 + b2
  {
    ValueNext(256, [], b1);
    ValueNext(256, [b1], b2);
    assert [] + [b1] == [b1] && [b1] + [b2] == [b1, b2];
  }

  lemma ValueOfThree(b1: nat, b2: nat, b3: nat)
    ensures Value(256, [b1, b2, b3]) == (b1 * 256 + b2) * 256 + b3
  {
    ValueOfTwo(b1, b2);
    ValueNext(256, [b1, b2], b3);
    assert [b1, b2] + [b3] == [b1, b2, b3];
  }

  /** The eleven bits from bit `i` of the bytes on. */
  function ElevenAt(v: seq<byte>, i: nat): (o: nat)
    requires i + 11 <= 8 * |v|
    ensures o < 2048
  {
    Value(256, v) / Power(2, 8 * |v| - i - 11) % 2048
  }

  lemma WordAt(v: seq<byte>, i: nat)
    requires i + 11 <= 8 * |v|
    ensures var s, r := i / 8, i % 8;
            && s + 1 < |v| && (r > 5 ==> s + 2 < |v|)
            && WordFrom(v[s], v[s + 1], if r > 5 then v[s + 2] else 0, r) == ElevenAt(v, i)
  {
    hide Power, Value, WordFrom;
    var s, r := i / 8, i % 8;
    if r > 5 {
      BitsInWindow(v, s, 3, r, 13 - r);
      ValueOfThree(v[s], v[s + 1], v[s + 2]);
      assert v[s..s + 3] == [v[s], v[s + 1], v[s + 2]];
      WordFromIs(v[s], v[s + 1], v[s + 2], r);
    } else {
      BitsInWindow(v, s, 2, r, 5 - r);
      ValueOfTwo(v[s], v[s + 1]);
      assert v[s..s + 2] == [v[s], v[s + 1]];
      WordFromIs(v[s], v[s + 1], 0, r);
    }
  }

  lemma NextWord(x: nat, e: nat)
    ensures x / Power(2, e + 11) * 2048 + x / Power(2, e) % 2048 == x / Power(2, e)
  {
    hide Power;
    Powers2();
    PowerAdd(2, e, 11);
    QuotientOfQuotient(x, Power(2, e), 2048);
  }

  /** The number that the first `n` bits of the bytes stand for. */
  function TopBits(v: seq<byte>, n: nat): nat
    requires n <= 8 * |v|
  {
    Value(256, v) / Power(2, 8 * |v| - n)
  }

  lemma NoWords(v: seq<byte>)
    ensures TopBits(v, 0) == 0 && Value(2048, []) == 0
  {
    ValueBound(256, v);
    BytesAreBits(|v|);
    QuotientIs(Value(256, v), Power(2, 8 * |v|), 0);
  }

  lemma CutStep(v: seq<byte>, words: seq<nat>, i: nat)
    requires i + 11 <= 8 * |v| && Value(2048, words) == TopBits(v, i)
    ensures Value(2048, words + [ElevenAt(v, i)]) == TopBits(v, i + 11)
  {
    hide Power, Value;
    NextWord(Value(256, v), 8 * |v| - i - 11);
    ValueNext(2048, words, ElevenAt(v, i));
  }

  /** Words enough for `n` bits. */
  function WordCount(n: nat): nat {
    (n + 10) / 11
  }

  /** The bits of the bytes, eleven at a time; the last word goes on beyond `nBits`. */
  method CutWords(vIn: seq<byte>, nBits: nat) returns (vWord: seq<nat>)
    requires 11 * WordCount(nBits) <= 8 * |vIn|
    ensures |vWord| == WordCount(nBits) && Digits(2048, vWord)
    ensures Value(2048, vWord) == TopBits(vIn, 11 * WordCount(nBits))
  {
    hide Value, WordFrom, TopBits, ElevenAt;
    vWord := [];
    NoWords(vIn);
    var i := 0;
    while i < nBits
      invariant i == 11 * |vWord| && |vWord| <= WordCount(nBits) && Digits(2048, vWord)
      invariant Value(2048, vWord) == TopBits(vIn, i)
    {
      var s, r := i / 8, i % 8;
      WordAt(vIn, i);
      CutStep(vIn, vWord, i);
      var o := WordFrom(vIn[s], vIn[s + 1], if r > 5 then vIn[s + 2] else 0, r);
      vWord := vWord + [o];
      i := i + 11;
    }
  }

  // ----- packing words into bytes

  /** The bits of the bytes from bit `i` on are all clear. */
  predicate Open(v: seq<byte>, i: nat) {
    && (forall j | i / 8 < j < |v| :: v[j] == 0)
    && (i / 8 < |v| ==> v[i / 8] % Power(2, 8 - i % 8) == 0)
  }

  /** What replacing a window of `n` bytes at place `s` does to the number. */
  lemma WindowSet(v: seq<byte>, w: seq<byte>, s: nat, n: nat)
    requires |v| == |w| && s + n <= |v| && w[..s] == v[..s] && w[s + n..] == v[s + n..]
    ensures Value(256, w) - Value(256, v) == (Value(256, w[s..s + n]) - Value(256, v[s..s + n])) * Power(256, |v| - s - n)
  {
    hide Power, Value;
    InWindow(v, s, n);
    InWindow(w, s, n);
    Difference(Value(256, v[..s]) * Power(256, n), Value(256, v[s..s + n]), Value(256, w[s..s + n]), Power(256, |v| - s - n));
  }

  lemma InWindow(v: seq<byte>, s: nat, n: nat)
    requires s + n <= |v|
    ensures Value(256, v) == (Value(256, v[..s]) * Power(256, n) + Value(256, v[s..s + n])) * Power(256, |v| - s - n) + Value(256, v[s + n..])
  {
    hide Power, Value;
    assert v == v[..s + n] + v[s + n..] && v[..s + n] == v[..s] + v[s..s + n];
    ValueAppend(256, v[..s + n], v[s + n..]);
    ValueAppend(256, v[..s], v[s..s + n]);
  }

  lemma Difference(a: int, x: int, y: int, p: int)
    ensures (a + y) * p - (a + x) * p == (y - x) * p
  {
  }

  /** The parts of a word, shifted into place by `d`, that fall into the window's bytes. */
  lemma WordParts(o: nat, t: nat, d: nat)
    requires 0 < t && 0 < d && t * d == 256
    ensures o / t * 256 + o * d % 256 == o * d && o * d % 256 % d == 0
  {
    Commute(t, d);
    QuotientOfQuotient(o * d, d, t);
    Quotient(o, d, 0);
    QuotientBounds(o * d, 256);
    RemainderAt(o, d, t, 0);
    Quotient(o % t, d, 0);
  }

  /** The first byte has room for its part. */
  lemma FirstPart(b: byte, o: nat, r: nat)
    requires r < 8 && o < 2048 && b % Power(2, 8 - r) == 0
    ensures Or(b, Shr(o, r + 3)) == b + Shr(o, r + 3) < 256
  {
    hide Or, Power;
    Powers2();
    var p := Power(2, 8 - r);
    PowerAdd(2, 8 - r, r + 3);
    PowerAdd(2, r, 8 - r);
    BelowQuotient(o, p, Power(2, r + 3));
    QuotientBounds(b, p);
    BelowProduct(b / p, Power(2, r), p, b);
    OrApart(b / p, 8 - r, o / Power(2, r + 3));
    BelowTop(b / p, Power(2, r), p, o / Power(2, r + 3));
  }

  /** The bytes of the window before and after, and the word in its place. */
  lemma TwoPut(b: byte, o: nat, r: nat)
    requires r <= 5 && o < 2048 && b + Shr(o, r + 3) < 256
    ensures Value(256, [b + Shr(o, r + 3), Shl(o, 5 - r) % 256]) - Value(256, [b, 0]) == o * Power(2, 5 - r)
    ensures Shl(o, 5 - r) % 256 % Power(2, 5 - r) == 0
  {
    hide Power, Value;
    Powers2();
    PowerAdd(2, r + 3, 5 - r);
    WordParts(o, Power(2, r + 3), Power(2, 5 - r));
    ValueOfTwo(b + o / Power(2, r + 3), o * Power(2, 5 - r) % 256);
    ValueOfTwo(b, 0);
  }

  lemma ThreePut(b: byte, o: nat, r: nat)
    requires 5 < r < 8 && o < 2048 && b + Shr(o, r + 3) < 256
    ensures Value(256, [b + Shr(o, r + 3), Shr(o, r - 5) % 256, Shl(o, 13 - r) % 256]) - Value(256, [b, 0, 0]) == o * Power(2, 13 - r)
    ensures Shl(o, 13 - r) % 256 % Power(2, 13 - r) == 0
  {
    hide Power, Value;
    Powers2();
    var t := Power(2, r - 5);
    PowerAdd(2, r - 5, 13 - r);
    PowerAdd(2, r - 5, 8);
    WordParts(o, t, Power(2, 13 - r));
    QuotientOfQuotient(o, t, 256);
    QuotientBounds(o / t, 256);
    ValueOfThree(b + o / Power(2, r + 3), o / t % 256, o * Power(2, 13 - r) % 256);
    ValueOfThree(b, 0, 0);
  }

  lemma WindowPut(v: seq<byte>, w: seq<byte>, s: nat, n: nat, o: nat, e: nat)
    requires |v| == |w| && s + n <= |v| && w[..s] == v[..s] && w[s + n..] == v[s + n..]
    requires Value(256, w[s..s + n]) - Value(256, v[s..s + n]) == o * Power(2, e)
    ensures Value(256, w) == Value(256, v) + o * Power(2, e + 8 * (|v| - s - n))
  {
    hide Power, Value;
    WindowSet(v, w, s, n);
    ShiftedWord(o, e, |v| - s - n);
  }

  lemma PutTwo(v: seq<byte>, i: nat, o: nat)
    requires i % 8 <= 5 && i + 11 <= 8 * |v| && Open(v, i) && o < 2048
    ensures var s, r := i / 8, i % 8; var b := Or(v[s], Shr(o, r + 3));
            && s + 1 < |v| && v[s + 1] == 0 && b < 256
            && var w := v[s := b][s + 1 := Shl(o, 5 - r) % 2048 % 256];
               Open(w, i + 11) && Value(256, w) == Value(256, v) + o * Power(2, 8 * |v| - i - 11)
  {
    hide Power, Value, Or, Shl, Shr;
    var s, r := i / 8, i % 8;
    FirstPart(v[s], o, r);
    TwoPut(v[s], o, r);
    Truncate(Shl(o, 5 - r));
    var x1, x2 := v[s] + Shr(o, r + 3), Shl(o, 5 - r) % 256;
    var w := v[s := x1][s + 1 := x2];
    assert w[s..s + 2] == [x1, x2] && v[s..s + 2] == [v[s], 0];
    WindowPut(v, w, s, 2, o, 5 - r);
    Reopened(w, i + 11);
  }

  lemma PutThree(v: seq<byte>, i: nat, o: nat)
    requires i % 8 > 5 && i + 11 <= 8 * |v| && Open(v, i) && o < 2048
    ensures var s, r := i / 8, i % 8; var b := Or(v[s], Shr(o, r + 3));
            && s + 2 < |v| && v[s + 1] == 0 && v[s + 2] == 0 && b < 256
            && var w := v[s := b][s + 1 := Shr(o, r - 5) % 2048 % 256][s + 2 := Shl(o, 13 - r) % 2048 % 256];
               Open(w, i + 11) && Value(256, w) == Value(256, v) + o * Power(2, 8 * |v| - i - 11)
  {
    hide Power, Value, Or, Shl, Shr;
    var s, r := i / 8, i % 8;
    FirstPart(v[s], o, r);
    ThreePut(v[s], o, r);
    Truncate(Shr(o, r - 5));
    Truncate(Shl(o, 13 - r));
    var x1, x2, x3 := v[s] + Shr(o, r + 3), Shr(o, r - 5) % 256, Shl(o, 13 - r) % 256;
    var w := v[s := x1][s + 1 := x2][s + 2 := x3];
    assert w[s..s + 3] == [x1, x2, x3] && v[s..s + 3] == [v[s], 0, 0];
    WindowPut(v, w, s, 3, o, 13 - r);
    Reopened(w, i + 11);
  }

  lemma Truncate(x: nat)
    ensures x % 2048 % 256 == x % 256
  {
  }

  lemma ShiftedWord(o: nat, e: nat, c: nat)
    ensures o * Power(2, e) * Power(256, c) == o * Power(2, e + 8 * c)
  {
    hide Power;
    BytesAreBits(c);
    PowerAdd(2, e, 8 * c);
    Regroup(o, Power(2, e), Power(256, c));
  }

  lemma Reopened(w: seq<byte>, i: nat)
    requires forall j | i / 8 < j < |w| :: w[j] == 0
    requires i / 8 < |w| ==> w[i / 8] == 0 || w[i / 8] % Power(2, 8 - i % 8) == 0
    ensures Open(w, i)
  {
    hide Power;
    Quotient(0, Power(2, 8 - i % 8), 0);
  }

  /** Put eleven bits at bit `i`, byte by byte. */
  method PutWord(vEntropy: array<byte>, i: nat, o: nat)
    requires i + 11 <= 8 * vEntropy.Length && Open(vEntropy[..], i) && o < 2048
    modifies vEntropy
    ensures Open(vEntropy[..], i + 11)
    ensures Value(256, vEntropy[..]) == Value(256, old(vEntropy[..])) + o * Power(2, 8 * vEntropy.Length - i - 11)
  {
    hide Power, Value, Or, Open, Shl, Shr;
    var s, r, el := i / 8, i % 8, vEntropy.Length;
    if r > 5 {
      PutThree(vEntropy[..], i, o);
    } else {
      PutTwo(vEntropy[..], i, o);
    }
    vEntropy[s] := Or(vEntropy[s], Shr(o, r + 3));
    if s < el - 1 {
      if r > 5 {
        NothingOr(vEntropy[s + 1], Shr(o, r - 5) % 2048 % 256);
        vEntropy[s + 1] := Or(vEntropy[s + 1], Shr(o, r - 5) % 2048 % 256);
        if s < el - 2 {
          NothingOr(vEntropy[s + 2], Shl(o, 13 - r) % 2048 % 256);
          vEntropy[s + 2] := Or(vEntropy[s + 2], Shl(o, 13 - r) % 2048 % 256);
        }
      } else {
        NothingOr(vEntropy[s + 1], Shl(o, 5 - r) % 2048 % 256);
        vEntropy[s + 1] := Or(vEntropy[s + 1], Shl(o, 5 - r) % 2048 % 256);
      }
    }
  }

  lemma NothingOr(a: nat, b: nat)
    ensures a == 0 ==> Or(a, b) == b
  {
  }

  lemma NextPacked(words: seq<nat>, o: nat, e: nat)
    ensures Value(2048, words + [o]) * Power(2, e) == Value(2048, words) * Power(2, e + 11) + o * Power(2, e)
  {
    hide Power, Value;
    Powers2();
    ValueNext(2048, words, o);
    PowerAdd(2, 11, e);
    Distribute(Value(2048, words) * 2048, o, Power(2, e));
    Regroup(Value(2048, words), 2048, Power(2, e));
  }

  function BytesFor(nWords: nat): nat {
    (11 * nWords + 7) / 8
  }

  /** The words, one after the other, in as many bytes as they need. */
  method PackWords(vWordInts: seq<nat>) returns (vEntropy: seq<byte>)
    requires Digits(2048, vWordInts)
    ensures |vEntropy| == BytesFor(|vWordInts|)
    ensures Value(256, vEntropy) == Value(2048, vWordInts) * Power(2, 8 * |vEntropy| - 11 * |vWordInts|)
  {
    hide Power, Value;
    var nBits := |vWordInts| * 11;
    var nBytes := nBits / 8 + if nBits % 8 == 0 then 0 else 1;
    var a := new byte[nBytes](_ => 0);
    NothingPacked(a[..], nBytes);
    var i := 0;
    for k := 0 to |vWordInts|
      invariant i == 11 * k && Open(a[..], i)
      invariant Value(256, a[..]) == Value(2048, vWordInts[..k]) * Power(2, 8 * nBytes - i)
    {
      PutWord(a, i, vWordInts[k]);
      NextPacked(vWordInts[..k], vWordInts[k], 8 * nBytes - i - 11);
      assert vWordInts[..k] + [vWordInts[k]] == vWordInts[..k + 1];
      i := i + 11;
    }
    assert vWordInts[..|vWordInts|] == vWordInts;
    vEntropy := a[..];
  }

  lemma NothingPacked(a: seq<byte>, n: nat)
    requires forall j | 0 <= j < |a| :: a[j] == 0
    ensures Open(a, 0) && Value(256, a) == Value(2048, []) * Power(2, 8 * n)
  {
    ValueZeros(256, a);
  }

  // ----- entropy and checksum as one number

  type Sha = seq<byte> -> seq<byte>

  ghost predicate ShaOk(sha: Sha) {
    forall s :: |sha(s)| == 32
  }

  /** The entropy with the first bits of its hash behind it, one for every four bytes. */
  function CheckedNumber(sha: Sha, e: seq<byte>): nat
    requires |sha(e)| == 32 && |e| / 4 <= 256
  {
    Shl(Value(256, e), |e| / 4) + TopBits(sha(e), |e| / 4)
  }

  /** The entropy and 32 bytes: those with the first bits of its hash, and zeros. */
  function Padded(sha: Sha, e: seq<byte>): (v: seq<byte>)
    requires |sha(e)| == 32 && |e| / 4 <= 256
    ensures |v| == |e| + 32
  {
    var ncb := (|e| / 4 + 7) / 8;
    e + (sha(e)[..ncb] + seq(32 - ncb, _ => 0))
  }

  /** The last word does not reach beyond these bytes. */
  predicate Readable(n: nat) {
    n / 4 <= 256 && 11 * WordCount(8 * n + n / 4) <= 8 * (n + 32)
  }

  /** The words of the phrase, by their numbers in the list. */
  function WordsOf(sha: Sha, e: seq<byte>): (ws: seq<nat>)
    requires |sha(e)| == 32 && Readable(|e|)
    ensures |ws| == WordCount(8 * |e| + |e| / 4) && Digits(2048, ws)
    ensures |e| % 4 == 0 ==> |ws| == 3 * (|e| / 4)
  {
    var n := WordCount(8 * |e| + |e| / 4);
    FixedDigits(2048, TopBits(Padded(sha, e), 11 * n), n)
  }

  /** Of whole groups of four bytes there are whole words. */
  lemma WordsOfGroups(sha: Sha, e: seq<byte>)
    requires |sha(e)| == 32 && |e| / 4 <= 256 && |e| % 4 == 0
    ensures Readable(|e|) && WordsOf(sha, e) == FixedDigits(2048, CheckedNumber(sha, e), 3 * (|e| / 4))
  {
    hide Value, TopBits, Power;
    var k := |e| / 4;
    var ncb := (k + 7) / 8;
    var vTmp := sha(e)[..ncb] + seq(32 - ncb, _ => 0);
    TopBitsOfBoth(e, vTmp, k);
    TopBitsOfPrefix(vTmp, k, ncb);
    TopBitsOfPrefix(sha(e), k, ncb);
    assert vTmp[..ncb] == sha(e)[..ncb];
  }

  lemma TopBitsBound(v: seq<byte>, n: nat)
    requires n <= 8 * |v|
    ensures TopBits(v, n) < Power(2, n)
  {
    hide Power, Value;
    ValueBound(256, v);
    BytesAreBits(|v|);
    PowerAdd(2, n, 8 * |v| - n);
    BelowQuotient(Value(256, v), Power(2, n), Power(2, 8 * |v| - n));
  }

  /** The first bits are in the first bytes. */
  lemma TopBitsOfPrefix(v: seq<byte>, n: nat, c: nat)
    requires n <= 8 * c && c <= |v|
    ensures TopBits(v, n) == TopBits(v[..c], n)
  {
    hide Power, Value;
    assert v == v[..c] + v[c..];
    ValueAppend(256, v[..c], v[c..]);
    ValueBound(256, v[c..]);
    LowBytesIgnored(Value(256, v[..c]), |v| - c, Value(256, v[c..]), 8 * c - n);
  }

  /** The first bits of two strings of bytes, where they reach into the second. */
  lemma TopBitsOfBoth(a: seq<byte>, b: seq<byte>, n: nat)
    requires n <= 8 * |b|
    ensures TopBits(a + b, 8 * |a| + n) == Value(256, a) * Power(2, n) + TopBits(b, n)
  {
    hide Power, Value, TopBits;
    var e := 8 * |b| - n;
    TopBitsIs(a + b, 8 * |a| + n, e);
    TopBitsIs(b, n, e);
    ValueAppend(256, a, b);
    BytesAreBits(|b|);
    PowerAdd(2, n, e);
    QuotientJoin(Value(256, a + b), Value(256, a), Power(2, n), Power(2, e), Value(256, b));
  }

  lemma TopBitsIs(v: seq<byte>, n: nat, e: nat)
    requires n + e == 8 * |v|
    ensures TopBits(v, n) == Value(256, v) / Power(2, e)
  {
  }

  lemma CheckedBound(sha: Sha, e: seq<byte>)
    requires |e| % 4 == 0 && |e| / 4 <= 256 && |sha(e)| == 32
    ensures CheckedNumber(sha, e) < Power(2048, 3 * (|e| / 4))
  {
    hide Power, Value, TopBits;
    var k := |e| / 4;
    TopBitsBound(sha(e), k);
    ValueBound(256, e);
    BytesAreBits(|e|);
    BytesAreBits(3 * k);
    PowerAdd(2, 32 * k, k);
    BelowTop(Value(256, e), Power(2, 32 * k), Power(2, k), TopBits(sha(e), k));
  }

  /** The words of the entropy and of the front of its hash. */
  method EntropyWords(sha: Sha, vEntropy: seq<byte>) returns (vWord: seq<nat>)
    requires 1 <= |vEntropy| / 4 && Readable(|vEntropy|) && |sha(vEntropy)| == 32
    ensures vWord == WordsOf(sha, vEntropy)
  {
    hide Value, TopBits, Power;
    var hash := sha(vEntropy);
    var nCsSize := |vEntropy| / 4;
    var ncb := nCsSize / 8 + if nCsSize % 8 != 0 then 1 else 0;
    assert ncb == (nCsSize + 7) / 8;
    var vIn := vEntropy + (hash[..ncb] + seq(32 - ncb, _ => 0));
    vWord := CutWords(vIn, |vEntropy| * 8 + nCsSize);
    FixedDigitsOfValue(2048, vWord);
  }

  // ----- from words back to entropy and checksum

  function Unpacked(ws: seq<nat>): (v: seq<byte>)
    ensures |v| == BytesFor(|ws|)
  {
    var m := BytesFor(|ws|);
    FixedDigits(256, Value(2048, ws) * Power(2, 8 * m - 11 * |ws|), m)
  }

  function ChecksumBits(nWords: nat): nat {
    11 * nWords / 32
  }

  function EntropyBytes(nWords: nat): nat {
    (11 * nWords - ChecksumBits(nWords)) / 8
  }

  function ChecksumBytes(nBits: nat): nat {
    (nBits + 7) / 8
  }

  /** The first `n` bits, in whole bytes with the other bits clear. */
  function Masked(hash: seq<byte>, n: nat): seq<byte>
    requires ChecksumBytes(n) <= |hash|
  {
    var c, r := ChecksumBytes(n), n % 8;
    if r == 0 then hash[..c]
    else
      var p := Power(2, 8 - r);
      QuotientBounds(hash[c - 1], p);
      hash[..c - 1] + [hash[c - 1] / p * p]
  }

  /** The checksum in the words is that of the entropy in them. */
  predicate ChecksumOk(sha: Sha, ws: seq<nat>)
    requires ChecksumBytes(ChecksumBits(|ws|)) <= |sha(Unpacked(ws)[..EntropyBytes(|ws|)])|
  {
    var n := EntropyBytes(|ws|);
    var c := ChecksumBits(|ws|);
    Unpacked(ws)[n..n + ChecksumBytes(c)] == Masked(sha(Unpacked(ws)[..n]), c)
  }

  lemma UnpackedValue(ws: seq<nat>)
    requires Digits(2048, ws)
    ensures var m := BytesFor(|ws|); Value(256, Unpacked(ws)) == Value(2048, ws) * Power(2, 8 * m - 11 * |ws|)
  {
    hide Power, Value, FixedDigits;
    var w, m := |ws|, BytesFor(|ws|);
    assert 0 <= 8 * m - 11 * w;
    ValueBound(2048, ws);
    BytesAreBits(w);
    BytesAreBits(m);
    PowerAdd(2, 11 * w, 8 * m - 11 * w);
    Below(Value(2048, ws), Power(2, 11 * w), Power(2, 8 * m - 11 * w));
    ValueOfFixedDigits(256, Value(2048, ws) * Power(2, 8 * m - 11 * w), m);
  }

  lemma Below(x: nat, p: nat, d: nat)
    requires x < p && 0 < d
    ensures x * d < p * d
  {
    BelowTop(x, p, d, 0);
  }

  lemma MaskedValue(hash: seq<byte>, n: nat)
    requires ChecksumBytes(n) <= |hash|
    ensures |Masked(hash, n)| == ChecksumBytes(n)
    ensures Digits(256, Masked(hash, n)) && Value(256, Masked(hash, n)) == TopBits(hash, n) * Power(2, 8 * ChecksumBytes(n) - n)
  {
    hide Power, Value, TopBits;
    var c, r := ChecksumBytes(n), n % 8;
    TopBitsOfPrefix(hash, n, c);
    if r == 0 {
      WholeBytes(hash[..c]);
    } else {
      LastByteMasked(hash[..c - 1], hash[c - 1], r);
      assert hash[..c] == hash[..c - 1] + [hash[c - 1]];
    }
  }

  lemma WholeBytes(v: seq<byte>)
    ensures TopBits(v, 8 * |v|) == Value(256, v) && Power(2, 0) == 1
  {
  }

  lemma MaskedDigit(x: nat, a: nat, b: nat, p: nat, d: nat)
    requires 0 < d && p * d == 256 && x == a * 256 + b
    ensures x / d * d == a * 256 + b / d * d && b / d * d <= b
  {
    QuotientJoin(x, a, p, d, b);
    TimesBack(a, p, d, b / d);
    QuotientBounds(b, d);
  }

  lemma LastByteMasked(v: seq<byte>, b: byte, r: nat)
    requires 0 < r < 8
    ensures var d := Power(2, 8 - r);
            b / d * d < 256 && Value(256, v + [b / d * d]) == TopBits(v + [b], 8 * |v| + r) * d
  {
    hide Power, Value, TopBits;
    Powers2();
    var d := Power(2, 8 - r);
    PowerAdd(2, r, 8 - r);
    ValueNext(256, v, b);
    MaskedDigit(Value(256, v + [b]), Value(256, v), b, Power(2, r), d);
    ValueNext(256, v, b / d * d);
    TopBitsIs(v + [b], 8 * |v| + r, 8 - r);
  }

  // ----- decoding undoes encoding

  lemma PartsOf(a: nat, x: nat, b: nat, y: nat, p: nat)
    requires a * p + x == b * p + y && x < p && y < p
    ensures a == b && x == y
  {
    Quotient(a, p, x);
    Quotient(b, p, y);
  }

  lemma Sizes(k: nat)
    requires k < 32
    ensures ChecksumBits(3 * k) == k && EntropyBytes(3 * k) == 4 * k
    ensures BytesFor(3 * k) == 4 * k + ChecksumBytes(k) && k <= 8 * ChecksumBytes(k)
    ensures 8 * BytesFor(3 * k) - 33 * k == 8 * ChecksumBytes(k) - k
  {
  }

  /** A number over bytes that are split where its bits are. */
  lemma SplitBytes(v: seq<byte>, s: nat, c: nat, n: nat, k: nat, e: nat)
    requires |v| == s + c && k + e == 8 * c && Value(256, v) == n * Power(2, e)
    ensures Value(256, v[..s]) == n / Power(2, k) && Value(256, v[s..]) == n % Power(2, k) * Power(2, e)
  {
    hide Power, Value;
    assert v == v[..s] + v[s..];
    ValueAppend(256, v[..s], v[s..]);
    ValueBound(256, v[s..]);
    BytesAreBits(c);
    PowerAdd(2, k, e);
    SplitNumber(Value(256, v), Value(256, v[..s]), Value(256, v[s..]), n, Power(2, k), Power(2, e));
  }

  lemma SplitNumber(x: nat, high: nat, low: nat, n: nat, p: nat, d: nat)
    requires 0 < p && 0 < d && x == high * (p * d) + low == n * d && low < p * d
    ensures high == n / p && low == n % p * d
  {
    var q, r := n / p, n % p;
    QuotientBounds(n, p);
    TimesBack(q, p, d, r);
    Below(r, p, d);
    PartsOf(high, low, q, r * d, p * d);
  }

  /** With fewer than 96 words the bytes part into entropy and checksum as the bits do. */
  lemma UnpackedParts(ws: seq<nat>)
    requires Digits(2048, ws) && |ws| % 3 == 0 && |ws| / 3 < 32
    ensures var k := |ws| / 3; var c := ChecksumBytes(k);
            && ChecksumBits(|ws|) == k && EntropyBytes(|ws|) == 4 * k && BytesFor(|ws|) == 4 * k + c && k <= 8 * c
            && Value(256, Unpacked(ws)[..4 * k]) == Value(2048, ws) / Power(2, k)
            && Value(256, Unpacked(ws)[4 * k..]) == Value(2048, ws) % Power(2, k) * Power(2, 8 * c - k)
  {
    hide Power, Value, Unpacked, ChecksumBits, ChecksumBytes, EntropyBytes, BytesFor;
    var k := |ws| / 3;
    Sizes(k);
    UnpackedValue(ws);
    SplitBytes(Unpacked(ws), 4 * k, ChecksumBytes(k), Value(2048, ws), k, 8 * ChecksumBytes(k) - k);
  }

  lemma Cancel(a: nat, b: nat, d: nat)
    requires 0 < d
    ensures a * d == b * d <==> a == b
  {
    Quotient(a, d, 0);
    Quotient(b, d, 0);
  }

  /** The checksum is right just for the words that encode the entropy in them. */
  lemma ChecksumMeans(sha: Sha, ws: seq<nat>)
    requires ShaOk(sha) && Digits(2048, ws) && |ws| % 3 == 0 && |ws| / 3 < 32
    ensures var e := Unpacked(ws)[..EntropyBytes(|ws|)];
            |e| / 4 == |ws| / 3 && (ChecksumOk(sha, ws) <==> Value(2048, ws) == CheckedNumber(sha, e))
  {
    hide Power, Value, Unpacked, TopBits, Masked;
    var k := |ws| / 3;
    var c := ChecksumBytes(k);
    UnpackedParts(ws);
    var e, f := Unpacked(ws)[..4 * k], Unpacked(ws)[4 * k..];
    var n, p, d := Value(2048, ws), Power(2, k), Power(2, 8 * c - k);
    MaskedValue(sha(e), k);
    if Value(256, f) == Value(256, Masked(sha(e), k)) {
      SameValue(256, f, Masked(sha(e), k));
    }
    assert Unpacked(ws)[4 * k..4 * k + c] == f;
    Cancel(n % p, TopBits(sha(e), k), d);
    TopBitsBound(sha(e), k);
    QuotientBounds(n, p);
    assert n == n / p * p + n % p;
  }

  /** The words of some entropy decode to it. */
  lemma DecodesWords(sha: Sha, e: seq<byte>)
    requires ShaOk(sha) && |e| % 4 == 0 && |e| / 4 < 32
    ensures Readable(|e|)
    ensures Unpacked(WordsOf(sha, e))[..EntropyBytes(3 * (|e| / 4))] == e && ChecksumOk(sha, WordsOf(sha, e))
  {
    hide Power, Value, Unpacked, TopBits, ChecksumOk;
    var k := |e| / 4;
    var ws := WordsOf(sha, e);
    WordsOfGroups(sha, e);
    CheckedBound(sha, e);
    ValueOfFixedDigits(2048, CheckedNumber(sha, e), 3 * k);
    UnpackedParts(ws);
    TopBitsBound(sha(e), k);
    Quotient(Value(256, e), Power(2, k), TopBits(sha(e), k));
    SameValue(256, Unpacked(ws)[..4 * k], e);
    ChecksumMeans(sha, ws);
  }

  /** Words with a right checksum are those of the entropy in them. */
  lemma EncodesBack(sha: Sha, ws: seq<nat>)
    requires ShaOk(sha) && Digits(2048, ws) && |ws| % 3 == 0 && |ws| / 3 < 32
    requires ChecksumOk(sha, ws)
    ensures var e := Unpacked(ws)[..EntropyBytes(|ws|)];
            |e| == 4 * (|ws| / 3) && Readable(|e|) && WordsOf(sha, e) == ws
  {
    hide Power, Value, Unpacked, TopBits, ChecksumOk;
    UnpackedParts(ws);
    ChecksumMeans(sha, ws);
    FixedDigitsOfValue(2048, ws);
    WordsOfGroups(sha, Unpacked(ws)[..EntropyBytes(|ws|)]);
  }

  /** From 96 words on, decoding takes more bits for the checksum than encoding wrote. */
  lemma LongPhrasesLoseBytes(k: nat)
    requires 32 <= k
    ensures EntropyBytes(3 * k) < 4 * k
  {
  }
}
