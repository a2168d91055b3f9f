/** Big numbers as bytes: the signed format that OpenSSL calls MPI, and the compact encoding of
    targets in 32 bits. */
module BigNum {
  import opened Arithmetic
  import opened Radix
  import opened Sequences

  function Pow256(k: nat): (p: nat)
    ensures p > 0
  {
    Power(256, k)
  }

  /** The number that bytes stand for, the most significant first. */
  function Magnitude(s: seq<byte>): nat {
    Value(256, s)
  }

  function BytesOf(v: nat): seq<byte> {
    ValueOfDigits(256, v);
    DigitsOf(256, v)
  }

  lemma MagnitudeBound(s: seq<byte>)
    ensures Magnitude(s) < Pow256(|s|)
    ensures s != [] ==> s[0] * Pow256(|s| - 1) <= Magnitude(s) < (s[0] as int + 1) * Pow256(|s| - 1)
  {
    ValueBound(256, s);
  }

  lemma MagnitudeOfBytes(v: nat)
    ensures Magnitude(BytesOf(v)) == v && (v > 0 ==> BytesOf(v) != [] && BytesOf(v)[0] > 0)
  {
    ValueOfDigits(256, v);
  }

  lemma SameMagnitude(a: seq<byte>, b: seq<byte>)
    requires |a| == |b| && Magnitude(a) == Magnitude(b)
    ensures a == b
  {
    SameValue(256, a, b);
  }

  lemma MagnitudeAppend(a: seq<byte>, b: seq<byte>)
    ensures Magnitude(a + b) == Magnitude(a) * Pow256(|b|) + Magnitude(b)
  {
    ValueAppend(256, a, b);
  }

  function Zeros(k: nat): (s: seq<byte>)
    ensures |s| == k && forall i | 0 <= i < k :: s[i] == 0
  {
    seq(k, _ => 0)
  }

  lemma MagnitudeZeros(k: nat)
    ensures Magnitude(Zeros(k)) == 0
  {
    ValueZeros(256, Zeros(k));
  }

  // ----- MPI

  /** The sign is the top bit of the first byte; a zero byte goes first when the top bit is
      taken. */
  function Mpi(v: int): seq<byte> {
    if v == 0 then []
    else
      var b := BytesOf(if v < 0 then -v else v);
      MagnitudeOfBytes(if v < 0 then -v else v);
      var e := if b[0] >= 128 then [0] + b else b;
      if v < 0 then [e[0] + 128] + e[1..] else e
  }

  function Unsigned(s: seq<byte>): seq<byte> {
    if s != [] && s[0] >= 128 then [s[0] - 128] + s[1..] else s
  }

  function MpiValue(s: seq<byte>): int {
    if s != [] && s[0] >= 128 then var m: int := Magnitude(Unsigned(s)); -m else Magnitude(s)
  }

  /** No shorter string of bytes says the same. */
  predicate Minimal(s: seq<byte>) {
    s != [] ==> s[0] % 128 > 0 || (|s| > 1 && s[1] >= 128)
  }

  lemma LeadingZero(s: seq<byte>)
    requires s != [] && s[0] == 0
    ensures Magnitude(s) == Magnitude(s[1..])
  {
    LeadingZeros(256, s, 1);
  }

  lemma MpiIsMinimal(v: int)
    ensures Minimal(Mpi(v)) && MpiValue(Mpi(v)) == v
    ensures v != 0 ==> Mpi(v) != [] && (v < 0 <==> Mpi(v)[0] >= 128)
  {
    hide Magnitude, BytesOf;
    if v != 0 {
      var a := if v < 0 then -v else v;
      var b := BytesOf(a);
      MagnitudeOfBytes(a);
      var e := if b[0] >= 128 then [0] + b else b;
      if b[0] >= 128 {
        LeadingZero(e);
        assert e[1..] == b;
      }
      SignPut(e, v < 0);
    } else {
      MagnitudeZeros(0);
      assert Zeros(0) == [];
    }
  }

  /** The sign is put into the free top bit, and taken out again. */
  lemma SignPut(e: seq<byte>, negative: bool)
    requires e != [] && e[0] < 128 && (e[0] > 0 || (|e| > 1 && e[1] >= 128))
    ensures var s := if negative then [e[0] + 128] + e[1..] else e;
            Minimal(s) && Unsigned(s) == e && (s[0] >= 128 <==> negative)
  {
  }

  /** Bytes that say the same in the same length are the same. */
  lemma SameMpi(s: seq<byte>, t: seq<byte>)
    requires |s| == |t| && MpiValue(s) == MpiValue(t) != 0
    ensures s == t
  {
    MagnitudeBound(s);
    MagnitudeBound(t);
    SameMagnitude(Unsigned(s), Unsigned(t));
    if s != [] && s[0] >= 128 {
      assert s == [Unsigned(s)[0] + 128] + Unsigned(s)[1..];
      assert t == [Unsigned(t)[0] + 128] + Unsigned(t)[1..];
    }
  }

  lemma MinimalBounds(s: seq<byte>)
    requires s != [] && Minimal(s)
    ensures MpiValue(s) != 0
    ensures |s| > 1 ==> 128 * Pow256(|s| - 2) <= Magnitude(Unsigned(s)) < 128 * Pow256(|s| - 1)
    ensures |s| == 1 ==> 0 < Magnitude(Unsigned(s)) < 128
  {
    hide Magnitude, Pow256;
    var u := Unsigned(s);
    assert u[0] == s[0] % 128;
    if |s| == 1 {
      OneByte(u);
    } else {
      UnsignedBounds(u);
    }
  }

  lemma OneByte(u: seq<byte>)
    requires |u| == 1
    ensures Magnitude(u) == u[0]
  {
    ValueNext(256, [], u[0]);
    assert u == [] + [u[0]];
  }

  lemma UnsignedBounds(u: seq<byte>)
    requires |u| > 1 && u[0] < 128 && (u[0] > 0 || u[1] >= 128)
    ensures 128 * Pow256(|u| - 2) <= Magnitude(u) < 128 * Pow256(|u| - 1)
  {
    hide Magnitude;
    var p, q := Pow256(|u| - 2), Pow256(|u| - 1);
    assert q == p * 256;
    MagnitudeBound(u);
    if u[0] == 0 {
      LeadingZero(u);
      MagnitudeBound(u[1..]);
      Scale(128, u[1], p);
    } else {
      Scale(1, u[0], q);
    }
    Scale(u[0] as int + 1, 128, q);
  }

  lemma Pow256Grows(a: nat, b: nat)
    requires a <= b
    ensures Pow256(a) <= Pow256(b)
  {
    PowerGrows(256, a, b);
  }

  /** A minimal string is the one that its number gives. */
  lemma MinimalIsMpi(s: seq<byte>)
    requires Minimal(s)
    ensures Mpi(MpiValue(s)) == s
  {
    if s != [] {
      var v := MpiValue(s);
      var t := Mpi(v);
      MinimalBounds(s);
      MpiIsMinimal(v);
      MinimalBounds(t);
      if |t| < |s| {
        SameLength(t, s);
      } else {
        SameLength(s, t);
      }
      SameMpi(s, t);
    }
  }

  lemma SameLength(s: seq<byte>, t: seq<byte>)
    requires s != [] && t != [] && Minimal(s) && Minimal(t) && MpiValue(s) == MpiValue(t) && |s| <= |t|
    ensures |s| == |t|
  {
    hide Minimal, MpiValue, Unsigned, Magnitude, Pow256;
    MinimalBounds(s);
    MinimalBounds(t);
    MagnitudeOfValue(s);
    MagnitudeOfValue(t);
    if |s| < |t| {
      Pow256Grows(|s| - 1, |t| - 2);
      PowZero();
      assert false;
    }
  }

  lemma PowZero()
    ensures Pow256(0) == 1
  {
  }

  lemma MagnitudeOfValue(s: seq<byte>)
    ensures Magnitude(Unsigned(s)) == if MpiValue(s) < 0 then -MpiValue(s) else MpiValue(s)
  {
  }

  // ----- the compact encoding

  function ByteAt(s: seq<byte>, i: nat): byte {
    if i < |s| then s[i] else 0
  }

  /** The length and the first three bytes. */
  function Pack(s: seq<byte>): nat {
    |s| * 0x100_0000 + ByteAt(s, 0) * 0x1_0000 + ByteAt(s, 1) * 0x100 + ByteAt(s, 2)
  }

  /** The first three bytes, and zeros for the others. */
  function Head(s: seq<byte>): seq<byte> {
    if |s| <= 3 then s else s[..3] + Zeros(|s| - 3)
  }

  function CompactBytes(nCompact: nat): (s: seq<byte>)
    ensures |s| == nCompact / 0x100_0000
  {
    var nSize := nCompact / 0x100_0000;
    var m: seq<byte> := [nCompact / 0x1_0000 % 256, nCompact / 0x100 % 256, nCompact % 256];
    if nSize <= 3 then m[..nSize] else m + Zeros(nSize - 3)
  }

  function FromCompact(nCompact: nat): int {
    MpiValue(CompactBytes(nCompact))
  }

  function ToCompact(v: int): nat {
    Pack(Mpi(v))
  }

  /** The number that 32 bits stand for: 23 bits of mantissa, their sign, and in the first byte how
      many bytes long it is. */
  lemma CompactValue(nCompact: nat)
    ensures var nSize, nWord := nCompact / 0x100_0000, nCompact % 0x80_0000;
            var v: int := if nSize >= 3 then nWord * Pow256(nSize - 3) else if nSize == 2 then nWord / 0x100 else if nSize == 1 then nWord / 0x1_0000 else 0;
            FromCompact(nCompact) == if nSize > 0 && nCompact / 0x80_0000 % 2 == 1 then -v else v
  {
    hide Magnitude, Pow256;
    var nSize: nat, a: nat, b: nat, c: nat := nCompact / 0x100_0000, nCompact / 0x1_0000 % 256, nCompact / 0x100 % 256, nCompact % 256;
    var low: nat := if a >= 128 then a - 128 else a;
    MantissaBytes(nCompact);
    FewBytes(low, b, c);
    var u := Unsigned(CompactBytes(nCompact));
    if nSize > 3 {
      assert u == [low, b, c] + Zeros(nSize - 3);
      MagnitudeAppend([low, b, c], Zeros(nSize - 3));
      MagnitudeZeros(nSize - 3);
    } else {
      assert u == [low, b, c][..nSize];
      PowZero();
      FirstBytes(low, b, c, nSize);
    }
  }

  lemma FirstBytes(a: byte, b: byte, c: byte, k: nat)
    requires k <= 3
    ensures var v: nat := a as int * 0x1_0000 + b as int * 0x100 + c as int;
            Magnitude([a, b, c][..k]) == if k == 3 then v else if k == 2 then v / 0x100 else if k == 1 then v / 0x1_0000 else 0
  {
    hide Magnitude;
    var x: nat, y: nat, z: nat := a, b, c;
    FewBytes(a, b, c);
    assert [a, b, c][..1] == [a] && [a, b, c][..2] == [a, b] && [a, b, c][..3] == [a, b, c] && [a, b, c][..0] == [];
    Quotient(x * 0x100 + y, 0x100, z);
    Quotient(x, 0x1_0000, y * 0x100 + z);
  }

  lemma MantissaBytes(nCompact: nat)
    ensures var a, b, c := nCompact / 0x1_0000 % 256, nCompact / 0x100 % 256, nCompact % 256;
            && nCompact % 0x80_0000 == (if a >= 128 then a - 128 else a) * 0x1_0000 + b * 0x100 + c
            && (a >= 128 <==> nCompact / 0x80_0000 % 2 == 1)
  {
    var n: nat, a: nat, b: nat, c: nat := nCompact / 0x100_0000, nCompact / 0x1_0000 % 256, nCompact / 0x100 % 256, nCompact % 256;
    Unpacked(nCompact);
    SignOf(nCompact, n, a, b, c);
  }

  lemma SignOf(v: nat, n: nat, a: nat, b: nat, c: nat)
    requires a < 256 && b < 256 && c < 256 && v == n * 0x100_0000 + a * 0x1_0000 + b * 0x100 + c
    ensures v % 0x80_0000 == (if a >= 128 then a - 128 else a) * 0x1_0000 + b * 0x100 + c
    ensures a >= 128 <==> v / 0x80_0000 % 2 == 1
  {
    var hi, lo := if a >= 128 then 1 else 0, if a >= 128 then a - 128 else a;
    Quotient(n * 2 + hi, 0x80_0000, lo * 0x1_0000 + b * 0x100 + c);
    Quotient(n, 2, hi);
  }

  lemma FewBytes(a: byte, b: byte, c: byte)
    ensures Magnitude([]) == 0 && Magnitude([a]) == a
    ensures Magnitude([a, b]) == a as int * 0x100 + b as int && Magnitude([a, b, c]) == a as int * 0x1_0000 + b as int * 0x100 + c as int
  {
    var s: seq<byte> := [a, b, c];
    assert s[..2] == [a, b] && [a, b][..1] == [a];
  }

  lemma PackBytes(s: seq<byte>)
    ensures Pack(s) / 0x100_0000 == |s|
    ensures Pack(s) / 0x1_0000 % 256 == ByteAt(s, 0) && Pack(s) / 0x100 % 256 == ByteAt(s, 1) && Pack(s) % 256 == ByteAt(s, 2)
  {
    var n: nat, a: nat, b: nat, c: nat := |s|, ByteAt(s, 0), ByteAt(s, 1), ByteAt(s, 2);
    Quotient(n, 0x100_0000, a * 0x1_0000 + b * 0x100 + c);
    Quotient(n * 0x100 + a, 0x1_0000, b * 0x100 + c);
    Quotient(n * 0x1_0000 + a * 0x100 + b, 0x100, c);
    Quotient(n, 0x100, a);
    Quotient(n * 0x100 + a, 0x100, b);
  }

  lemma PackKeepsHead(s: seq<byte>)
    ensures CompactBytes(Pack(s)) == Head(s)
  {
    hide Pack;
    PackBytes(s);
  }

  lemma HeadIsMinimal(s: seq<byte>)
    ensures Minimal(Head(s)) <==> Minimal(s)
  {
  }

  /** What the 32 bits must be like to be the encoding of a number: no shorter length would do,
      and bytes beyond the length are zero. */
  predicate Canonical(nCompact: nat) {
    var nSize, b0, b1, b2 := nCompact / 0x100_0000, nCompact / 0x1_0000 % 256, nCompact / 0x100 % 256, nCompact % 256;
    && (nSize == 0 ==> b0 == 0) && (nSize <= 1 ==> b1 == 0) && (nSize <= 2 ==> b2 == 0)
    && (nSize >= 1 ==> b0 % 128 > 0 || (nSize >= 2 && b1 >= 128))
  }

  lemma Unpacked(nCompact: nat)
    ensures nCompact == nCompact / 0x100_0000 * 0x100_0000 + nCompact / 0x1_0000 % 256 * 0x1_0000 + nCompact / 0x100 % 256 * 0x100 + nCompact % 256
  {
  }

  lemma CanonicalBytes(nCompact: nat)
    ensures Canonical(nCompact) <==> Minimal(CompactBytes(nCompact)) && Pack(CompactBytes(nCompact)) == nCompact
  {
    var s := CompactBytes(nCompact);
    Unpacked(nCompact);
    assert |s| >= 1 ==> s[0] == nCompact / 0x1_0000 % 256;
    assert |s| >= 2 ==> s[1] == nCompact / 0x100 % 256;
    assert |s| >= 3 ==> s[2] == nCompact % 256;
  }

  /** Decoding and encoding gives the same 32 bits back exactly for canonical ones. */
  lemma CompactRoundTrip(nCompact: nat)
    ensures ToCompact(FromCompact(nCompact)) == nCompact <==> Canonical(nCompact)
  {
    hide Minimal, Pack, Head, Canonical, CompactBytes, MpiValue, Mpi;
    var s := CompactBytes(nCompact);
    var t := Mpi(MpiValue(s));
    CanonicalBytes(nCompact);
    if Minimal(s) {
      MinimalIsMpi(s);
    } else {
      MpiIsMinimal(MpiValue(s));
      PackKeepsHead(t);
      HeadIsMinimal(t);
      assert Pack(t) == nCompact ==> s == Head(t);
    }
  }

  lemma HeadValue(s: seq<byte>)
    ensures Magnitude(Head(s)) <= Magnitude(s)
    ensures if |s| > 3 then Magnitude(s) - Magnitude(Head(s)) < Pow256(|s| - 3) else Head(s) == s
  {
    if |s| > 3 {
      var k := |s| - 3;
      assert s == s[..3] + s[3..];
      MagnitudeAppend(s[..3], s[3..]);
      MagnitudeAppend(s[..3], Zeros(k));
      MagnitudeZeros(k);
      MagnitudeBound(s[3..]);
    }
  }

  lemma DecodedIsHead(v: int)
    requires v >= 0
    ensures FromCompact(ToCompact(v)) == Magnitude(Head(Mpi(v))) && Magnitude(Mpi(v)) == v
  {
    hide Pack, Magnitude;
    PackKeepsHead(Mpi(v));
    MpiIsMinimal(v);
    MagnitudeOfValue(Mpi(v));
    if v == 0 {
      assert Mpi(v) == [];
    }
  }

  /** Encoding never rounds up, and loses less than a unit of its third byte. */
  lemma CompactTruncates(v: nat)
    ensures var w := FromCompact(ToCompact(v)); var k := |Mpi(v)|;
            0 <= w <= v && if k > 3 then v - w < Pow256(k - 3) else w == v
  {
    hide Head, Mpi, Magnitude;
    DecodedIsHead(v);
    HeadValue(Mpi(v));
  }

  lemma NoBytes()
    ensures Mpi(0) == []
  {
  }

  lemma LongerIsMore(v: nat, w: nat)
    requires |Mpi(v)| < |Mpi(w)|
    ensures v < Magnitude(Head(Mpi(w)))
  {
    hide Pow256, Magnitude, Mpi, FromCompact, ToCompact;
    var s, t := Mpi(v), Mpi(w);
    NoBytes();
    DecodedIsHead(v);
    DecodedIsHead(w);
    MpiIsMinimal(v);
    MpiIsMinimal(w);
    HeadIsMinimal(t);
    assert w > 0;
    MinimalBounds(Head(t));
    PositiveUnsigned(w);
    if s != [] {
      MinimalBounds(s);
      PositiveUnsigned(v);
      Pow256Grows(|s| - 1, |t| - 2);
      PowZero();
    }
  }

  lemma PositiveUnsigned(w: nat)
    ensures Unsigned(Mpi(w)) == Mpi(w) && Unsigned(Head(Mpi(w))) == Head(Mpi(w))
  {
    MpiIsMinimal(w);
  }

  /** Encoding keeps the order of numbers. */
  lemma CompactMonotone(v: nat, w: nat)
    requires v <= w
    ensures FromCompact(ToCompact(v)) <= FromCompact(ToCompact(w))
  {
    hide Head, Mpi, Magnitude, Pow256;
    var s, t := Mpi(v), Mpi(w);
    DecodedIsHead(v);
    DecodedIsHead(w);
    HeadValue(s);
    HeadValue(t);
    if |s| < |t| {
      LongerIsMore(v, w);
    } else if |s| > |t| {
      LongerIsMore(w, v);
    } else if |s| > 3 {
      HeadsInOrder(s, t);
    }
  }

  /** Of strings with the same length, the heads are in order. */
  lemma HeadsInOrder(s: seq<byte>, t: seq<byte>)
    requires |s| == |t| > 3 && Magnitude(s) <= Magnitude(t)
    ensures Magnitude(Head(s)) <= Magnitude(Head(t))
  {
    hide Magnitude, Pow256;
    var k := |s| - 3;
    var p := Pow256(k);
    MagnitudeZeros(k);
    MagnitudeAppend(s[..3], Zeros(k));
    MagnitudeAppend(t[..3], Zeros(k));
    assert s == s[..3] + s[3..] && t == t[..3] + t[3..];
    MagnitudeAppend(s[..3], s[3..]);
    MagnitudeAppend(t[..3], t[3..]);
    MagnitudeBound(s[3..]);
    MagnitudeBound(t[3..]);
    ProductsInOrder(Magnitude(s[..3]), Magnitude(s[3..]), Magnitude(t[..3]), Magnitude(t[3..]), p);
  }

  lemma ProductsInOrder(a: nat, x: nat, b: nat, y: nat, p: nat)
    requires a * p + x <= b * p + y && x < p && y < p
    ensures a * p <= b * p
  {
    assert (a - b) * p == a * p - b * p;
    if a > b {
      Scale(1, a - b, p);
    }
    Scale(a, if a > b then a else b, p);
  }

  // ----- numbers as the encoding leaves them

  /** What is left of a number by encoding it. */
  function Rounded(v: int): int {
    FromCompact(ToCompact(v))
  }

  /** An encoding is canonical. */
  lemma ToCompactCanonical(v: int)
    ensures Canonical(ToCompact(v))
  {
    hide Pack, Canonical, CompactBytes, Mpi, Minimal, Head;
    var s := Mpi(v);
    MpiIsMinimal(v);
    PackKeepsHead(s);
    HeadIsMinimal(s);
    HeadPacks(s);
    CanonicalBytes(Pack(s));
  }

  lemma HeadPacks(s: seq<byte>)
    ensures Pack(Head(s)) == Pack(s)
  {
  }

  /** What encoding leaves loses nothing more. */
  lemma RoundedTwice(v: nat)
    ensures 0 <= Rounded(v) <= v && Rounded(Rounded(v)) == Rounded(v)
  {
    hide Canonical, FromCompact, ToCompact, Pow256;
    CompactTruncates(v);
    ToCompactCanonical(v);
    CompactRoundTrip(ToCompact(v));
  }

  /** Nothing smaller than a byte is lost. */
  lemma RoundedAtLeast(k: nat, v: nat)
    requires k < 256 && k <= v
    ensures Rounded(k) == k && k <= Rounded(v)
  {
    hide FromCompact, ToCompact, Mpi;
    assert Pow256(1) == 256;
    hide Pow256;
    MpiLength(k, 1);
    CompactTruncates(k);
    CompactMonotone(k, v);
  }

  // ----- the class

  /** BN_mpi2bn: four bytes of length, then that many of the number. */
  function Mpi2Bn(vch: seq<byte>): int {
    if |vch| >= 4 && Magnitude(vch[..4]) == |vch| - 4 then MpiValue(vch[4..]) else 0
  }

  /** BN_bn2mpi */
  function Bn2Mpi(v: int): seq<byte> {
    var n := |Mpi(v)|;
    [n / 0x100_0000 % 256, n / 0x1_0000 % 256, n / 0x100 % 256, n % 256] + Mpi(v)
  }

  lemma ShortLength(n: byte)
    ensures Magnitude([0, 0, 0, n]) == n
  {
    LeadingZero([0, 0, 0, n]);
    LeadingZero([0, 0, n]);
    LeadingZero([0, n]);
    assert [0, 0, 0, n][1..] == [0, 0, n] && [0, 0, n][1..] == [0, n] && [0, n][1..] == [n];
    OneByte([n]);
  }

  /** Only the low byte of the length stays in 32 bits. */
  lemma CompactWraps(s: seq<byte>)
    ensures Pack(s) % 0x1_0000_0000 == Pack(s) - |s| * 0x100_0000 + |s| * 0x100_0000 % 0x1_0000_0000
    ensures |s| * 0x100_0000 % 0x1_0000_0000 == |s| * 0x100_0000 <==> |s| < 256
  {
    var n: nat, r: nat := |s|, Pack(s) - |s| * 0x100_0000;
    Quotient(n / 256, 0x1_0000_0000, n % 256 * 0x100_0000);
    Quotient(n / 256, 0x1_0000_0000, n % 256 * 0x100_0000 + r);
  }

  class CBigNum {
    var value: int

    constructor (v: int)
      ensures value == v
    {
      value := v;
    }

    method SetCompact(nCompact: nat)
      requires nCompact < 0x1_0000_0000
      modifies this
      ensures value == FromCompact(nCompact)
    {
      var nSize := nCompact / 0x100_0000;
      var vch := new byte[4 + nSize](_ => 0);
      vch[3] := nSize;
      if nSize >= 1 {
        vch[4] := nCompact / 0x1_0000 % 256;
      }
      if nSize >= 2 {
        vch[5] := nCompact / 0x100 % 256;
      }
      if nSize >= 3 {
        vch[6] := nCompact % 256;
      }
      ShortLength(nSize);
      assert vch[..][..4] == [0, 0, 0, nSize];
      assert forall i | 7 <= i < vch.Length :: vch[i] == 0;
      assert vch[..][4..] == CompactBytes(nCompact);
      value := Mpi2Bn(vch[..]);
    }

    /** The source's `|=` of separate bytes is a sum; what the shift of the length pushes out of
        the 32 bits is lost. */
    method GetCompact() returns (nCompact: nat)
      ensures nCompact == ToCompact(value) % 0x1_0000_0000
      ensures nCompact == ToCompact(value) <==> |Mpi(value)| < 256
    {
      var vch := Bn2Mpi(value);
      var nSize := |vch| - 4;
      CompactWraps(Mpi(value));
      nCompact := nSize * 0x100_0000 % 0x1_0000_0000;
      if nSize >= 1 {
        nCompact := nCompact + vch[4] as int * 0x1_0000;
      }
      if nSize >= 2 {
        nCompact := nCompact + vch[5] as int * 0x100;
      }
      if nSize >= 3 {
        nCompact := nCompact + vch[6];
      }
    }

    /** The bytes of the number, the least significant first, the sign in the last. */
    method getvch() returns (vch: seq<byte>)
      ensures vch == Reversed(Mpi(value))
    {
      vch := Bn2Mpi(value);
      if |vch| <= 4 {
        return [];
      }
      vch := Reversed(vch[4..]);
    }
  }

  /** Numbers of up to `k` bytes need at most one more in MPI. */
  lemma MpiLength(v: nat, k: nat)
    requires v < Pow256(k)
    ensures |Mpi(v)| <= k + 1
  {
    DigitsLength(256, v, k);
  }
}
