/** Base58, as it is encoded and as it is decoded. */
module Base58 {
  import opened Arithmetic
  import opened Radix
  import opened BigNum
  import opened Sequences

  /** `n` characters in a row. */
  function Run(first: char, n: nat): (s: string)
    requires first as int + n <= 128
    ensures |s| == n && forall i | 0 <= i < n :: s[i] as int == first as int + i
  {
    seq(n, i requires 0 <= i < n => (first as int + i) as char)
  }

  /** The digits and letters but for 0, I, O and l: 1-9, A-H, J-N, P-Z, a-k, m-z. */
  const pszBase58: string := Run('1', 9) + Run('A', 8) + Run('J', 5) + Run('P', 11) + Run('a', 11) + Run('m', 14)

  predicate IsSpace(c: char) {
    c == ' ' || 9 <= c as int <= 13
  }

  // ----- the alphabet

  lemma AlphabetInOrder(i: nat, j: nat)
    requires i < j < 58
    ensures |pszBase58| == 58 && '1' <= pszBase58[i] < pszBase58[j]
  {
    hide Run;
  }

  /** The alphabet has the digits and letters of ASCII but for 0, I, O and l. */
  lemma AlphabetIs(c: char)
    ensures c in pszBase58 <==> ('0' <= c <= '9' || 'A' <= c <= 'Z' || 'a' <= c <= 'z') && c !in "0IOl"
  {
    var k := c as int;
    InRun(c, '1', 9);
    InRun(c, 'A', 8);
    InRun(c, 'J', 5);
    InRun(c, 'P', 11);
    InRun(c, 'a', 11);
    InRun(c, 'm', 14);
    hide Run;
  }

  lemma InRun(c: char, first: char, n: nat)
    requires first as int + n <= 128
    ensures c in Run(first, n) <==> first as int <= c as int < first as int + n
  {
    var k := c as int - first as int;
    if 0 <= k < n {
      assert Run(first, n)[k] == c;
    }
  }

  /** strchr: where the character first is in `s`, or the length of `s`. */
  function Find(c: char, s: string): (k: nat)
    ensures k <= |s| && (k < |s| ==> s[k] == c) && forall i | 0 <= i < k :: s[i] != c
  {
    if s == [] || s[0] == c then 0 else 1 + Find(c, s[1..])
  }

  function DigitOf(c: char): nat {
    Find(c, pszBase58)
  }

  predicate IsDigit(c: char) {
    DigitOf(c) < 58
  }

  lemma DigitOfChar(d: nat)
    requires d < 58
    ensures |pszBase58| == 58 && DigitOf(pszBase58[d]) == d && !IsSpace(pszBase58[d])
    ensures d > 0 ==> pszBase58[d] != '1'
  {
    hide Run, Find;
    if d > 0 {
      AlphabetInOrder(0, d);
    } else {
      AlphabetInOrder(0, 1);
    }
    var k := DigitOf(pszBase58[d]);
    if k < d {
      AlphabetInOrder(k, d);
    }
  }

  // ----- what encoding and decoding give

  function ZeroCount(s: seq<byte>): (k: nat)
    ensures k <= |s| && (k < |s| ==> s[k] != 0) && forall i | 0 <= i < k :: s[i] == 0
  {
    if s == [] || s[0] != 0 then 0 else 1 + ZeroCount(s[1..])
  }

  function Chars(digits: seq<nat>): (s: string)
    requires forall i | 0 <= i < |digits| :: digits[i] < 58
    ensures |s| == |digits| && forall i | 0 <= i < |s| :: |pszBase58| == 58 && s[i] == pszBase58[digits[i]]
  {
    AlphabetInOrder(0, 1);
    seq(|digits|, i requires 0 <= i < |digits| => pszBase58[digits[i]])
  }

  function Ones(k: nat): (s: string)
    ensures |s| == k && forall i | 0 <= i < k :: s[i] == '1'
  {
    seq(k, _ => '1')
  }

  /** One '1' for each leading zero, and the digits of the rest. */
  function Encoded(vch: seq<byte>): string {
    var z := ZeroCount(vch);
    ValueOfDigits(58, Magnitude(vch[z..]));
    Ones(z) + Chars(DigitsOf(58, Magnitude(vch[z..])))
  }

  function SkipSpaces(s: string): (k: nat)
    ensures k <= |s| && (k < |s| ==> !IsSpace(s[k])) && forall i | 0 <= i < k :: IsSpace(s[i])
  {
    if s == [] || !IsSpace(s[0]) then 0 else 1 + SkipSpaces(s[1..])
  }

  function SkipOnes(s: string): (k: nat)
    ensures k <= |s| && (k < |s| ==> s[k] != '1') && forall i | 0 <= i < k :: s[i] == '1'
  {
    if s == [] || s[0] != '1' then 0 else 1 + SkipOnes(s[1..])
  }

  function DigitCount(s: string): (k: nat)
    ensures k <= |s| && (k < |s| ==> !IsDigit(s[k])) && forall i | 0 <= i < k :: IsDigit(s[i])
  {
    if s == [] || !IsDigit(s[0]) then 0 else 1 + DigitCount(s[1..])
  }

  function DigitsIn(s: string): (d: seq<nat>)
    ensures |d| == |s| && forall i | 0 <= i < |s| :: d[i] == DigitOf(s[i])
  {
    seq(|s|, i requires 0 <= i < |s| => DigitOf(s[i]))
  }

  datatype Result = Failure | Success(vch: seq<byte>)

  /** Spaces in front and '1's after them are skipped; then come digits, and at the end there may
      be spaces again.  What is decoded is the number, without zeros in front. */
  function Decoded(psz: string): Result {
    var s := psz[SkipSpaces(psz)..];
    var t := s[SkipOnes(s)..];
    var k := DigitCount(t);
    if SkipSpaces(t[k..]) == |t| - k then Success(BytesOf(Value(58, DigitsIn(t[..k])))) else Failure
  }

  // ----- decoding undoes encoding, up to leading zeros

  lemma Skips(psz: string, z: nat, rest: string)
    requires psz == Ones(z) + rest
    requires forall i | 0 <= i < |rest| :: IsDigit(rest[i]) && !IsSpace(rest[i])
    requires rest != [] ==> rest[0] != '1'
    ensures Decoded(psz) == Success(BytesOf(Value(58, DigitsIn(rest))))
  {
    hide IsDigit, Ones;
    OneIsNoSpace();
    assert psz != [] ==> !IsSpace(psz[0]);
    assert psz[SkipSpaces(psz)..] == psz;
    var k := SkipOnes(psz);
    assert forall i | 0 <= i < z :: psz[i] == '1';
    assert rest != [] ==> psz[z] == rest[0];
    assert k == z && psz[k..] == rest;
    var n := DigitCount(rest);
    assert n == |rest|;
    assert rest[..n] == rest && rest[n..] == [];
  }

  lemma OneIsNoSpace()
    ensures !IsSpace('1')
  {
  }

  /** Decoding gives back what was encoded, without its leading zeros. */
  lemma DecodesEncoded(vch: seq<byte>)
    ensures Decoded(Encoded(vch)) == Success(vch[ZeroCount(vch)..])
  {
    hide Decoded, DigitOf, IsSpace;
    var z := ZeroCount(vch);
    var rest := vch[z..];
    var v := Magnitude(rest);
    ValueOfDigits(58, v);
    var d := DigitsOf(58, v);
    var s := Chars(d);
    forall i | 0 <= i < |s| ensures IsDigit(s[i]) && !IsSpace(s[i]) && DigitOf(s[i]) == d[i] {
      DigitOfChar(d[i]);
    }
    if s != [] {
      DigitOfChar(d[0]);
    }
    Skips(Encoded(vch), z, s);
    assert DigitsIn(s) == d;
    DigitsOfValue(256, rest);
  }

  /** So the round trip is exact just for what does not start with a zero byte. */
  lemma RoundTrip(vch: seq<byte>)
    ensures Decoded(Encoded(vch)) == Success(vch) <==> (vch != [] ==> vch[0] != 0)
  {
    DecodesEncoded(vch);
    var z := ZeroCount(vch);
    assert |vch[z..]| == |vch| - z;
  }

  predicate Spaces(s: string) {
    forall i | 0 <= i < |s| :: IsSpace(s[i])
  }

  predicate AllDigits(s: string) {
    forall i | 0 <= i < |s| :: IsDigit(s[i])
  }

  lemma DigitNoSpace(c: char)
    requires IsDigit(c)
    ensures !IsSpace(c) && (c == '1' ==> DigitOf(c) == 0)
  {
    hide Run;
    AlphabetInOrder(0, 1);
    DigitOfChar(DigitOf(c));
    DigitOfChar(0);
  }

  lemma {:induction false} OnesCountNothing(d: string, z: nat)
    requires AllDigits(d) && z <= |d| && forall i | 0 <= i < z :: d[i] == '1'
    ensures Value(58, DigitsIn(d)) == Value(58, DigitsIn(d[z..]))
  {
    hide DigitOf;
    var zeros, rest := DigitsIn(d[..z]), DigitsIn(d[z..]);
    forall i | 0 <= i < z ensures zeros[i] == 0 {
      DigitNoSpace(d[i]);
    }
    assert DigitsIn(d) == zeros + rest;
    ValueZeros(58, zeros);
    ValueAppend(58, zeros, rest);
  }

  /** Digits with nothing but spaces around them decode to the bytes of the number they stand for. */
  lemma DecodesBody(a: string, d: string, c: string)
    requires Spaces(a) && AllDigits(d) && Spaces(c)
    ensures Decoded(a + d + c) == Success(BytesOf(Value(58, DigitsIn(d))))
  {
    hide DigitOf, IsSpace, Value, BytesOf, SkipOnes, SkipSpaces, DigitCount;
    var psz, z := a + d + c, SkipOnes(d + c);
    OneIsNoSpace();
    forall i | 0 <= i < |d| ensures !IsSpace(d[i]) {
      DigitNoSpace(d[i]);
    }
    forall i | 0 <= i < |c| ensures !IsDigit(c[i]) {
      if IsDigit(c[i]) {
        DigitNoSpace(c[i]);
      }
    }
    if d == "" {
      assert SkipSpaces(psz) == |psz|;
      assert d == psz[|psz|..];
    } else {
      assert psz[|a|] == d[0];
      assert SkipSpaces(psz) == |a| && psz[|a|..] == d + c;
      assert forall i | 0 <= i < |c| :: (d + c)[|d| + i] == c[i];
      assert c != "" ==> c[0] != '1' && (d + c)[|d|] == c[0];
      assert z <= |d|;
      assert forall i | 0 <= i < z :: d[i] == (d + c)[i];
      OnesCountNothing(d, z);
      TailDecodes(d[z..], c);
      assert (d + c)[z..] == d[z..] + c;
    }
  }

  lemma TailDecodes(d: string, c: string)
    requires AllDigits(d) && Spaces(c) && forall i | 0 <= i < |c| :: !IsDigit(c[i])
    ensures DigitCount(d + c) == |d| && (d + c)[..|d|] == d && (d + c)[|d|..] == c && SkipSpaces(c) == |c|
  {
    hide IsDigit, IsSpace;
    assert forall i | 0 <= i < |d| :: (d + c)[i] == d[i];
    assert c != "" ==> (d + c)[|d|] == c[0];
  }

  /** And no other text decodes. */
  lemma DecodesOnlyBody(psz: string) returns (a: string, d: string, c: string)
    requires Decoded(psz).Success?
    ensures psz == a + d + c && Spaces(a) && AllDigits(d) && Spaces(c)
  {
    hide DigitOf, IsSpace, Value, BytesOf, IsDigit, SkipOnes, SkipSpaces, DigitCount, AllDigits;
    var n := SkipSpaces(psz);
    var s := psz[n..];
    a := psz[..n];
    assert psz == a + s;
    d, c := OnesAndDigits(s);
    assert a + (d + c) == a + d + c;
  }

  lemma OnesAndDigits(s: string) returns (d: string, c: string)
    requires var t := s[SkipOnes(s)..]; SkipSpaces(t[DigitCount(t)..]) == |t| - DigitCount(t)
    ensures s == d + c && AllDigits(d) && Spaces(c)
  {
    hide IsSpace, IsDigit, DigitCount, SkipOnes, SkipSpaces;
    var z := SkipOnes(s);
    var t := s[z..];
    var k := DigitCount(t);
    d, c := s[..z] + t[..k], t[k..];
    OneIsDigit();
  }

  lemma OneIsDigit()
    ensures IsDigit('1')
  {
    hide Run;
    AlphabetInOrder(0, 1);
    DigitOfChar(0);
    AlphabetIs('1');
    FoundIn('1', pszBase58);
  }

  lemma {:induction false} FoundIn(c: char, s: string)
    requires c in s
    ensures Find(c, s) < |s|
  {
    if s[0] != c {
      FoundIn(c, s[1..]);
    }
  }

  // ----- room for the digits

  /** Digits enough for `n` bytes. */
  function Room(n: nat): nat {
    n * 138 / 100 + 1
  }

  lemma RoomForSome(n: nat)
    requires n < 8
    ensures Power(256, n) <= Power(58, Room(n))
  {
    hide Power;
    Powers58();
    Powers256();
  }

  lemma Powers58()
    ensures Power(58, 1) == 58 && Power(58, 2) == 3_364 && Power(58, 3) == 195_112 && Power(58, 5) == 656_356_768
    ensures Power(58, 6) == 38_068_692_544 && Power(58, 7) == 2_207_984_167_552 && Power(58, 9) == 7_427_658_739_644_928
    ensures Power(58, 10) == 430_804_206_899_405_824 && Power(58, 11) == 24_986_644_000_165_537_792
  {
    assert Power(58, 4) == 11_316_496;
    assert Power(58, 8) == 128_063_081_718_016;
  }

  lemma Powers256()
    ensures Power(256, 0) == 1 && Power(256, 1) == 256 && Power(256, 2) == 65_536 && Power(256, 3) == 16_777_216
    ensures Power(256, 4) == 4_294_967_296 && Power(256, 5) == 1_099_511_627_776 && Power(256, 6) == 281_474_976_710_656
    ensures Power(256, 7) == 72_057_594_037_927_936 && Power(256, 8) == 18_446_744_073_709_551_616
  {
  }

  /** The digits always suffice: eleven hold eight bytes. */
  lemma {:induction false} RoomSuffices(n: nat)
    ensures Power(256, n) <= Power(58, Room(n))
  {
    hide Power;
    if n < 8 {
      RoomForSome(n);
    } else {
      RoomSuffices(n - 8);
      Powers58();
      Powers256();
      PowerAdd(256, n - 8, 8);
      PowerAdd(58, Room(n - 8), 11);
      assert Room(n - 8) + 11 <= Room(n);
      PowerGrows(58, Room(n - 8) + 11, Room(n));
      Scale(Power(256, n - 8), Power(58, Room(n - 8)), Power(256, 8));
      ScaleRight(Power(58, Room(n - 8)), Power(256, 8), Power(58, 11));
    }
  }

  // ----- the code

  /** One digit of "times 256 plus carry". */
  lemma CarryStep(rest: nat, rest0: nat, carry: nat, d: nat, p: nat, ch: nat, q: nat, r: nat)
    requires rest + carry * p == 256 * rest0 + ch && carry + 256 * d == q * 58 + r
    ensures r * p + rest + q * (p * 58) == 256 * (d * p + rest0) + ch
  {
    assert q * (p * 58) == (q * 58) * p;
    assert (q * 58) * p + r * p == (q * 58 + r) * p;
    assert (carry + 256 * d) * p == carry * p + 256 * d * p;
    assert 256 * (d * p) == 256 * d * p;
  }

  lemma DigitInFront(s: seq<nat>, j: nat)
    requires j < |s|
    ensures Value(58, s[j..]) == s[j] * Power(58, |s| - j - 1) + Value(58, s[j + 1..])
  {
    assert s[j..] == [s[j]] + s[j + 1..];
    ValueAppend(58, [s[j]], s[j + 1..]);
    ValueNext(58, [], s[j]);
    assert [] + [s[j]] == [s[j]];
  }

  /** Multiply the digits by 256 and add a byte, in place; what does not fit is returned. */
  method TimesPlus(b58: array<nat>, ch: byte) returns (carry: nat)
    requires Digits(58, b58[..])
    modifies b58
    ensures Digits(58, b58[..])
    ensures Value(58, b58[..]) + carry * Power(58, b58.Length) == 256 * Value(58, old(b58[..])) + ch
  {
    hide Value, Power;
    ghost var was := b58[..];
    carry := ch;
    var j := b58.Length;
    NothingYet(was, b58.Length);
    assert b58[j..] == [] && was[j..] == [];
    while j > 0
      invariant 0 <= j <= b58.Length && b58[..j] == was[..j] && Digits(58, b58[..])
      invariant Value(58, b58[..][j..]) + carry * Power(58, b58.Length - j) == 256 * Value(58, was[j..]) + ch
    {
      j := j - 1;
      ghost var before, carry0 := b58[..], carry;
      carry := carry + 256 * b58[j];
      assert b58[j] == was[j];
      QuotientBounds(carry, 58);
      CarryStep(Value(58, before[j + 1..]), Value(58, was[j + 1..]), carry0, was[j], Power(58, b58.Length - j - 1), ch, carry / 58, carry % 58);
      b58[j] := carry % 58;
      carry := carry / 58;
      assert b58[..][j + 1..] == before[j + 1..];
      DigitInFront(b58[..], j);
      DigitInFront(was, j);
      PowerNext(b58.Length - j - 1);
    }
    assert b58[..][0..] == b58[..] && was[0..] == was;
  }

  lemma NothingYet(s: seq<nat>, n: nat)
    requires |s| == n
    ensures Value(58, s[n..]) == 0 && Power(58, 0) == 1
  {
  }

  lemma PowerNext(k: nat)
    ensures Power(58, k + 1) == Power(58, k) * 58
  {
  }

  /** Nothing is ever left over. */
  lemma NoCarry(v: nat, carry: nat, room: nat, n: nat, total: nat)
    requires v + carry * Power(58, room) == total < Power(256, n) <= Power(58, room)
    ensures carry == 0
  {
    NotAbove(carry, Power(58, room));
  }

  /** The digits of the bytes from `zeroes` on. */
  method Convert(vch: seq<byte>, zeroes: nat) returns (b58: array<nat>)
    requires zeroes <= |vch|
    ensures fresh(b58) && Digits(58, b58[..]) && Value(58, b58[..]) == Magnitude(vch[zeroes..])
  {
    hide Value, Power;
    ghost var rest := vch[zeroes..];
    b58 := new nat[Room(|vch| - zeroes)](_ => 0);
    ValueZeros(58, b58[..]);
    RoomSuffices(|rest|);
    var p := zeroes;
    NoBytes();
    while p < |vch|
      invariant zeroes <= p <= |vch| && Digits(58, b58[..]) && Value(58, b58[..]) == Magnitude(rest[..p - zeroes])
    {
      var carry := TimesPlus(b58, vch[p]);
      MagnitudeNext(rest, p - zeroes);
      NoCarry(Value(58, b58[..]), carry, b58.Length, |rest|, Magnitude(rest[..p - zeroes + 1]));
      p := p + 1;
    }
    assert rest[..p - zeroes] == rest;
  }

  /** The digits as characters, without the zeros in front. */
  method Translate(b58: array<nat>, zeroes: nat) returns (str: string)
    requires Digits(58, b58[..])
    ensures var d := DigitsOf(58, Value(58, b58[..])); Digits(58, d) && str == Ones(zeroes) + Chars(d)
  {
    hide Value, DigitsOf, Run;
    var it := 0;
    while it < b58.Length && b58[it] == 0
      invariant it <= b58.Length && forall i | 0 <= i < it :: b58[..][i] == 0
    {
      it := it + 1;
    }
    ghost var digits := b58[..][it..];
    LeadingZeros(58, b58[..], it);
    DigitsOfValue(58, digits);
    str := seq(zeroes, _ => '1');
    AlphabetInOrder(0, 1);
    ghost var k := 0;
    while it < b58.Length
      invariant it <= b58.Length && k == |digits| - (b58.Length - it) && k <= |digits|
      invariant str == Ones(zeroes) + Chars(digits[..k])
    {
      assert b58[it] == digits[k];
      str := str + [pszBase58[b58[it]]];
      it, k := it + 1, k + 1;
    }
    assert digits[..k] == digits;
  }

  method EncodeBase58(vch: seq<byte>) returns (str: string)
    ensures str == Encoded(vch)
  {
    var zeroes := 0;
    while zeroes < |vch| && vch[zeroes] == 0
      invariant zeroes <= |vch| && forall i | 0 <= i < zeroes :: vch[i] == 0
    {
      zeroes := zeroes + 1;
    }
    var b58 := Convert(vch, zeroes);
    str := Translate(b58, zeroes);
  }

  lemma NoBytes()
    ensures Magnitude([]) == 0
  {
  }

  lemma MagnitudeNext(s: seq<byte>, k: nat)
    requires k < |s|
    ensures Magnitude(s[..k + 1]) == 256 * Magnitude(s[..k]) + s[k] && Magnitude(s[..k + 1]) < Power(256, |s|)
  {
    assert s[..k + 1] == s[..k] + [s[k]];
    ValueNext(256, s[..k], s[k]);
    ValueBound(256, s[..k + 1]);
    PowerGrows(256, k + 1, |s|);
  }

  /** The sign byte of getvch is there only when the last byte has its top bit set. */
  lemma TrimmedSign(v: nat)
    ensures var s := Reversed(Mpi(v));
            (if |s| >= 2 && s[|s| - 1] == 0 && s[|s| - 2] >= 128 then s[..|s| - 1] else s) == Reversed(BytesOf(v))
  {
    MagnitudeOfBytes(v);
    if v == 0 {
      assert Mpi(v) == [] == BytesOf(v);
    }
  }

  method PassSpaces(psz: string, begin: nat) returns (p: nat)
    requires begin <= |psz|
    ensures p == begin + SkipSpaces(psz[begin..]) <= |psz|
  {
    hide IsSpace;
    p := begin;
    ghost var s := psz[begin..];
    while p < |psz| && IsSpace(psz[p])
      invariant begin <= p <= |psz| && forall i | 0 <= i < p - begin :: IsSpace(s[i])
    {
      p := p + 1;
    }
    assert p < |psz| ==> s[p - begin] == psz[p];
  }

  method PassOnes(psz: string, begin: nat) returns (p: nat)
    requires begin <= |psz|
    ensures p == begin + SkipOnes(psz[begin..]) <= |psz|
  {
    p := begin;
    ghost var s := psz[begin..];
    while p < |psz| && psz[p] == '1'
      invariant begin <= p <= |psz| && forall i | 0 <= i < p - begin :: s[i] == '1'
    {
      p := p + 1;
    }
    assert p < |psz| ==> s[p - begin] == psz[p];
  }

  /** The number that the digits from `begin` on stand for. */
  method ReadDigits(psz: string, begin: nat) returns (bn: CBigNum, p: nat)
    requires begin <= |psz|
    ensures fresh(bn) && p == begin + DigitCount(psz[begin..]) <= |psz|
    ensures bn.value == Value(58, DigitsIn(psz[begin..p]))
  {
    hide Value, Find;
    bn := new CBigNum(0);
    ghost var s := psz[begin..];
    p := begin;
    NoDigits(58);
    AlphabetInOrder(0, 1);
    while p < |psz|
      invariant begin <= p <= |psz| && forall i | 0 <= i < p - begin :: IsDigit(s[i])
      invariant bn.value == Value(58, DigitsIn(psz[begin..p]))
    {
      var digit := Find(psz[p], pszBase58);
      assert s[p - begin] == psz[p];
      if digit == |pszBase58| {
        break;
      }
      assert DigitsIn(psz[begin..p + 1]) == DigitsIn(psz[begin..p]) + [digit];
      ValueNext(58, DigitsIn(psz[begin..p]), digit);
      bn.value := bn.value * 58 + digit;
      p := p + 1;
    }
  }

  /** A zero for each '1' from `begin` on, and the bytes of the number. */
  method ToBytes(bn: CBigNum, psz: string, begin: nat) returns (vchRet: seq<byte>)
    requires bn.value >= 0 && begin <= |psz|
    ensures vchRet == Zeros(SkipOnes(psz[begin..])) + BytesOf(bn.value)
  {
    hide BytesOf, Mpi, Run;
    var vchTmp := bn.getvch();
    TrimmedSign(bn.value);
    if |vchTmp| >= 2 && vchTmp[|vchTmp| - 1] == 0 && vchTmp[|vchTmp| - 2] >= 0x80 {
      vchTmp := vchTmp[..|vchTmp| - 1];
    }
    var p := PassOnes(psz, begin);
    var nLeadingZeros := p - begin;
    assert Reversed(Reversed(BytesOf(bn.value))) == BytesOf(bn.value);
    vchRet := Zeros(nLeadingZeros) + Reversed(vchTmp);
  }

  /** Decoding by places in the string. */
  lemma DecodedByPlaces(psz: string, a: nat, b: nat, c: nat, d: nat)
    requires a == SkipSpaces(psz[0..]) && b == a + SkipOnes(psz[a..]) <= |psz|
    requires c == b + DigitCount(psz[b..]) <= |psz| && d == c + SkipSpaces(psz[c..])
    ensures Decoded(psz) == if d == |psz| then Success(BytesOf(Value(58, DigitsIn(psz[b..c])))) else Failure
    ensures SkipOnes(psz[b..]) == 0
  {
    hide Value, IsDigit, IsSpace, BytesOf, DigitsIn, SkipSpaces, SkipOnes, DigitCount;
    Slices(psz, a, b, c);
  }

  lemma Slices(s: string, a: nat, b: nat, c: nat)
    requires a <= b <= c <= |s|
    ensures s[0..] == s && s[a..][b - a..] == s[b..] && s[b..][..c - b] == s[b..c] && s[b..][c - b..] == s[c..]
  {
  }

  method DecodeBase58(psz: string) returns (ok: bool, vchRet: seq<byte>)
    ensures ok <==> Decoded(psz).Success?
    ensures ok ==> vchRet == Decoded(psz).vch
  {
    hide *;
    var start := PassSpaces(psz, 0);
    var begin := PassOnes(psz, start);
    var bn, end := ReadDigits(psz, begin);
    var p := PassSpaces(psz, end);
    DecodedByPlaces(psz, start, begin, end, p);
    if p < |psz| {
      return false, [];
    }
    vchRet := ToBytes(bn, psz, begin);
    ok := true;
  }
}
