/** MnemonicEncode and MnemonicDecode on the texts themselves. */
module Phrases {
  import opened Radix
  import opened WordList
  import opened Mnemonic

  /** The words with these numbers. */
  function Listed(pwl: string, ws: seq<nat>): Option<seq<string>> {
    if ws == [] then Some([])
    else match (Listed(pwl, ws[..|ws| - 1]), Line(pwl, ws[|ws| - 1]))
      case (Some(ps), Some(p)) => Some(ps + [p])
      case _ => None
  }

  /** The numbers of these words. */
  function Numbers(pwl: string, ps: seq<string>): Option<seq<nat>> {
    if ps == [] then Some([])
    else match (Numbers(pwl, ps[..|ps| - 1]), Offset(pwl, ps[|ps| - 1]))
      case (Some(ws), Some(o)) => Some(ws + [o])
      case _ => None
  }

  lemma {:induction false} NumbersOfListed(pwl: string, ws: seq<nat>)
    requires IsWordList(pwl) && Digits(2048, ws)
    ensures Listed(pwl, ws).Some? && |Listed(pwl, ws).value| == |ws|
    ensures Numbers(pwl, Listed(pwl, ws).value) == Some(ws)
    ensures forall i | 0 <= i < |ws| :: IsWord(Listed(pwl, ws).value[i])
  {
    hide IsWord;
    if ws != [] {
      var k := |ws| - 1;
      NumbersOfListed(pwl, ws[..k]);
      OffsetOfWord(pwl, ws[k]);
      var ps := Listed(pwl, ws[..k]).value;
      assert Listed(pwl, ws).value == ps + [Line(pwl, ws[k]).value];
      assert Listed(pwl, ws).value[..k] == ps;
      assert ws == ws[..k] + [ws[k]];
    }
  }

  lemma {:induction false} NumbersAreDigits(pwl: string, ps: seq<string>)
    requires IsWordList(pwl) && Numbers(pwl, ps).Some?
    ensures |Numbers(pwl, ps).value| == |ps| && Digits(2048, Numbers(pwl, ps).value)
    ensures Listed(pwl, Numbers(pwl, ps).value) == Some(ps)
  {
    if ps != [] {
      var k := |ps| - 1;
      NumbersAreDigits(pwl, ps[..k]);
      WordAtOffset(pwl, ps[k]);
      var ws := Numbers(pwl, ps[..k]).value;
      assert Numbers(pwl, ps).value[..k] == ws;
      assert ps == ps[..k] + [ps[k]];
    }
  }

  /** A word that is not in the list fails the whole phrase. */
  lemma {:induction false} NumbersFail(pwl: string, ps: seq<string>, rest: seq<string>)
    requires Numbers(pwl, ps) == None
    ensures Numbers(pwl, ps + rest) == None
  {
    if rest == [] {
      assert ps + rest == ps;
    } else {
      NumbersFail(pwl, ps, rest[..|rest| - 1]);
      assert (ps + rest)[..|ps + rest| - 1] == ps + rest[..|rest| - 1];
    }
  }

  datatype Result<T> = Error(code: nat) | Success(value: T)

  /** The words one after the other, with a space before each unless nothing comes before it. */
  function Phrase(ps: seq<string>): string {
    if ps == [] then ""
    else
      var q := Phrase(ps[..|ps| - 1]);
      (if q != "" then q + " " else "") + ps[|ps| - 1]
  }

  /** Words that are not empty are simply joined by spaces. */
  lemma {:induction false} PhraseIsJoined(ps: seq<string>)
    requires forall i | 0 <= i < |ps| :: ps[i] != ""
    ensures Phrase(ps) == Joined(ps) && (Phrase(ps) == "" <==> ps == [])
  {
    if ps != [] {
      PhraseIsJoined(ps[..|ps| - 1]);
    }
  }

  /** What MnemonicEncode gives, with its error codes, where the last word is within its buffer. */
  function Encoded(sha: Sha, pwl: string, e: seq<byte>): Result<string>
    requires |sha(e)| == 32 && (|e| / 4 > 256 || Readable(|e|))
  {
    if |e| / 4 < 1 || |e| / 4 > 256 then Error(2)
    else match Listed(pwl, WordsOf(sha, e))
      case None => Error(3)
      case Some(ps) => Success(Phrase(ps))
  }

  /** What MnemonicDecode gives, with its error codes. */
  ghost function Decoded(sha: Sha, pwl: string, s: string, fIgnoreChecksum: bool): Result<seq<byte>>
    requires ShaOk(sha)
  {
    if |s| >= 2048 then Error(2)
    else match Numbers(pwl, Tokens(s))
      case None => Error(3)
      case Some(ws) =>
        if fIgnoreChecksum then Success(Unpacked(ws))
        else if |ws| % 3 != 0 then Error(4)
        else if ChecksumBytes(ChecksumBits(|ws|)) > 32 || !ChecksumOk(sha, ws) then Error(5)
        else Success(Unpacked(ws)[..EntropyBytes(|ws|)])
  }

  method MnemonicEncode(sha: Sha, pwl: string, vEntropy: seq<byte>) returns (r: Result<string>)
    requires |sha(vEntropy)| == 32 && (|vEntropy| / 4 > 256 || Readable(|vEntropy|))
    ensures r == Encoded(sha, pwl, vEntropy)
  {
    hide Phrase, WordsOf, Listed, Line;
    var nCsSize := |vEntropy| / 4;
    if nCsSize < 1 || nCsSize > 256 {
      return Error(2);
    }
    var vWord := EntropyWords(sha, vEntropy);
    var sWordList := "";
    NoPhrase(pwl);
    for k := 0 to |vWord|
      invariant Listed(pwl, vWord[..k]).Some? && sWordList == Phrase(Listed(pwl, vWord[..k]).value)
    {
      ListedNext(pwl, vWord, k);
      var err, sWord := GetWord(vWord[k], pwl);
      if err != 0 {
        return Error(3);
      }
      PhraseGrows(Listed(pwl, vWord[..k]).value, sWord);
      if sWordList != "" {
        sWordList := sWordList + " ";
      }
      sWordList := sWordList + sWord;
    }
    assert vWord[..|vWord|] == vWord;
    r := Success(sWordList);
  }

  lemma NoPhrase(pwl: string)
    ensures Listed(pwl, []) == Some([]) && Phrase([]) == ""
  {
  }

  lemma {:induction false} ListedNext(pwl: string, ws: seq<nat>, k: nat)
    requires k < |ws| && Listed(pwl, ws[..k]).Some?
    ensures Line(pwl, ws[k]).Some? ==> Listed(pwl, ws[..k + 1]) == Some(Listed(pwl, ws[..k]).value + [Line(pwl, ws[k]).value])
    ensures Line(pwl, ws[k]) == None ==> Listed(pwl, ws) == None
  {
    assert ws[..k + 1][..k] == ws[..k];
    if Line(pwl, ws[k]) == None {
      ListedFails(pwl, ws, k);
    }
  }

  /** A number that is not in the list fails the whole phrase. */
  lemma {:induction false} ListedFails(pwl: string, ws: seq<nat>, k: nat)
    requires k < |ws| && Line(pwl, ws[k]) == None
    ensures Listed(pwl, ws) == None
  {
    if k < |ws| - 1 {
      ListedFails(pwl, ws[..|ws| - 1], k);
    }
  }

  lemma PhraseGrows(ps: seq<string>, p: string)
    ensures Phrase(ps + [p]) == (if Phrase(ps) != "" then Phrase(ps) + " " else "") + p
  {
    assert (ps + [p])[..|ps|] == ps;
  }

  /** The tokens of a phrase by their numbers, as far as they are in the list. */
  method ReadWords(pwl: string, s: string) returns (ok: bool, vWordInts: seq<nat>)
    requires IsWordList(pwl)
    ensures ok <==> Numbers(pwl, Tokens(s)).Some?
    ensures ok ==> vWordInts == Numbers(pwl, Tokens(s)).value && 3 * |vWordInts| <= |s| + 1
  {
    hide IsWordList, Numbers, Tokens, Offset, Line;
    vWordInts := [];
    var pos := 0;
    ghost var done: seq<string> := [];
    assert s[0..] == s;
    Starts(pwl, Tokens(s));
    while true
      invariant pos <= |s| && Tokens(s) == done + Tokens(s[pos..]) && Numbers(pwl, done) == Some(vWordInts)
      invariant 3 * |vWordInts| <= pos + 1 && (vWordInts == [] ==> pos == 0) && (vWordInts != [] && pos < |s| ==> s[pos] == ' ')
      decreases |s| - pos
    {
      var found, p, next := NextToken(s, pos);
      if !found {
        assert Tokens(s) == done;
        return true, vWordInts;
      }
      var err, o := GetWordOffset(p, pwl);
      assert Tokens(s) == (done + [p]) + Tokens(s[next..]);
      NextNumber(pwl, done, p);
      if err != 0 {
        NumbersFail(pwl, done + [p], Tokens(s[next..]));
        return false, [];
      }
      LongEnough(pwl, p);
      vWordInts := vWordInts + [o];
      done := done + [p];
      pos := next;
    }
  }

  lemma Starts(pwl: string, ts: seq<string>)
    ensures Numbers(pwl, []) == Some([]) && [] + ts == ts
  {
  }

  lemma NextNumber(pwl: string, done: seq<string>, p: string)
    ensures Numbers(pwl, done + [p]) ==
            if Numbers(pwl, done).Some? && Offset(pwl, p).Some? then Some(Numbers(pwl, done).value + [Offset(pwl, p).value]) else None
  {
    assert (done + [p])[..|done|] == done;
  }

  lemma LongEnough(pwl: string, p: string)
    requires IsWordList(pwl) && Offset(pwl, p).Some?
    ensures |p| >= 2
  {
    WordAtOffset(pwl, p);
  }

  lemma SizesFit(w: nat)
    requires 3 * w <= 2048
    ensures ChecksumBytes(ChecksumBits(w)) <= 32
    ensures EntropyBytes(w) + ChecksumBytes(ChecksumBits(w)) <= BytesFor(w)
  {
  }

  /** Part the bytes into entropy and checksum, and check the one by the other. */
  method Check(sha: Sha, vUnpacked: seq<byte>, ghost ws: seq<nat>, nBits: nat) returns (ok: bool, vEntropy: seq<byte>)
    requires ShaOk(sha) && vUnpacked == Unpacked(ws) && nBits == 11 * |ws| && 3 * |ws| <= 2048
    ensures ChecksumBytes(ChecksumBits(|ws|)) <= 32 && (ok <==> ChecksumOk(sha, ws))
    ensures vEntropy == Unpacked(ws)[..EntropyBytes(|ws|)]
  {
    hide Unpacked, Power;
    SizesFit(|ws|);
    var nLenChecksum := nBits / 32;
    var nLenEntropy := nBits - nLenChecksum;
    var nBytesEntropy := nLenEntropy / 8;
    var nBytesChecksum := nLenChecksum / 8 + if nLenChecksum % 8 == 0 then 0 else 1;
    assert nBytesChecksum == ChecksumBytes(nLenChecksum);
    var vCS := vUnpacked[nBytesEntropy..nBytesEntropy + nBytesChecksum];
    vEntropy := vUnpacked[..nBytesEntropy];
    var hash := sha(vEntropy);
    var vCSTest := ClearRest(hash[..nBytesChecksum], hash, nLenChecksum);
    ok := vCSTest == vCS;
  }

  method ClearRest(v: seq<byte>, ghost hash: seq<byte>, nLenChecksum: nat) returns (vCSTest: seq<byte>)
    requires |v| == ChecksumBytes(nLenChecksum) <= |hash| && v == hash[..|v|]
    ensures vCSTest == Masked(hash, nLenChecksum)
  {
    hide Power;
    vCSTest := v;
    var r := nLenChecksum % 8;
    MaskedValue(hash, nLenChecksum);
    if r > 0 {
      var n := |v|;
      assert Masked(hash, nLenChecksum)[n - 1] < 256;
      vCSTest := vCSTest[n - 1 := vCSTest[n - 1] / Power(2, 8 - r) * Power(2, 8 - r)];
    }
  }

  method MnemonicDecode(sha: Sha, pwl: string, sWordList: string, fIgnoreChecksum: bool) returns (r: Result<seq<byte>>)
    requires ShaOk(sha) && IsWordList(pwl)
    ensures r == Decoded(sha, pwl, sWordList, fIgnoreChecksum)
  {
    hide IsWordList, Tokens, Numbers, Value, Power, ChecksumOk, ChecksumBytes, ChecksumBits, EntropyBytes, BytesFor, Unpacked;
    if |sWordList| >= 2048 {
      return Error(2);
    }
    var ok, vWordInts := ReadWords(pwl, sWordList);
    if !ok {
      return Error(3);
    }
    if !fIgnoreChecksum && |vWordInts| % 3 != 0 {
      return Error(4);
    }
    NumbersAreDigits(pwl, Tokens(sWordList));
    var vEntropy := PackWords(vWordInts);
    PackedIsUnpacked(vEntropy, vWordInts);
    if fIgnoreChecksum {
      return Success(vEntropy);
    }
    ok, vEntropy := Check(sha, vEntropy, vWordInts, |vWordInts| * 11);
    r := if ok then Success(vEntropy) else Error(5);
  }

  lemma PackedIsUnpacked(v: seq<byte>, ws: seq<nat>)
    requires |v| == BytesFor(|ws|) && Value(256, v) == Value(2048, ws) * Power(2, 8 * |v| - 11 * |ws|)
    ensures v == Unpacked(ws)
  {
    hide Power, Value, BytesFor, FixedDigits;
    FixedDigitsOfValue(256, v);
  }

  // ----- the round trip

  lemma WordsJoin(ps: seq<string>)
    requires forall i | 0 <= i < |ps| :: IsWord(ps[i])
    ensures Phrase(ps) == Joined(ps)
  {
    forall i | 0 <= i < |ps| ensures ps[i] != "" {
      assert IsWord(ps[i]);
    }
    PhraseIsJoined(ps);
  }

  /** A phrase that is short enough to read decodes to the entropy it was made from just when
      there are fewer than 128 bytes of it. */
  lemma RoundTrip(sha: Sha, pwl: string, e: seq<byte>)
    requires ShaOk(sha) && IsWordList(pwl) && |e| % 4 == 0 && 1 <= |e| / 4 <= 256
    ensures Readable(|e|) && Encoded(sha, pwl, e).Success?
    ensures |Encoded(sha, pwl, e).value| < 2048 ==>
              (Decoded(sha, pwl, Encoded(sha, pwl, e).value, false) == Success(e) <==> |e| < 128)
  {
    hide IsWordList, Tokens, Numbers, Listed, Joined, Phrase, WordsOf, Unpacked, ChecksumOk, IsWord;
    WordsOfGroups(sha, e);
    var ws := WordsOf(sha, e);
    NumbersOfListed(pwl, ws);
    var ps := Listed(pwl, ws).value;
    PhraseTokens(ps);
    WordsJoin(ps);
    if |e| < 128 {
      DecodesWords(sha, e);
    } else {
      LongPhrasesLoseBytes(|e| / 4);
    }
  }

  /** The entropy of an accepted phrase of 3 to 93 words encodes to the same words. */
  lemma EncodesAgain(sha: Sha, pwl: string, s: string)
    requires ShaOk(sha) && IsWordList(pwl) && 1 <= |Tokens(s)| <= 93
    ensures var r := Decoded(sha, pwl, s, false); r.Success? ==> Readable(|r.value|) && Encoded(sha, pwl, r.value) == Success(Joined(Tokens(s)))
  {
    hide IsWordList, Tokens, Numbers, Listed, Joined, Phrase, WordsOf, Unpacked, ChecksumOk, IsWord;
    if Decoded(sha, pwl, s, false).Success? {
      var ws := Numbers(pwl, Tokens(s)).value;
      NumbersAreDigits(pwl, Tokens(s));
      NumbersOfListed(pwl, ws);
      WordsJoin(Tokens(s));
      EncodesBack(sha, ws);
    }
  }

  // ----- which error

  /** The word is a line of the list. */
  ghost predicate InList(pwl: string, p: string) {
    exists o: nat :: Line(pwl, o) == Some(p)
  }

  lemma {:induction false} NumbersMiss(pwl: string, ps: seq<string>)
    ensures Numbers(pwl, ps).Some? <==> forall p | p in ps :: InList(pwl, p)
    ensures Numbers(pwl, ps).Some? ==> |Numbers(pwl, ps).value| == |ps|
  {
    if ps != [] {
      var k := |ps| - 1;
      NumbersMiss(pwl, ps[..k]);
      OffsetIsLine(pwl, ps[k]);
      assert forall p :: p in ps <==> p in ps[..k] || p == ps[k];
      assert Offset(pwl, ps[k]).Some? <==> InList(pwl, ps[k]);
    }
  }

  /** A phrase fails for its length, for a word that is no line of the list, for a number of words
      that is not a multiple of three, and else only for its checksum. */
  lemma DecodeErrors(sha: Sha, pwl: string, s: string, fIgnoreChecksum: bool)
    requires ShaOk(sha)
    ensures var r := Decoded(sha, pwl, s, fIgnoreChecksum);
            var known := forall p | p in Tokens(s) :: InList(pwl, p);
            && (r == Error(2) <==> |s| >= 2048)
            && (r == Error(3) <==> |s| < 2048 && !known)
            && (r == Error(4) <==> |s| < 2048 && known && !fIgnoreChecksum && |Tokens(s)| % 3 != 0)
            && (|s| < 2048 && known && fIgnoreChecksum ==> r.Success?)
            && (r.Success? || r.code in {2, 3, 4, 5})
  {
    hide Tokens, InList, Numbers, ChecksumOk, Unpacked;
    NumbersMiss(pwl, Tokens(s));
  }
}
