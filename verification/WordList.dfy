/** Word lists as the text they are kept in, one word a line, and phrases of words. */
module WordList {

  datatype Option<T> = None | Some(value: T)

  /** Where the first line ends; the length of the text when no line does. */
  function LineEnd(t: string): (k: nat)
    ensures k <= |t| && (k < |t| ==> t[k] == '\n') && forall i | 0 <= i < k :: t[i] != '\n'
  {
    if t == [] || t[0] == '\n' then 0 else 1 + LineEnd(t[1..])
  }

  /** Line `o` of the text, without its end; a line without an end does not count. */
  function Line(t: string, o: nat): Option<string>
    decreases |t|
  {
    var k := LineEnd(t);
    if k == |t| then None else if o == 0 then Some(t[..k]) else Line(t[k + 1..], o - 1)
  }

  /** The number of the first line that is `p`. */
  function Offset(t: string, p: string): Option<nat>
    decreases |t|
  {
    var k := LineEnd(t);
    if k == |t| then None
    else if t[..k] == p then Some(0)
    else match Offset(t[k + 1..], p)
      case None => None
      case Some(o) => Some(o + 1)
  }

  lemma {:induction false} OffsetIsLine(t: string, p: string)
    ensures Offset(t, p).Some? ==> Line(t, Offset(t, p).value) == Some(p)
    ensures forall o: nat | Line(t, o) == Some(p) :: Offset(t, p).Some? && Offset(t, p).value <= o
    decreases |t|
  {
    var k := LineEnd(t);
    if k < |t| {
      OffsetIsLine(t[k + 1..], p);
      forall o: nat | Line(t, o) == Some(p) ensures Offset(t, p).Some? && Offset(t, p).value <= o {
        assert o > 0 ==> Line(t[k + 1..], o - 1) == Some(p);
      }
    }
  }

  function Newlines(t: string): nat {
    if t == [] then 0 else (if t[0] == '\n' then 1 else 0) + Newlines(t[1..])
  }

  /** Line `o` is what stands in the text between newline number `o` and the next. */
  lemma {:induction false} LineStands(t: string, o: nat) returns (a: string, b: string)
    requires Line(t, o).Some?
    ensures t == a + Line(t, o).value + "\n" + b && Newlines(a) == o && '\n' !in Line(t, o).value
    ensures a == "" || a[|a| - 1] == '\n'
    decreases |t|
  {
    hide Newlines, LineEnd;
    var k := LineEnd(t);
    var rest := t[k + 1..];
    if o == 0 {
      a, b := "", rest;
      NoNewlines();
      assert "" + t[..k] == t[..k] && t == t[..k] + "\n" + rest;
    } else {
      var a', p := "", Line(rest, o - 1).value;
      a', b := LineStands(rest, o - 1);
      a := t[..k + 1] + a';
      NewlinesUpTo(t, k, a');
      Glue(t, k + 1, a', p, b);
    }
  }

  lemma Glue(t: string, k: nat, a: string, p: string, b: string)
    requires k <= |t| && t[k..] == a + p + "\n" + b
    ensures t == t[..k] + a + p + "\n" + b
  {
    assert t == t[..k] + t[k..];
    assert t[..k] + (a + p + "\n" + b) == t[..k] + a + p + "\n" + b;
  }

  lemma NoNewlines()
    ensures Newlines("") == 0
  {
  }

  lemma {:induction false} NewlinesUpTo(t: string, k: nat, a: string)
    requires k < |t| && t[k] == '\n' && forall i | 0 <= i < k :: t[i] != '\n'
    ensures Newlines(t[..k + 1] + a) == 1 + Newlines(a)
  {
    assert (t[..k + 1] + a)[1..] == t[1..][..k] + a;
    if k > 0 {
      NewlinesUpTo(t[1..], k - 1, a);
    } else {
      assert (t[..1] + a)[1..] == a;
    }
  }

  /** A word can stand in a phrase. */
  predicate IsWord(p: string) {
    |p| >= 2 && forall i | 0 <= i < |p| :: p[i] != ' '
  }

  /** A list of 2048 different words. */
  ghost predicate IsWordList(t: string) {
    && (forall o: nat :: Line(t, o).Some? <==> o < 2048)
    && (forall o: nat | o < 2048 :: IsWord(Line(t, o).value))
    && (forall i: nat, j: nat | i < j < 2048 :: Line(t, i) != Line(t, j))
  }

  lemma OffsetOfWord(t: string, o: nat)
    requires IsWordList(t) && o < 2048
    ensures Offset(t, Line(t, o).value) == Some(o)
  {
    var p := Line(t, o).value;
    OffsetIsLine(t, p);
    var q := Offset(t, p).value;
    assert Line(t, q) == Line(t, o);
  }

  lemma WordAtOffset(t: string, p: string)
    requires IsWordList(t) && Offset(t, p).Some?
    ensures Offset(t, p).value < 2048 && Line(t, Offset(t, p).value) == Some(p)
  {
    OffsetIsLine(t, p);
  }

  // ----- the scanners

  lemma LinePassed(t: string, k: nat, o: nat)
    requires k < |t|
    ensures t[k] == '\n' && LineEnd(t) == k && o > 0 ==> Line(t, o) == Line(t[k + 1..], o - 1)
  {
  }

  /** The first loop of GetWord: to the start of line `nWord`; `err` when the text ends before. */
  method PassLines(nWord: nat, pwl: string) returns (err: nat, pt: nat)
    ensures err == 0 ==> pt <= |pwl| && Line(pwl, nWord) == Line(pwl[pt..], 0)
    ensures err != 0 ==> Line(pwl, nWord) == None
  {
    hide LineEnd, Line;
    var o := nWord;
    err, pt := 0, 0;
    ghost var line := 0;
    assert pwl[0..] == pwl;
    while o > 0
      invariant line <= pt <= |pwl| && (o == 0 ==> line == pt)
      invariant Line(pwl, nWord) == Line(pwl[line..], o)
      invariant forall i | line <= i < pt :: pwl[i] != '\n'
      decreases |pwl| - pt
    {
      if pt >= |pwl| {
        NoEnd(pwl, line);
        return 1, pt;
      }
      if pwl[pt] == '\n' {
        EndFound(pwl, line, pt);
        LinePassed(pwl[line..], pt - line, o);
        assert pwl[line..][pt - line + 1..] == pwl[pt + 1..];
        o := o - 1;
        line := pt + 1;
      }
      pt := pt + 1;
    }
  }

  method GetWord(nWord: nat, pwl: string) returns (err: nat, sWord: string)
    ensures err == 0 <==> Line(pwl, nWord).Some?
    ensures err == 0 ==> sWord == Line(pwl, nWord).value
  {
    hide LineEnd;
    sWord := "";
    var pt;
    err, pt := PassLines(nWord, pwl);
    if err != 0 {
      return;
    }
    ghost var line := pt;
    while pt < |pwl|
      invariant line <= pt <= |pwl| && Line(pwl, nWord) == Line(pwl[line..], 0)
      invariant forall i | line <= i < pt :: pwl[i] != '\n'
      invariant sWord == pwl[line..pt]
    {
      if pwl[pt] == '\n' {
        EndFound(pwl, line, pt);
        assert pwl[line..][..pt - line] == sWord;
        return 0, sWord;
      }
      sWord := sWord + [pwl[pt]];
      pt := pt + 1;
    }
    NoEnd(pwl, line);
    err := 1;
  }

  lemma EndFound(t: string, line: nat, pt: nat)
    requires line <= pt < |t| && t[pt] == '\n' && forall i | line <= i < pt :: t[i] != '\n'
    ensures LineEnd(t[line..]) == pt - line
  {
    assert t[line..][pt - line] == '\n';
  }

  lemma NoEnd(t: string, line: nat)
    requires line <= |t| && forall i | line <= i < |t| :: t[i] != '\n'
    ensures LineEnd(t[line..]) == |t| - line && (forall o :: Line(t[line..], o) == None) && forall p :: Offset(t[line..], p) == None
  {
  }

  function Later(r: Option<nat>, n: nat): Option<nat> {
    match r
    case None => None
    case Some(o) => Some(o + n)
  }

  lemma OffsetPassed(t: string, line: nat, pt: nat, p: string, n: nat)
    requires line <= pt < |t| && LineEnd(t[line..]) == pt - line && t[line..pt] != p
    ensures Later(Offset(t[line..], p), n) == Later(Offset(t[pt + 1..], p), n + 1)
  {
    hide Offset, LineEnd;
    assert t[line..][..pt - line] == t[line..pt];
    assert t[line..][pt - line + 1..] == t[pt + 1..];
    OffsetNext(t[line..], p);
  }

  lemma OffsetNext(t: string, p: string)
    requires var k := LineEnd(t); k < |t| && t[..k] != p
    ensures Offset(t, p) == Later(Offset(t[LineEnd(t) + 1..], p), 1)
  {
    hide LineEnd;
  }

  method GetWordOffset(p: string, pwl: string) returns (err: nat, o: nat)
    ensures err == 0 <==> Offset(pwl, p).Some?
    ensures err == 0 ==> o == Offset(pwl, p).value
  {
    hide Offset, LineEnd;
    var l := |p|;
    var pt, i, c, f := 0, 0, 0, true;
    ghost var line := 0;
    o := 0;
    assert pwl[0..] == pwl;
    while pt < |pwl|
      invariant line <= pt <= |pwl| && c == pt - line
      invariant forall k | line <= k < pt :: pwl[k] != '\n'
      invariant f <==> c <= l && pwl[line..pt] == p[..c]
      invariant Offset(pwl, p) == Later(Offset(pwl[line..], p), i)
    {
      if pwl[pt] == '\n' {
        EndFound(pwl, line, pt);
        if f && c == l {
          assert p[..c] == p;
          FoundHere(pwl, line, pt, p);
          return 0, i;
        }
        OffsetPassed(pwl, line, pt, p, i);
        i := i + 1;
        c := 0;
        f := true;
        line := pt + 1;
      } else {
        assert c < l ==> p[..c + 1] == p[..c] + [p[c]];
        assert pwl[line..pt + 1] == pwl[line..pt] + [pwl[pt]];
        if c >= l {
          f := false;
        } else if f && p[c] != pwl[pt] {
          f := false;
        }
        c := c + 1;
      }
      pt := pt + 1;
    }
    NoEnd(pwl, line);
    err := 1;
  }

  lemma FoundHere(t: string, line: nat, pt: nat, p: string)
    requires line <= pt < |t| && LineEnd(t[line..]) == pt - line && t[line..pt] == p
    ensures Offset(t[line..], p) == Some(0)
  {
    assert t[line..][..pt - line] == p;
  }

  // ----- phrases

  /** The words with single spaces between. */
  function Joined(ws: seq<string>): string {
    if ws == [] then "" else if |ws| == 1 then ws[0] else Joined(ws[..|ws| - 1]) + " " + ws[|ws| - 1]
  }

  function SpaceCount(s: string): (k: nat)
    ensures k <= |s| && (k < |s| ==> s[k] != ' ') && forall i | 0 <= i < k :: s[i] == ' '
  {
    if s == [] || s[0] != ' ' then 0 else 1 + SpaceCount(s[1..])
  }

  function TokenLength(s: string): (k: nat)
    ensures k <= |s| && (k < |s| ==> s[k] == ' ') && forall i | 0 <= i < k :: s[i] != ' '
  {
    if s == [] || s[0] == ' ' then 0 else 1 + TokenLength(s[1..])
  }

  /** The runs between spaces. */
  function Tokens(s: string): seq<string>
    decreases |s|
  {
    var t := s[SpaceCount(s)..];
    var k := TokenLength(t);
    if k == 0 then [] else [t[..k]] + Tokens(t[k..])
  }

  lemma TokenAt(s: string, pos: nat, a: nat, next: nat)
    requires pos <= a <= next <= |s|
    requires a == pos + SpaceCount(s[pos..]) && next == a + TokenLength(s[a..])
    ensures Tokens(s[pos..]) == if a == |s| then [] else [s[a..next]] + Tokens(s[next..])
    ensures a < |s| ==> a < next
  {
    hide *;
    TokensOf(s[pos..]);
    Pieces(s, pos, a, next);
  }

  lemma Pieces(s: string, pos: nat, a: nat, next: nat)
    requires pos <= a <= next <= |s|
    ensures s[pos..][a - pos..] == s[a..] && s[a..][..next - a] == s[a..next] && s[a..][next - a..] == s[next..]
  {
  }

  method PassSpaces(s: string, pos: nat) returns (a: nat)
    requires pos <= |s|
    ensures a == pos + SpaceCount(s[pos..]) <= |s| && (pos < |s| && s[pos] == ' ' ==> pos < a)
  {
    a := pos;
    ghost var u := s[pos..];
    while a < |s| && s[a] == ' '
      invariant pos <= a <= |s| && forall i | 0 <= i < a - pos :: u[i] == ' '
    {
      a := a + 1;
    }
    assert a < |s| ==> u[a - pos] != ' ';
  }

  method PassToken(s: string, pos: nat) returns (a: nat)
    requires pos <= |s|
    ensures a == pos + TokenLength(s[pos..]) <= |s| && (a < |s| ==> s[a] == ' ')
  {
    a := pos;
    ghost var u := s[pos..];
    while a < |s| && s[a] != ' '
      invariant pos <= a <= |s| && forall i | 0 <= i < a - pos :: u[i] != ' '
    {
      a := a + 1;
    }
    assert a < |s| ==> u[a - pos] == ' ';
  }

  /** strtok: the next token from place `pos` on, and the place after it. */
  method NextToken(s: string, pos: nat) returns (found: bool, p: string, next: nat)
    requires pos <= |s|
    ensures found <==> Tokens(s[pos..]) != []
    ensures found ==> pos < next <= |s| && Tokens(s[pos..]) == [p] + Tokens(s[next..])
    ensures found ==> pos + |p| <= next && (s[pos] == ' ' ==> pos + |p| < next) && (next < |s| ==> s[next] == ' ')
  {
    hide *;
    var a := PassSpaces(s, pos);
    next := PassToken(s, a);
    TokenAt(s, pos, a, next);
    if a == |s| {
      return false, "", a;
    }
    found, p := true, s[a..next];
  }

  lemma TokensOf(s: string)
    ensures var t := s[SpaceCount(s)..];
            Tokens(s) == if t == [] then [] else [t[..TokenLength(t)]] + Tokens(t[TokenLength(t)..])
  {
  }

  /** Putting words in front of a phrase puts them in front of its tokens. */
  lemma {:induction false} TokensOfJoined(ws: seq<string>, rest: string)
    requires forall i | 0 <= i < |ws| :: IsWord(ws[i])
    requires ws == [] || rest == "" || rest[0] == ' '
    ensures Tokens(Joined(ws) + rest) == ws + Tokens(rest)
  {
    hide Tokens, Joined, IsWord;
    if ws == [] {
      NothingJoined(rest);
    } else {
      var k := |ws| - 1;
      var w := ws[k];
      var lead := if k == 0 then "" else " ";
      var after := lead + w + rest;
      OneToken(lead, w, rest);
      TokensOfJoined(ws[..k], after);
      LastJoined(ws, rest);
      Reassociate(ws[..k], w, Tokens(rest));
      assert ws == ws[..k] + [w];
    }
  }

  lemma NothingJoined(rest: string)
    ensures Joined([]) + rest == rest
  {
  }

  lemma Reassociate<T>(a: seq<T>, x: T, b: seq<T>)
    ensures a + ([x] + b) == (a + [x]) + b
  {
  }

  lemma LastJoined(ws: seq<string>, rest: string)
    requires ws != []
    ensures var k := |ws| - 1; var lead := if k == 0 then "" else " ";
            Joined(ws) + rest == Joined(ws[..k]) + (lead + ws[k] + rest)
  {
    hide Joined;
    var k := |ws| - 1;
    JoinedOf(ws);
    if k == 0 {
      RegroupFour("", "", ws[0], rest);
      assert "" + "" + ws[0] == ws[0];
    } else {
      RegroupFour(Joined(ws[..k]), " ", ws[k], rest);
    }
  }

  lemma JoinedOf(ws: seq<string>)
    requires ws != []
    ensures var k := |ws| - 1; Joined(ws) == if k == 0 then ws[0] else Joined(ws[..k]) + " " + ws[k]
    ensures |ws| == 1 ==> Joined(ws[..0]) == ""
  {
  }

  lemma RegroupFour(a: string, b: string, c: string, d: string)
    ensures ((a + b) + c) + d == a + ((b + c) + d)
  {
  }

  lemma OneToken(lead: string, w: string, rest: string)
    requires (lead == "" || lead == " ") && IsWord(w) && (rest == "" || rest[0] == ' ')
    ensures Tokens(lead + w + rest) == [w] + Tokens(rest)
  {
    var s := lead + w + rest;
    var k := |lead|;
    assert s[k] == w[0];
    assert SpaceCount(s) == k;
    var t := s[k..];
    assert t == w + rest;
    assert |w| < |t| ==> t[|w|] == ' ';
    assert TokenLength(t) == |w|;
    assert t[..|w|] == w && t[|w|..] == rest;
  }

  lemma PhraseTokens(ws: seq<string>)
    requires forall i | 0 <= i < |ws| :: IsWord(ws[i])
    ensures Tokens(Joined(ws)) == ws
  {
    TokensOfJoined(ws, "");
    assert Joined(ws) + "" == Joined(ws);
    TokensOf("");
  }
}
