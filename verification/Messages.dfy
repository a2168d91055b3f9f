/** The framing of the network protocol: what a stream of bytes holds, and what absorbing it one
    byte at a time gives. */
module Messages {
  import opened Radix

  const HEADER_SIZE: nat := 24
  const MAX_SIZE: nat := 0x0200_0000

  /** What has arrived of a message. */
  datatype Message = Message(hdr: seq<byte>, data: seq<byte>)

  /** The length field of a header, the least significant byte first. */
  function SizeOf(hdr: seq<byte>): nat
    requires |hdr| == HEADER_SIZE
  {
    Value(256, [hdr[19], hdr[18], hdr[17], hdr[16]])
  }

  predicate Complete(m: Message) {
    |m.hdr| == HEADER_SIZE && |m.data| == SizeOf(m.hdr)
  }

  /** What an acceptable message can look like while it arrives. */
  predicate Acceptable(m: Message) {
    if |m.hdr| < HEADER_SIZE then m.data == []
    else |m.hdr| == HEADER_SIZE && SizeOf(m.hdr) <= MAX_SIZE && |m.data| <= SizeOf(m.hdr)
  }

  datatype Queue = Rejected | Queue(ms: seq<Message>)

  /** A queue as it can be: all acceptable, all but the last complete. */
  ghost predicate QueueOk(ms: seq<Message>) {
    forall i | 0 <= i < |ms| :: Acceptable(ms[i]) && (i < |ms| - 1 ==> Complete(ms[i]))
  }

  /** The next byte goes to the last message, or starts one if that is complete. */
  predicate Between(ms: seq<Message>) {
    ms == [] || Complete(ms[|ms| - 1])
  }

  function Opened(ms: seq<Message>): seq<Message> {
    if Between(ms) then ms + [Message([], [])] else ms
  }

  /** Give a byte to the last message. */
  function Give(ms: seq<Message>, b: byte): Queue
    requires ms != []
  {
    var k := |ms| - 1;
    var m := ms[k];
    if |m.hdr| < HEADER_SIZE then
      var hdr := m.hdr + [b];
      if |hdr| == HEADER_SIZE && SizeOf(hdr) > MAX_SIZE then Rejected else Queue(ms[..k] + [m.(hdr := hdr)])
    else Queue(ms[..k] + [m.(data := m.data + [b])])
  }

  function Absorb(ms: seq<Message>, b: byte): Queue {
    Give(Opened(ms), b)
  }

  function AbsorbAll(ms: seq<Message>, s: seq<byte>): Queue
    decreases |s|
  {
    if s == [] then Queue(ms)
    else match Absorb(ms, s[0])
      case Rejected => Rejected
      case Queue(ns) => AbsorbAll(ns, s[1..])
  }

  /** The messages in a stream, read from its front: each header with as much of its data as
      there is; a header that announces too much rejects the stream. */
  function Parse(s: seq<byte>): Queue
    decreases |s|
  {
    if s == [] then Queue([])
    else if |s| < HEADER_SIZE then Queue([Message(s, [])])
    else
      var n := SizeOf(s[..HEADER_SIZE]);
      if n > MAX_SIZE then Rejected
      else if |s| - HEADER_SIZE <= n then Queue([Message(s[..HEADER_SIZE], s[HEADER_SIZE..])])
      else match Parse(s[HEADER_SIZE + n..])
        case Rejected => Rejected
        case Queue(ms) => Queue([Message(s[..HEADER_SIZE], s[HEADER_SIZE..HEADER_SIZE + n])] + ms)
  }

  // ----- absorbing in pieces

  lemma {:induction false} AbsorbAllAppend(ms: seq<Message>, a: seq<byte>, b: seq<byte>)
    ensures AbsorbAll(ms, a + b) == match AbsorbAll(ms, a) case Rejected => Rejected case Queue(ns) => AbsorbAll(ns, b)
    decreases |a|
  {
    hide Absorb;
    if a == [] {
      assert a + b == b;
    } else {
      assert (a + b)[0] == a[0] && (a + b)[1..] == a[1..] + b;
      match Absorb(ms, a[0])
      case Rejected =>
      case Queue(ns) => AbsorbAllAppend(ns, a[1..], b);
    }
  }

  /** Absorbing the bytes that fit in the header of the last message. */
  lemma {:induction false} AbsorbHeader(front: seq<Message>, hdr: seq<byte>, s: seq<byte>)
    requires |hdr| < HEADER_SIZE && |hdr| + |s| <= HEADER_SIZE
    ensures AbsorbAll(front + [Message(hdr, [])], s) ==
            if |hdr| + |s| == HEADER_SIZE && SizeOf(hdr + s) > MAX_SIZE then Rejected else Queue(front + [Message(hdr + s, [])])
    decreases |s|
  {
    hide SizeOf, AbsorbAll, Absorb;
    var ms := front + [Message(hdr, [])];
    AbsorbAllStep(ms, s);
    if s == [] {
      assert hdr + s == hdr;
    } else {
      AbsorbIntoHeader(front, hdr, s[0]);
      if |hdr| + 1 < HEADER_SIZE {
        AbsorbHeader(front, hdr + [s[0]], s[1..]);
        assert hdr + [s[0]] + s[1..] == hdr + s;
      } else {
        assert s == [s[0]];
        AbsorbAllStep(front + [Message(hdr + s, [])], []);
      }
    }
  }

  lemma AbsorbAllStep(ms: seq<Message>, s: seq<byte>)
    ensures AbsorbAll(ms, s) == if s == [] then Queue(ms) else match Absorb(ms, s[0]) case Rejected => Rejected case Queue(ns) => AbsorbAll(ns, s[1..])
  {
    hide Absorb;
  }

  lemma AbsorbIntoHeader(front: seq<Message>, hdr: seq<byte>, b: byte)
    requires |hdr| < HEADER_SIZE
    ensures Absorb(front + [Message(hdr, [])], b) ==
            if |hdr| + 1 == HEADER_SIZE && SizeOf(hdr + [b]) > MAX_SIZE then Rejected else Queue(front + [Message(hdr + [b], [])])
  {
    hide SizeOf;
    var ms := front + [Message(hdr, [])];
    assert ms[..|ms| - 1] == front && Opened(ms) == ms;
  }

  /** Absorbing bytes that are still due to the last message. */
  lemma {:induction false} AbsorbData(front: seq<Message>, m: Message, s: seq<byte>)
    requires |m.hdr| == HEADER_SIZE && |m.data| + |s| <= SizeOf(m.hdr)
    ensures AbsorbAll(front + [m], s) == Queue(front + [m.(data := m.data + s)])
    decreases |s|
  {
    hide SizeOf;
    var ms := front + [m];
    if s == [] {
      assert m.data + s == m.data;
    } else {
      assert ms[..|ms| - 1] == front;
      assert Opened(ms) == ms;
      AbsorbData(front, m.(data := m.data + [s[0]]), s[1..]);
      assert m.data + [s[0]] + s[1..] == m.data + s;
    }
  }

  /** Starting a message is as good as having started it. */
  lemma AbsorbOpened(ms: seq<Message>, s: seq<byte>)
    requires s != []
    ensures AbsorbAll(Opened(ms), s) == AbsorbAll(ms, s)
  {
    assert Opened(Opened(ms)) == Opened(ms);
  }

  // ----- absorbing is parsing

  function After(front: seq<Message>, q: Queue): Queue {
    if q.Rejected? then Rejected else Queue(front + q.ms)
  }

  lemma {:induction false} AbsorbIsParse(front: seq<Message>, s: seq<byte>)
    requires Between(front)
    ensures AbsorbAll(front, s) == After(front, Parse(s))
    decreases |s|, 1
  {
    hide SizeOf;
    if s == [] {
      assert front + [] == front;
    } else {
      AbsorbOpened(front, s);
      if |s| < HEADER_SIZE {
        AbsorbHeader(front, [], s);
        assert [] + s == s;
      } else {
        HeaderThenData(front, s);
      }
    }
  }

  lemma HeaderThenData(front: seq<Message>, s: seq<byte>)
    requires Between(front) && |s| >= HEADER_SIZE
    ensures AbsorbAll(front + [Message([], [])], s) == After(front, Parse(s))
    decreases |s|, 0
  {
    hide SizeOf;
    var h := s[..HEADER_SIZE];
    assert s == h + s[HEADER_SIZE..] && [] + h == h;
    AbsorbAllAppend(front + [Message([], [])], h, s[HEADER_SIZE..]);
    AbsorbHeader(front, [], h);
    if SizeOf(h) <= MAX_SIZE {
      DataThenRest(front, h, s[HEADER_SIZE..], s);
    }
  }

  lemma ParseShort(h: seq<byte>, t: seq<byte>)
    requires |h| == HEADER_SIZE && |t| <= SizeOf(h) <= MAX_SIZE
    ensures Parse(h + t) == Queue([Message(h, t)])
  {
    hide SizeOf;
    assert (h + t)[..HEADER_SIZE] == h && (h + t)[HEADER_SIZE..] == t;
  }

  lemma ParseLong(h: seq<byte>, d: seq<byte>, rest: seq<byte>)
    requires |h| == HEADER_SIZE && |d| == SizeOf(h) <= MAX_SIZE && rest != []
    ensures Parse(h + (d + rest)) == After([Message(h, d)], Parse(rest))
  {
    hide SizeOf;
    var s := h + (d + rest);
    assert s[..HEADER_SIZE] == h && s[HEADER_SIZE + |d|..] == rest && s[HEADER_SIZE..HEADER_SIZE + |d|] == d;
  }

  lemma DataThenRest(front: seq<Message>, h: seq<byte>, t: seq<byte>, s: seq<byte>)
    requires Between(front) && |h| == HEADER_SIZE && SizeOf(h) <= MAX_SIZE && s == h + t
    ensures AbsorbAll(front + [Message(h, [])], t) == After(front, Parse(s))
    decreases |t|, 2
  {
    hide SizeOf, Parse, AbsorbAll;
    var n := SizeOf(h);
    if |t| <= n {
      AbsorbData(front, Message(h, []), t);
      assert [] + t == t;
      ParseShort(h, t);
    } else {
      var d, rest := t[..n], t[n..];
      var m := Message(h, d);
      AbsorbData(front, Message(h, []), d);
      assert [] + d == d && t == d + rest;
      AbsorbAllAppend(front + [Message(h, [])], d, rest);
      AbsorbIsParse(front + [m], rest);
      ParseLong(h, d, rest);
      AfterAfter(front, [m], Parse(rest));
    }
  }

  lemma AfterAfter(a: seq<Message>, b: seq<Message>, q: Queue)
    ensures After(a + b, q) == After(a, After(b, q))
  {
    if q.Queue? {
      assert a + b + q.ms == a + (b + q.ms);
    }
  }

  // ----- chunks

  function Flatten(chunks: seq<seq<byte>>): seq<byte> {
    if chunks == [] then [] else Flatten(chunks[..|chunks| - 1]) + chunks[|chunks| - 1]
  }

  /** Receiving chunk after chunk; the connection ends with the first that is rejected. */
  function Receive(ms: seq<Message>, chunks: seq<seq<byte>>): Queue {
    if chunks == [] then Queue(ms)
    else match Receive(ms, chunks[..|chunks| - 1])
      case Rejected => Rejected
      case Queue(ns) => AbsorbAll(ns, chunks[|chunks| - 1])
  }

  lemma {:induction false} ChunksAbsorb(ms: seq<Message>, chunks: seq<seq<byte>>)
    ensures Receive(ms, chunks) == AbsorbAll(ms, Flatten(chunks))
  {
    if chunks != [] {
      var k := |chunks| - 1;
      ChunksAbsorb(ms, chunks[..k]);
      AbsorbAllAppend(ms, Flatten(chunks[..k]), chunks[k]);
    }
  }

  /** However a stream is cut, the outcome is that of reading it as a whole. */
  lemma CuttingDoesNotMatter(chunks: seq<seq<byte>>)
    ensures Receive([], chunks) == Parse(Flatten(chunks))
  {
    ChunksAbsorb([], chunks);
    AbsorbIsParse([], Flatten(chunks));
    if Parse(Flatten(chunks)).Queue? {
      assert [] + Parse(Flatten(chunks)).ms == Parse(Flatten(chunks)).ms;
    }
  }

  /** The bytes of the messages, in order. */
  function BytesIn(ms: seq<Message>): seq<byte> {
    if ms == [] then [] else ms[0].hdr + ms[0].data + BytesIn(ms[1..])
  }

  /** Parsing loses no byte, and only the last message may be incomplete. */
  lemma {:induction false} ParseKeepsBytes(s: seq<byte>)
    requires Parse(s).Queue?
    ensures BytesIn(Parse(s).ms) == s && QueueOk(Parse(s).ms)
    decreases |s|
  {
    hide SizeOf;
    if s != [] {
      var ms := Parse(s).ms;
      if |s| < HEADER_SIZE || |s| - HEADER_SIZE <= SizeOf(s[..HEADER_SIZE]) {
        assert BytesIn(ms) == ms[0].hdr + ms[0].data + BytesIn([]);
      } else {
        var n := SizeOf(s[..HEADER_SIZE]);
        var rest := s[HEADER_SIZE + n..];
        ParseKeepsBytes(rest);
        assert ms[1..] == Parse(rest).ms;
        assert s == s[..HEADER_SIZE] + s[HEADER_SIZE..HEADER_SIZE + n] + rest;
      }
    }
  }

  /** The length field is in bytes 16 to 19, the least significant first. */
  lemma SizeIs(hdr: seq<byte>)
    requires |hdr| == HEADER_SIZE
    ensures SizeOf(hdr) == hdr[16] as int + 256 * hdr[17] as int + 65_536 * hdr[18] as int + 16_777_216 * hdr[19] as int
  {
    var a: nat, b: nat, c: nat, d: nat := hdr[19], hdr[18], hdr[17], hdr[16];
    hide Value;
    NextDigit([], a);
    NextDigit([a], b);
    NextDigit([a, b], c);
    NextDigit([a, b, c], d);
    assert [] + [a] == [a] && [a] + [b] == [a, b] && [a, b] + [c] == [a, b, c] && [a, b, c] + [d] == [a, b, c, d];
  }

  lemma NextDigit(s: seq<nat>, d: nat)
    ensures Value(256, s + [d]) == Value(256, s) * 256 + d && Value(256, []) == 0
  {
    assert (s + [d])[..|s|] == s;
  }

  /** Messages that are acceptable, all but the last complete, are what their bytes parse to. */
  lemma {:induction false} ParseOfBytes(ms: seq<Message>)
    requires QueueOk(ms) && (ms != [] ==> ms[|ms| - 1].hdr != [])
    ensures Parse(BytesIn(ms)) == Queue(ms)
  {
    hide SizeOf, Parse, BytesIn, Acceptable, Complete;
    if ms == [] {
      NoMessages();
    } else {
      var m, rest := ms[0], ms[1..];
      assert ms == [m] + rest;
      assert Acceptable(ms[0]) && (|ms| > 1 ==> Complete(ms[0]));
      if rest != [] {
        forall i | 0 <= i < |rest| ensures Acceptable(rest[i]) && (i < |rest| - 1 ==> Complete(rest[i])) {
          assert rest[i] == ms[i + 1];
        }
        ParseOfBytes(rest);
        SomeBytes(rest);
      }
      if rest != [] {
        CompleteHasBytes(m);
      }
      FirstParses(m, rest);
    }
  }

  lemma CompleteHasBytes(m: Message)
    requires Complete(m)
    ensures m.hdr != []
  {
  }

  lemma NoMessages()
    ensures BytesIn([]) == [] && Parse([]) == Queue([])
  {
  }

  lemma FirstParses(m: Message, rest: seq<Message>)
    requires Acceptable(m) && m.hdr != [] && (rest != [] ==> Complete(m) && BytesIn(rest) != [] && Parse(BytesIn(rest)) == Queue(rest))
    ensures Parse(BytesIn([m] + rest)) == Queue([m] + rest)
  {
    hide SizeOf, Parse, BytesIn;
    BytesInFirst(m, rest);
    if rest == [] {
      NoMessages();
      assert m.hdr + m.data + [] == m.hdr + m.data && [m] + rest == [m];
      if |m.hdr| == HEADER_SIZE {
        ParseShort(m.hdr, m.data);
      } else {
        assert m.hdr + m.data == m.hdr && m == Message(m.hdr, []);
        ParseHeader(m.hdr);
      }
    } else {
      ParseLong(m.hdr, m.data, BytesIn(rest));
      assert m.hdr + m.data + BytesIn(rest) == m.hdr + (m.data + BytesIn(rest));
    }
  }

  lemma BytesInFirst(m: Message, rest: seq<Message>)
    ensures BytesIn([m] + rest) == m.hdr + m.data + BytesIn(rest)
  {
    assert ([m] + rest)[1..] == rest;
  }

  lemma ParseHeader(hdr: seq<byte>)
    requires 0 < |hdr| < HEADER_SIZE
    ensures Parse(hdr) == Queue([Message(hdr, [])])
  {
  }

  lemma SomeBytes(ms: seq<Message>)
    requires QueueOk(ms) && ms != [] && ms[|ms| - 1].hdr != []
    ensures BytesIn(ms) != []
  {
    assert |ms| > 1 ==> Complete(ms[0]);
    assert ms[0].hdr != [];
  }

  /** A stream is accepted exactly when it is the bytes of such messages. */
  lemma AcceptedIff(s: seq<byte>)
    ensures Parse(s).Queue? <==> exists ms: seq<Message> :: QueueOk(ms) && (ms != [] ==> ms[|ms| - 1].hdr != []) && BytesIn(ms) == s
  {
    if Parse(s).Queue? {
      ParseKeepsBytes(s);
      LastHasBytes(s);
    }
    forall ms: seq<Message> | QueueOk(ms) && (ms != [] ==> ms[|ms| - 1].hdr != []) && BytesIn(ms) == s ensures Parse(s).Queue? {
      ParseOfBytes(ms);
    }
  }

  lemma {:induction false} LastHasBytes(s: seq<byte>)
    requires Parse(s).Queue?
    ensures var ms := Parse(s).ms; ms != [] ==> ms[|ms| - 1].hdr != []
    decreases |s|
  {
    hide SizeOf;
    if |s| >= HEADER_SIZE && |s| - HEADER_SIZE > SizeOf(s[..HEADER_SIZE]) {
      LastHasBytes(s[HEADER_SIZE + SizeOf(s[..HEADER_SIZE])..]);
    }
  }
}
