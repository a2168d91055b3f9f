/** CNode::ReceiveMsgBytes and the messages it fills. */
module Net {
  import opened Radix
  import opened Messages

  function Min(a: nat, b: nat): nat {
    if a < b then a else b
  }

  /** `b` overwritten by `s` from place `at` on. */
  function Copy(b: seq<byte>, at: nat, s: seq<byte>): seq<byte>
    requires at + |s| <= |b|
  {
    b[..at] + s + b[at + |s|..]
  }

  class CNetMessage {
    var in_data: bool
    var hdrbuf: seq<byte>
    var nHdrPos: nat
    var nMessageSize: nat
    var vRecv: seq<byte>
    var nDataPos: nat

    constructor ()
      ensures Valid() && Value() == Message([], []) && !complete()
    {
      in_data, nHdrPos, nMessageSize, nDataPos := false, 0, 0, 0;
      hdrbuf := seq(HEADER_SIZE, _ => 0);
      vRecv := [];
    }

    ghost predicate Valid()
      reads this
    {
      && |hdrbuf| == HEADER_SIZE && nDataPos <= |vRecv|
      && (if in_data then nHdrPos == HEADER_SIZE && nMessageSize == SizeOf(hdrbuf) <= MAX_SIZE && nDataPos <= nMessageSize
          else nHdrPos < HEADER_SIZE && nDataPos == 0)
    }

    /** What has arrived; buffer space that is not yet filled does not count. */
    ghost function Value(): (m: Message)
      requires Valid()
      reads this
      ensures Acceptable(m) && (Complete(m) <==> complete())
    {
      Message(hdrbuf[..nHdrPos], vRecv[..nDataPos])
    }

    predicate complete()
      reads this
    {
      in_data && nMessageSize == nDataPos
    }

    /** The return value is how much was taken; negative when the header is rejected. */
    method readHeader(pch: seq<byte>) returns (handled: int)
      requires Valid() && !in_data && pch != []
      modifies this
      ensures handled >= 0 ==> 0 < handled <= |pch| && Valid()
      ensures handled >= 0 ==> Value() == old(Value()).(hdr := old(Value()).hdr + pch[..handled])
      ensures var n := Min(HEADER_SIZE - |old(Value()).hdr|, |pch|); var hdr := old(Value()).hdr + pch[..n];
              handled == if |hdr| == HEADER_SIZE && SizeOf(hdr) > MAX_SIZE then -1 else n
    {
      hide SizeOf;
      var nRemaining := HEADER_SIZE - nHdrPos;
      var nCopy := Min(nRemaining, |pch|);
      hdrbuf := Copy(hdrbuf, nHdrPos, pch[..nCopy]);
      nHdrPos := nHdrPos + nCopy;
      assert hdrbuf[..nHdrPos] == old(hdrbuf)[..old(nHdrPos)] + pch[..nCopy];
      if nHdrPos < HEADER_SIZE {
        return nCopy;
      }
      assert hdrbuf[..HEADER_SIZE] == hdrbuf;
      nMessageSize := SizeOf(hdrbuf);
      if nMessageSize > MAX_SIZE {
        return -1;
      }
      in_data := true;
      return nCopy;
    }

    method readData(pch: seq<byte>) returns (handled: nat)
      requires Valid() && in_data && !complete() && pch != []
      modifies this
      ensures Valid() && 0 < handled <= |pch| && |old(Value()).data| + handled <= SizeOf(old(Value()).hdr)
      ensures Value() == old(Value()).(data := old(Value()).data + pch[..handled])
      ensures handled == Min(SizeOf(old(Value()).hdr) - |old(Value()).data|, |pch|)
    {
      hide SizeOf;
      var nRemaining := nMessageSize - nDataPos;
      var nCopy := Min(nRemaining, |pch|);
      assert hdrbuf[..HEADER_SIZE] == hdrbuf;
      ghost var was := vRecv[..nDataPos];
      if |vRecv| < nDataPos + nCopy {
        var nSize := Min(nMessageSize, nDataPos + nCopy + 256 * 1024);
        vRecv := vRecv + seq(nSize - |vRecv|, _ => 0);
      }
      assert vRecv[..nDataPos] == was;
      vRecv := Copy(vRecv, nDataPos, pch[..nCopy]);
      nDataPos := nDataPos + nCopy;
      assert vRecv[..nDataPos] == was + pch[..nCopy];
      return nCopy;
    }
  }

  class CNode {
    var vRecvMsg: seq<CNetMessage>

    constructor ()
      ensures Valid() && Contents() == []
    {
      vRecvMsg := [];
    }

    ghost predicate Valid()
      reads this, vRecvMsg
    {
      && (forall i | 0 <= i < |vRecvMsg| :: vRecvMsg[i].Valid())
      && (forall i, j | 0 <= i < j < |vRecvMsg| :: vRecvMsg[i] != vRecvMsg[j])
    }

    ghost function Contents(): (ms: seq<Message>)
      requires Valid()
      reads this, vRecvMsg
      ensures |ms| == |vRecvMsg| && forall i | 0 <= i < |ms| :: ms[i] == vRecvMsg[i].Value()
    {
      ValuesOf(vRecvMsg)
    }

    /** Get the message that is not complete, or start one. */
    method OpenLast()
      requires Valid()
      modifies this
      ensures Valid() && Contents() == Opened(old(Contents())) && vRecvMsg != [] && !vRecvMsg[|vRecvMsg| - 1].complete()
      ensures forall m | m in vRecvMsg :: m in old(vRecvMsg) || fresh(m)
    {
      if vRecvMsg == [] || vRecvMsg[|vRecvMsg| - 1].complete() {
        var msg := new CNetMessage();
        vRecvMsg := vRecvMsg + [msg];
      }
    }

    /** One pass: the last message takes what it can of the bytes. */
    method TakeSome(pch: seq<byte>) returns (handled: int)
      requires Valid() && vRecvMsg != [] && !vRecvMsg[|vRecvMsg| - 1].complete() && pch != []
      modifies vRecvMsg[|vRecvMsg| - 1]
      ensures handled < 0 ==> AbsorbAll(old(Contents()), pch) == Rejected
      ensures handled >= 0 ==> Valid() && 0 < handled <= |pch| && AbsorbAll(old(Contents()), pch[..handled]) == Queue(Contents())
    {
      hide AbsorbAll, SizeOf;
      var k := |vRecvMsg| - 1;
      var msg := vRecvMsg[k];
      ghost var front, m := Contents()[..k], msg.Value();
      assert Contents() == front + [m];
      if !msg.in_data {
        handled := msg.readHeader(pch);
        ghost var n := Min(HEADER_SIZE - |m.hdr|, |pch|);
        AbsorbHeader(front, m.hdr, pch[..n]);
        if handled < 0 {
          assert pch == pch[..n] + pch[n..];
          AbsorbAllAppend(front + [m], pch[..n], pch[n..]);
          return;
        }
      } else {
        handled := msg.readData(pch);
        AbsorbData(front, m, pch[..handled]);
      }
      assert Contents() == front + [msg.Value()];
    }

    /** The bytes that arrived are all absorbed, or the connection is given up. */
    method ReceiveMsgBytes(pch: seq<byte>) returns (ok: bool)
      requires Valid()
      modifies this, vRecvMsg
      ensures ok <==> AbsorbAll(old(Contents()), pch).Queue?
      ensures ok ==> Valid() && AbsorbAll(old(Contents()), pch) == Queue(Contents())
      ensures forall m | m in vRecvMsg :: m in old(vRecvMsg) || fresh(m)
    {
      hide *;
      var p := 0;
      ghost var was := Contents();
      assert pch[0..] == pch;
      while p < |pch|
        invariant p <= |pch| && Valid() && AbsorbAll(was, pch) == AbsorbAll(Contents(), pch[p..])
        invariant forall m | m in vRecvMsg :: m in old(vRecvMsg) || fresh(m)
      {
        AbsorbOpened(Contents(), pch[p..]);
        OpenLast();
        ghost var ms := Contents();
        assert vRecvMsg[|vRecvMsg| - 1] in vRecvMsg;
        var handled := TakeSome(pch[p..]);
        if handled < 0 {
          return false;
        }
        AbsorbedSome(ms, pch, p, handled, Contents());
        p := p + handled;
      }
      NothingLeft(Contents(), pch[p..]);
      ok := true;
    }
  }

  lemma AbsorbedSome(ms: seq<Message>, pch: seq<byte>, p: nat, n: nat, ns: seq<Message>)
    requires p + n <= |pch| && AbsorbAll(ms, pch[p..][..n]) == Queue(ns)
    ensures AbsorbAll(ms, pch[p..]) == AbsorbAll(ns, pch[p + n..])
  {
    hide AbsorbAll;
    assert pch[p..] == pch[p..][..n] + pch[p + n..];
    AbsorbAllAppend(ms, pch[p..][..n], pch[p + n..]);
  }

  lemma NothingLeft(ms: seq<Message>, s: seq<byte>)
    requires s == []
    ensures AbsorbAll(ms, s) == Queue(ms)
  {
  }

  ghost function ValuesOf(q: seq<CNetMessage>): (ms: seq<Message>)
    requires forall i | 0 <= i < |q| :: q[i].Valid()
    reads q
    ensures |ms| == |q| && forall i | 0 <= i < |ms| :: ms[i] == q[i].Value()
  {
    if q == [] then [] else ValuesOf(q[..|q| - 1]) + [q[|q| - 1].Value()]
  }
}
