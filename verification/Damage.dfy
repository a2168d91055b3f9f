/** What taking back blocks does to an index that has not seen all of them, and when a chain that
    is connected afterwards is still described. */
module Damage {
  import opened Transactions
  import opened SpentIndex
  import opened BlockTree
  import opened TxInputs
  import opened BlockConnect
  import opened BlockUndo
  import opened Replay
  import opened Branches

  function ClearedEntry(h: Txid, e: TxIndex, os: set<OutPoint>): TxIndex {
    TxIndex(e.pos, seq(|e.vSpent|, m requires 0 <= m < |e.vSpent| => if OutPoint(h, m) in os then Null else e.vSpent[m]))
  }

  /** The outputs `os` are free, and the entries of `hs` are gone. */
  function Damaged(ix: Index, os: set<OutPoint>, hs: set<Txid>): Index {
    map h | h in ix && h !in hs :: ClearedEntry(h, ix[h], os)
  }

  lemma DamagedTwice(ix: Index, os: set<OutPoint>, hs: set<Txid>, os': set<OutPoint>, hs': set<Txid>)
    ensures Damaged(Damaged(ix, os, hs), os', hs') == Damaged(ix, os + os', hs + hs')
  {
    var jx, kx := Damaged(Damaged(ix, os, hs), os', hs'), Damaged(ix, os + os', hs + hs');
    assert jx.Keys == kx.Keys;
    forall h | h in jx ensures jx[h] == kx[h] {
      assert jx[h].vSpent == kx[h].vSpent;
    }
  }

  /** Nothing happens exactly when the entries were not there and the outputs were free. */
  ghost predicate Harmless(ix: Index, os: set<OutPoint>, hs: set<Txid>) {
    (forall h | h in hs :: h !in ix) && forall o | o in os && HasSlot(ix, o) :: IsFree(ix, o)
  }

  lemma DamagedNot(ix: Index, os: set<OutPoint>, hs: set<Txid>)
    ensures Damaged(ix, os, hs) == ix <==> Harmless(ix, os, hs)
  {
    var jx := Damaged(ix, os, hs);
    if Harmless(ix, os, hs) {
      assert jx.Keys == ix.Keys;
      forall h | h in ix ensures jx[h] == ix[h] {
        forall m | 0 <= m < |ix[h].vSpent| ensures jx[h].vSpent[m] == ix[h].vSpent[m] {
          assert HasSlot(ix, OutPoint(h, m));
        }
        assert jx[h].vSpent == ix[h].vSpent;
      }
    }
    if jx == ix {
      forall h | h in hs ensures h !in ix {
        assert h !in jx;
      }
      forall o | o in os && HasSlot(ix, o) ensures IsFree(ix, o) {
        assert jx[o.hash].vSpent[o.n] == Null;
      }
    }
  }

  function Items(vin: seq<OutPoint>): set<OutPoint> {
    set o | o in vin
  }

  lemma {:induction false} ReleaseDamages(ix: Index, vin: seq<OutPoint>)
    requires ReleaseAll(ix, vin).Undone?
    ensures ReleaseAll(ix, vin).ix == Damaged(ix, Items(vin), {})
  {
    hide Damaged;
    if vin == [] {
      assert Items([]) == {};
      DamagedNot(ix, {}, {});
    } else {
      var k := |vin| - 1;
      ReleaseDamages(ix, vin[..k]);
      OneMore(ix, Items(vin[..k]), vin[k]);
      assert vin == vin[..k] + [vin[k]];
      assert Items(vin) == Items(vin[..k]) + {vin[k]};
    }
  }

  lemma OneMore(ix: Index, os: set<OutPoint>, o: OutPoint)
    ensures var jx := Damaged(ix, os, {});
            Damaged(ix, os + {o}, {}) == if o.hash in jx && o.n < |jx[o.hash].vSpent| then Mark(jx, o, Null) else jx
  {
    var jx := Damaged(ix, os, {});
    var kx := Damaged(ix, os + {o}, {});
    var lx := if o.hash in jx && o.n < |jx[o.hash].vSpent| then Mark(jx, o, Null) else jx;
    assert kx.Keys == lx.Keys;
    forall h | h in kx ensures kx[h] == lx[h] {
      assert kx[h].vSpent == lx[h].vSpent;
    }
  }

  function InputsOf(vtx: seq<Tx>): set<OutPoint> {
    set t, o | t in vtx && !t.IsCoinBase() && o in t.vin :: o
  }

  function HashesOf(vtx: seq<Tx>): set<Txid> {
    set t | t in vtx :: t.hash
  }

  lemma DisconnectDamages(ix: Index, tx: Tx)
    requires DisconnectTx(ix, tx).Undone?
    ensures DisconnectTx(ix, tx).ix == Damaged(ix, InputsOf([tx]), HashesOf([tx]))
  {
    var os := if tx.IsCoinBase() then {} else Items(tx.vin);
    if tx.IsCoinBase() {
      DamagedNot(ix, {}, {});
    } else {
      ReleaseDamages(ix, tx.vin);
    }
    var jx := Damaged(ix, os, {});
    DamagedTwice(ix, os, {}, {}, {tx.hash});
    WithoutKey(jx, tx.hash);
    assert InputsOf([tx]) == os && HashesOf([tx]) == {tx.hash} && os + {} == os;
  }

  lemma WithoutKey(ix: Index, h: Txid)
    ensures ix - {h} == Damaged(ix, {}, {h})
  {
    var jx := Damaged(ix, {}, {h});
    assert jx.Keys == (ix - {h}).Keys;
    forall g | g in jx ensures jx[g] == ix[g] {
      assert jx[g].vSpent == ix[g].vSpent;
    }
  }

  lemma {:induction false} BlockDamages(ix: Index, vtx: seq<Tx>, k: nat)
    requires k <= |vtx| && DisconnectDown(ix, vtx, k).Undone?
    ensures DisconnectDown(ix, vtx, k).ix == Damaged(ix, InputsOf(vtx[k..]), HashesOf(vtx[k..]))
    decreases |vtx| - k
  {
    hide DisconnectTx, Damaged;
    if k == |vtx| {
      assert vtx[k..] == [] && InputsOf([]) == {} && HashesOf([]) == {};
      DamagedNot(ix, {}, {});
    } else {
      BlockDamages(ix, vtx, k + 1);
      DisconnectDamages(DisconnectDown(ix, vtx, k + 1).ix, vtx[k]);
      DamagedTwice(ix, InputsOf(vtx[k + 1..]), HashesOf(vtx[k + 1..]), InputsOf([vtx[k]]), HashesOf([vtx[k]]));
      MoreTxs(vtx, k);
    }
  }

  lemma MoreTxs(vtx: seq<Tx>, k: nat)
    requires k < |vtx|
    ensures InputsOf(vtx[k..]) == InputsOf(vtx[k + 1..]) + InputsOf([vtx[k]])
    ensures HashesOf(vtx[k..]) == HashesOf(vtx[k + 1..]) + HashesOf([vtx[k]])
  {
    assert forall t :: t in vtx[k..] <==> t in vtx[k + 1..] || t in [vtx[k]];
  }

  /** The outputs that the blocks down from `b` and above `low` name. */
  ghost function Freed(b: BlockIndex, low: nat): set<OutPoint>
    requires b.Linked()
    decreases b.nHeight
  {
    if b.nHeight <= low then {} else InputsOf(b.block.vtx) + Freed(b.pprev, low)
  }

  ghost function Erased(b: BlockIndex, low: nat): set<Txid>
    requires b.Linked()
    decreases b.nHeight
  {
    if b.nHeight <= low then {} else HashesOf(b.block.vtx) + Erased(b.pprev, low)
  }

  lemma {:induction false} UndoDamages(ix: Index, b: BlockIndex, low: nat)
    requires b.Linked() && UndoDown(ix, b, low).Undone?
    ensures UndoDown(ix, b, low).ix == Damaged(ix, Freed(b, low), Erased(b, low))
    decreases b.nHeight
  {
    hide Damaged;
    if b.nHeight <= low {
      DamagedNot(ix, {}, {});
    } else {
      var jx := DisconnectAll(ix, b).ix;
      assert b.block.vtx[0..] == b.block.vtx;
      BlockDamages(ix, b.block.vtx, 0);
      UndoDamages(jx, b.pprev, low);
      DamagedTwice(ix, InputsOf(b.block.vtx), HashesOf(b.block.vtx), Freed(b.pprev, low), Erased(b.pprev, low));
    }
  }

  lemma {:induction false} FreedParts(b: BlockIndex, d: BlockIndex, low: nat)
    requires b.Linked() && On(b, d) && low <= d.nHeight
    ensures d.Linked() && Freed(b, low) == Freed(d, low) + Freed(b, d.nHeight) && Erased(b, low) == Erased(d, low) + Erased(b, d.nHeight)
    decreases b.nHeight
  {
    OnBelow(b, d);
    if b != d {
      FreedParts(b.pprev, d, low);
    }
  }

  /** Taking back the blocks down from `best` to `fork` on the index of a block between them: what
      is left is the index of the fork, damaged by the blocks that were not in the index. */
  lemma UndoFromBelow(w: World, best: BlockIndex, d: BlockIndex, fork: BlockIndex)
    requires best.Linked() && On(best, d) && On(best, fork) && fork.nHeight <= d.nHeight
    requires d.Linked() && ConnectsTo(w, d) && AcceptedTo(d) && UndoDown(ReplayTo(d), best, fork.nHeight).Undone?
    ensures fork.Linked()
    ensures UndoDown(ReplayTo(d), best, fork.nHeight).ix == Damaged(ReplayTo(fork), Freed(best, d.nHeight), Erased(best, d.nHeight))
  {
    hide ConnectsTo, AcceptedTo, ReplayTo, Damaged;
    OnLower(best, d, fork);
    UndoReplay(w, d, fork);
    UndoDamages(ReplayTo(d), d, fork.nHeight);
    UndoDamages(ReplayTo(d), best, fork.nHeight);
    FreedParts(best, d, fork.nHeight);
    DamagedTwice(ReplayTo(d), Freed(d, fork.nHeight), Erased(d, fork.nHeight), Freed(best, d.nHeight), Erased(best, d.nHeight));
  }

  lemma OnLower(best: BlockIndex, d: BlockIndex, fork: BlockIndex)
    requires best.Linked() && On(best, d) && On(best, fork) && fork.nHeight <= d.nHeight
    ensures d.Linked() && fork.Linked() && On(d, fork)
  {
    PathPrefix(best, d.nHeight);
    PathPrefix(best, fork.nHeight);
    assert d.Path()[fork.nHeight] == best.Path()[..d.nHeight + 1][fork.nHeight];
  }

  // ----- what a chain connected on top of that leaves

  /** The index is what replaying the chain down from `e` gives, and that chain connects. */
  ghost predicate Replays(w: World, ix: Index, e: BlockIndex)
    requires e.Linked()
  {
    ConnectsTo(w, e) && ix == ReplayTo(e)
  }

  /** What the blocks of a connected chain name is new on it. */
  lemma BlockIsClean(w: World, b: BlockIndex)
    requires b.Linked() && b.pprev != null && ConnectsTo(w, b) && AcceptedTo(b)
    ensures ConnectsTo(w, b.pprev) && AcceptedTo(b.pprev)
    ensures Fresh(ReplayTo(b.pprev), b) && forall k | 0 <= k < |b.block.vtx| :: StepClean(ReplayTo(b.pprev), b, k)
  {
    hide Replay.Describes, StepClean, Fresh;
    ChainIsFresh(w, b.pprev);
    ChainIsFresh(w, b);
    CleanOnChain(w, b);
  }

  /** An entry of the chain that the other index lacks stays lacking. */
  lemma {:induction false} AbsentStays(w: World, jx: Index, g: BlockIndex, e: BlockIndex, h: Txid)
    requires e.Linked() && On(e, g) && ConnectsTo(w, e) && AcceptedTo(e) && g.Linked()
    requires h in ReplayTo(g) && h !in jx
    ensures h in ReplayTo(e) && h !in Redo(jx, e, g.nHeight)
    decreases e.nHeight
  {
    hide ConnectsTo, AcceptedTo;
    OnBelow(e, g);
    if e != g {
      BlockIsClean(w, e);
      AbsentStays(w, jx, g, e.pprev, h);
      ConnectTxsKeys(ReplayTo(e.pprev), e, |e.block.vtx|);
      ConnectTxsKeys(Redo(jx, e.pprev, g.nHeight), e, |e.block.vtx|);
    }
  }

  lemma FreeStep(ix: Index, jx: Index, tx: Tx, p: DiskTxPos, o: OutPoint)
    requires InputsFree(ix, tx) && tx.hash !in ix && p != Null && HasSlot(ix, o) && !IsFree(ix, o) && IsFree(jx, o)
    ensures HasSlot(ConnectTx(ix, tx, p), o) && !IsFree(ConnectTx(ix, tx, p), o) && IsFree(ConnectTx(jx, tx, p), o)
  {
    MarksKept(ix, tx, p, o);
    MarkAllSlots(jx, tx.vin, p);
  }

  lemma {:induction false} FreeInBlock(ix: Index, jx: Index, b: BlockIndex, k: nat, o: OutPoint)
    requires k <= |b.block.vtx| && forall j | 0 <= j < k :: StepClean(ix, b, j)
    requires HasSlot(ix, o) && !IsFree(ix, o) && IsFree(jx, o)
    ensures var kx, lx := ConnectTxs(ix, b, k), ConnectTxs(jx, b, k); HasSlot(kx, o) && !IsFree(kx, o) && IsFree(lx, o)
  {
    if k > 0 {
      FreeInBlock(ix, jx, b, k - 1, o);
      assert StepClean(ix, b, k - 1);
      FreeStep(ConnectTxs(ix, b, k - 1), ConnectTxs(jx, b, k - 1), b.block.vtx[k - 1], b.TxPos(k - 1), o);
    }
  }

  /** An output that the chain has spent, but that is free in the other index, stays so. */
  lemma {:induction false} FreeStays(w: World, jx: Index, g: BlockIndex, e: BlockIndex, o: OutPoint)
    requires e.Linked() && On(e, g) && ConnectsTo(w, e) && AcceptedTo(e) && g.Linked()
    requires HasSlot(ReplayTo(g), o) && !IsFree(ReplayTo(g), o) && IsFree(jx, o)
    ensures HasSlot(ReplayTo(e), o) && !IsFree(ReplayTo(e), o) && IsFree(Redo(jx, e, g.nHeight), o)
    decreases e.nHeight
  {
    hide ConnectsTo, AcceptedTo, HasSlot, IsFree, StepClean;
    OnBelow(e, g);
    if e != g {
      BlockIsClean(w, e);
      FreeStays(w, jx, g, e.pprev, o);
      FreeInBlock(ReplayTo(e.pprev), Redo(jx, e.pprev, g.nHeight), e, |e.block.vtx|, o);
    }
  }

  /** No chain heals the damage: after connecting the blocks from the fork to `e` the index is that
      of `e` exactly when there was none. */
  lemma DamageStays(w: World, fork: BlockIndex, e: BlockIndex, os: set<OutPoint>, hs: set<Txid>, nBestHeight: int)
    requires e.Linked() && On(e, fork) && fork.Linked() && ConnectsTo(w, fork) && AcceptedTo(e)
    requires Accepts(w, Damaged(ReplayTo(fork), os, hs), e, fork.nHeight, nBestHeight)
    ensures Replays(w, Redo(Damaged(ReplayTo(fork), os, hs), e, fork.nHeight), e) <==> Harmless(ReplayTo(fork), os, hs)
  {
    hide ConnectsTo, AcceptedTo, ReplayTo, Redo, Accepts;
    var ix := ReplayTo(fork);
    var jx := Damaged(ix, os, hs);
    if Harmless(ix, os, hs) {
      DamagedNot(ix, os, hs);
      RedoReplay(fork, e);
      AcceptsConnects(w, fork, e, nBestHeight);
    } else if Replays(w, Redo(jx, e, fork.nHeight), e) {
      if h :| h in hs && h in ix {
        AbsentStays(w, jx, fork, e, h);
      } else {
        var o :| o in os && HasSlot(ix, o) && !IsFree(ix, o);
        assert IsFree(jx, o);
        FreeStays(w, jx, fork, e, o);
      }
      assert false;
    }
  }

  /** Where blocks between `d` and the fork were never connected, the index is not that of `e`. */
  lemma GapStays(w: World, ix: Index, d: BlockIndex, fork: BlockIndex, e: BlockIndex)
    requires e.Linked() && On(e, fork) && fork.Linked() && On(fork, d) && d.nHeight < fork.nHeight && d.Linked() && AcceptedTo(e)
    requires ix.Keys <= ReplayTo(d).Keys
    ensures !Replays(w, Redo(ix, e, fork.nHeight), e)
  {
    hide ReplayTo, Redo, ConnectsTo, AcceptedTo;
    if ConnectsTo(w, e) {
      ConnectsBelow(w, e, fork);
      var c := FirstAbove(fork, d);
      ConnectsBelow(w, fork, c);
      BlockIsClean(w, c);
      var h := c.block.vtx[0].hash;
      assert h in ReplayTo(c) && h !in ReplayTo(d) by {
        FirstHash(w, c);
      }
      AbsentStays(w, map[], c, fork, h);
      AbsentStays(w, ix, fork, e, h);
    }
  }

  /** The block above `d` on the way to `fork`. */
  ghost function FirstAbove(fork: BlockIndex, d: BlockIndex): (c: BlockIndex)
    requires fork.Linked() && On(fork, d) && d.nHeight < fork.nHeight
    ensures On(fork, c) && c.Linked() && c.pprev == d
  {
    PathPrefix(fork, d.nHeight + 1);
    PathPrefix(fork, d.nHeight);
    assert fork.Path()[..d.nHeight + 2][d.nHeight] == d;
    fork.Path()[d.nHeight + 1]
  }

  lemma FirstHash(w: World, c: BlockIndex)
    requires c.Linked() && c.pprev != null && AcceptedTo(c) && Fresh(ReplayTo(c.pprev), c)
    ensures |c.block.vtx| > 0 && c.block.vtx[0].hash in ReplayTo(c) && c.block.vtx[0].hash !in ReplayTo(c.pprev)
  {
    ConnectTxsKeys(ReplayTo(c.pprev), c, |c.block.vtx|);
  }
}
