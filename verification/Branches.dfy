/** Taking back the blocks of one branch and connecting those of another, on any index: also on one
    that has not seen all the blocks that are taken back. */
module Branches {
  import opened Transactions
  import opened SpentIndex
  import opened BlockTree
  import opened TxInputs
  import opened BlockConnect
  import opened BlockUndo
  import opened Replay

  /** The index after connecting the blocks down from `b` that are higher than `low`. */
  ghost function Redo(ix: Index, b: BlockIndex, low: nat): Index
    requires b.Linked()
    decreases b.nHeight
  {
    if b.nHeight <= low then ix else ConnectAll(Redo(ix, b.pprev, low), b)
  }

  /** The index after disconnecting them, highest first. */
  ghost function UndoDown(ix: Index, b: BlockIndex, low: nat): Undone
    requires b.Linked()
    decreases b.nHeight
  {
    if b.nHeight <= low then Undone(ix)
    else match DisconnectAll(ix, b)
      case Failed => Failed
      case Undone(jx) => UndoDown(jx, b.pprev, low)
  }

  /** Each of these blocks connects on what the ones below it leave. */
  ghost predicate Accepts(w: World, ix: Index, b: BlockIndex, low: nat, nBestHeight: int)
    requires b.Linked()
    decreases b.nHeight
  {
    b.nHeight > low ==>
      Accepts(w, ix, b.pprev, low, nBestHeight) && BlockConnects(w, Redo(ix, b.pprev, low), b, nBestHeight)
  }

  ghost predicate On(tip: BlockIndex, b: BlockIndex)
    requires tip.Linked()
  {
    b.nHeight <= tip.nHeight && tip.Path()[b.nHeight] == b
  }

  /** A block on the way down is the tip, or on the way down from the block before. */
  lemma OnBelow(tip: BlockIndex, b: BlockIndex)
    requires tip.Linked() && On(tip, b)
    ensures b.Linked()
    ensures b != tip ==> tip.pprev != null && On(tip.pprev, b) && b.nHeight < tip.nHeight
    ensures b.nHeight == tip.nHeight ==> b == tip
  {
    PathPrefix(tip, b.nHeight);
  }

  lemma {:induction false} AcceptsBelow(w: World, ix: Index, tip: BlockIndex, b: BlockIndex, low: nat, nBestHeight: int)
    requires tip.Linked() && On(tip, b) && Accepts(w, ix, tip, low, nBestHeight)
    ensures b.Linked() && Accepts(w, ix, b, low, nBestHeight)
    decreases tip.nHeight
  {
    hide BlockConnects;
    OnBelow(tip, b);
    if b != tip {
      if tip.nHeight > low {
        AcceptsBelow(w, ix, tip.pprev, b, low, nBestHeight);
      }
    }
  }

  /** Connecting further. */
  lemma {:induction false} RedoOn(ix: Index, tip: BlockIndex, b: BlockIndex, low: nat)
    requires tip.Linked() && On(tip, b) && low <= b.nHeight
    ensures b.Linked() && Redo(ix, tip, low) == Redo(Redo(ix, b, low), tip, b.nHeight)
    decreases tip.nHeight
  {
    OnBelow(tip, b);
    if b != tip {
      RedoOn(ix, tip.pprev, b, low);
    }
  }

  lemma {:induction false} AcceptsOn(w: World, ix: Index, tip: BlockIndex, b: BlockIndex, low: nat, nBestHeight: int)
    requires tip.Linked() && On(tip, b) && low <= b.nHeight && b.Linked()
    ensures Accepts(w, ix, tip, low, nBestHeight) <==>
            Accepts(w, ix, b, low, nBestHeight) && Accepts(w, Redo(ix, b, low), tip, b.nHeight, nBestHeight)
    decreases tip.nHeight
  {
    hide BlockConnects;
    OnBelow(tip, b);
    if b != tip {
      AcceptsOn(w, ix, tip.pprev, b, low, nBestHeight);
      RedoOn(ix, tip.pprev, b, low);
    }
  }

  // ----- on an index that replaying gives

  lemma {:induction false} RedoReplay(fork: BlockIndex, tip: BlockIndex)
    requires tip.Linked() && On(tip, fork)
    ensures fork.Linked() && Redo(ReplayTo(fork), tip, fork.nHeight) == ReplayTo(tip)
    decreases tip.nHeight
  {
    OnBelow(tip, fork);
    if fork != tip {
      RedoReplay(fork, tip.pprev);
    }
  }

  /** Every block above `fork` connects on the chain below it. */
  ghost predicate ConnectsAbove(w: World, fork: BlockIndex, tip: BlockIndex, nBestHeight: int)
    requires tip.Linked()
  {
    forall h: nat | fork.nHeight < h <= tip.nHeight :: ConnectsAt(w, tip, h, nBestHeight)
  }

  ghost predicate ConnectsAt(w: World, tip: BlockIndex, h: nat, nBestHeight: int)
    requires tip.Linked() && 0 < h <= tip.nHeight
  {
    var b, prev := tip.Path()[h], tip.Path()[h - 1];
    b.Linked() && prev.Linked() && BlockConnects(w, ReplayTo(prev), b, nBestHeight)
  }

  lemma {:induction false} AcceptsReplay(w: World, fork: BlockIndex, tip: BlockIndex, nBestHeight: int)
    requires tip.Linked() && On(tip, fork)
    ensures fork.Linked() && (Accepts(w, ReplayTo(fork), tip, fork.nHeight, nBestHeight) <==> ConnectsAbove(w, fork, tip, nBestHeight))
    decreases tip.nHeight
  {
    hide BlockConnects, ReplayTo;
    OnBelow(tip, fork);
    if fork != tip {
      var prev: BlockIndex := tip.pprev;
      AcceptsReplay(w, fork, prev, nBestHeight);
      RedoReplay(fork, prev);
      assert tip.Path()[tip.nHeight] == tip && tip.Path()[tip.nHeight - 1] == prev;
      assert ConnectsAt(w, tip, tip.nHeight, nBestHeight) <==> BlockConnects(w, ReplayTo(prev), tip, nBestHeight);
      assert forall h: nat | 0 < h <= prev.nHeight :: ConnectsAt(w, tip, h, nBestHeight) <==> ConnectsAt(w, prev, h, nBestHeight);
    }
  }

  lemma {:induction false} AcceptsConnects(w: World, fork: BlockIndex, tip: BlockIndex, nBestHeight: int)
    requires tip.Linked() && On(tip, fork) && fork.Linked() && ConnectsTo(w, fork)
    requires Accepts(w, ReplayTo(fork), tip, fork.nHeight, nBestHeight)
    ensures ConnectsTo(w, tip)
    decreases tip.nHeight
  {
    hide BlockConnects, ReplayTo;
    OnBelow(tip, fork);
    if fork != tip {
      AcceptsConnects(w, fork, tip.pprev, nBestHeight);
      RedoReplay(fork, tip.pprev);
      assert ConnectsOnParent(w, tip);
    }
  }

  lemma {:induction false} ConnectsBelow(w: World, tip: BlockIndex, b: BlockIndex)
    requires tip.Linked() && On(tip, b) && ConnectsTo(w, tip) && AcceptedTo(tip)
    ensures b.Linked() && ConnectsTo(w, b) && AcceptedTo(b)
    decreases tip.nHeight
  {
    OnBelow(tip, b);
    if b != tip {
      ConnectsBelow(w, tip.pprev, b);
    }
  }

  /** Disconnecting a block of a connected chain gives what was there before it. */
  lemma StepDown(w: World, b: BlockIndex)
    requires b.Linked() && b.pprev != null && ConnectsTo(w, b) && AcceptedTo(b)
    ensures ConnectsTo(w, b.pprev) && AcceptedTo(b.pprev)
    ensures DisconnectAll(ReplayTo(b), b) == Undone(ReplayTo(b.pprev))
  {
    ChainIsFresh(w, b);
    assert ConnectsOnParent(w, b);
    var nBestHeight: int :| BlockConnects(w, ReplayTo(b.pprev), b, nBestHeight);
    UndoBlock(w, ReplayTo(b.pprev), b, nBestHeight);
  }

  lemma {:induction false} UndoReplay(w: World, best: BlockIndex, fork: BlockIndex)
    requires best.Linked() && On(best, fork) && ConnectsTo(w, best) && AcceptedTo(best)
    ensures fork.Linked() && UndoDown(ReplayTo(best), best, fork.nHeight) == Undone(ReplayTo(fork))
    decreases best.nHeight
  {
    hide ConnectsTo, AcceptedTo, ReplayTo, DisconnectAll;
    OnBelow(best, fork);
    if fork != best {
      StepDown(w, best);
      UndoReplay(w, best.pprev, fork);
    }
  }
}
