/** The active chain: the database of spent outputs, the links of the block tree, and the
    operations that extend and reorganize them. */
module ChainState {
  import opened Transactions
  import opened SpentIndex
  import opened BlockTree
  import opened TxInputs
  import opened BlockConnect
  import opened BlockUndo
  import opened Replay
  import opened Supply
  import opened Branches
  import opened Damage
  import opened Storage
  import opened Sequences

  /** What the transaction database holds: the spent index, and the block that
      WriteHashBestChain recorded. */
  datatype Db = Db(index: Index, best: BlockIndex)

  /** The writes of a database transaction in progress, seen through reads. */
  datatype Batch = NoBatch | Pending(db: Db)

  /** The block after `b` on the way to `tip`. */
  ghost function Next(tip: BlockIndex, b: BlockIndex): BlockIndex?
    requires tip.Linked()
  {
    if b.nHeight < tip.nHeight && tip.Path()[b.nHeight] == b then tip.Path()[b.nHeight + 1] else null
  }

  lemma {:induction false} PathInside(nodes: set<BlockIndex>, b: BlockIndex, h: nat)
    requires b in nodes && b.Linked() && h <= b.nHeight && Closed(nodes)
    ensures b.Path()[h] in nodes
    decreases b.nHeight
  {
    if h < b.nHeight {
      PathInside(nodes, b.pprev, h);
    }
  }

  ghost predicate Closed(nodes: set<BlockIndex>) {
    forall c | c in nodes :: c.pprev != null ==> c.pprev in nodes
  }

  /** The blocks at heights `h` and `h + 1` of a path. */
  lemma PathStep(nodes: set<BlockIndex>, tip: BlockIndex, h: nat)
    requires tip in nodes && tip.Linked() && h < tip.nHeight && Closed(nodes)
    ensures var b, c := tip.Path()[h], tip.Path()[h + 1];
            && b in nodes && c in nodes && b.Linked() && c.Linked()
            && b.nHeight == h && c.nHeight == h + 1 && c.pprev == b
  {
    PathPrefix(tip, h);
    PathPrefix(tip, h + 1);
    PathInside(nodes, tip, h);
    PathInside(nodes, tip, h + 1);
    assert tip.Path()[h] == tip.Path()[..h + 2][h];
  }

  /** Paths that meet are equal below. */
  lemma PathsMeet(a: BlockIndex, b: BlockIndex, h: nat, k: nat)
    requires a.Linked() && b.Linked() && k <= h <= a.nHeight && h <= b.nHeight
    requires a.Path()[h] == b.Path()[h]
    ensures a.Path()[k] == b.Path()[k]
  {
    PathPrefix(a, h);
    PathPrefix(b, h);
    assert a.Path()[..h + 1][k] == b.Path()[..h + 1][k];
  }

  /** `fork` is the highest block that the paths to `a` and `b` share. */
  ghost predicate IsFork(a: BlockIndex, b: BlockIndex, fork: BlockIndex)
    requires a.Linked() && b.Linked()
  {
    && On(a, fork) && On(b, fork)
    && forall h: nat | fork.nHeight < h <= a.nHeight && h <= b.nHeight :: a.Path()[h] != b.Path()[h]
  }

  ghost predicate Disjoint(a: BlockIndex, b: BlockIndex)
    requires a.Linked() && b.Linked()
  {
    forall h: nat | h <= a.nHeight && h <= b.nHeight :: a.Path()[h] != b.Path()[h]
  }

  lemma Parent(tip: BlockIndex, b: BlockIndex)
    requires tip.Linked() && b.nHeight <= tip.nHeight && tip.Path()[b.nHeight] == b
    ensures b.Linked()
    ensures b.pprev == if b.nHeight == 0 then null else tip.Path()[b.nHeight - 1]
  {
    PathPrefix(tip, b.nHeight);
    if b.nHeight > 0 {
      assert b.Path()[b.nHeight - 1] == tip.Path()[..b.nHeight + 1][b.nHeight - 1];
    }
  }

  /** The search of Reorganize: step down the longer path, then the other, until they meet. */
  method FindFork(best: BlockIndex, other: BlockIndex) returns (fork: BlockIndex?)
    requires best.Linked() && other.Linked()
    ensures fork != null ==> IsFork(best, other, fork)
    ensures fork == null ==> Disjoint(best, other)
  {
    var pfork: BlockIndex := best;
    var plonger: BlockIndex := other;
    while pfork != plonger
      invariant pfork.nHeight <= best.nHeight && best.Path()[pfork.nHeight] == pfork
      invariant plonger.nHeight <= other.nHeight && other.Path()[plonger.nHeight] == plonger
      invariant forall h: nat | h <= best.nHeight && h <= other.nHeight && (pfork.nHeight < h || plonger.nHeight < h) ::
                  best.Path()[h] != other.Path()[h]
      decreases pfork.nHeight + plonger.nHeight
    {
      while plonger.nHeight > pfork.nHeight
        invariant plonger.nHeight <= other.nHeight && other.Path()[plonger.nHeight] == plonger
        invariant forall h: nat | h <= best.nHeight && h <= other.nHeight && (pfork.nHeight < h || plonger.nHeight < h) ::
                    best.Path()[h] != other.Path()[h]
      {
        Parent(other, plonger);
        plonger := plonger.pprev;
      }
      if pfork == plonger {
        break;
      }
      Parent(best, pfork);
      if pfork.pprev == null {
        return null;
      }
      pfork := pfork.pprev;
    }
    fork := pfork;
  }

  class Chain {
    const w: World
    const device: Device
    var mapBlockIndex: set<BlockIndex>
    var disk: Db
    var batch: Batch
    var pindexBest: BlockIndex

    /** Every known block hangs on known blocks, lies on disk, and was accepted. */
    ghost predicate TreeOk()
      reads this`mapBlockIndex
    {
      Closed(mapBlockIndex) && forall b | b in mapBlockIndex :: b.Linked() && AcceptedTo(b) && OnDiskTo(w, b)
    }

    /** The blocks named as best are known. */
    ghost predicate Formed()
      reads this`mapBlockIndex, this`disk, this`pindexBest
    {
      TreeOk() && disk.best in mapBlockIndex && pindexBest in mapBlockIndex
    }

    /** A database describes the chain down from its best block: every block connects, and the
        index is what replaying them gives. */
    ghost predicate Describes(db: Db) {
      db.best.Linked() && Replays(w, db.index, db.best)
    }

    /** The forward links are exactly the path to the best block. */
    ghost predicate LinksOk(tip: BlockIndex)
      requires tip.Linked()
      reads this`mapBlockIndex, mapBlockIndex`pnext
    {
      forall b | b in mapBlockIndex :: b.pnext == Next(tip, b)
    }

    /** The money supply of a block is the value of what is unspent there. */
    ghost predicate Accounted(b: BlockIndex)
      reads b`nMoneySupply
    {
      b.Linked() && b.nMoneySupply == Total(w, ReplayTo(b))
    }

    ghost predicate SupplyOk(tip: BlockIndex)
      requires tip.Linked()
      reads this`mapBlockIndex, mapBlockIndex`nMoneySupply
    {
      forall b | b in mapBlockIndex && On(tip, b) :: Accounted(b)
    }

    ghost predicate Valid()
      reads this`mapBlockIndex, this`disk, this`pindexBest, mapBlockIndex`pnext, mapBlockIndex`nMoneySupply
    {
      && Formed()
      && Describes(disk) && LinksOk(disk.best) && SupplyOk(disk.best)
    }

    /** The best block in memory is that of the database, or lies above it: SetBestChain can leave
        it so when a postponed block does not connect. */
    ghost predicate Ahead()
      reads this`disk, this`pindexBest
    {
      pindexBest.Linked() && On(pindexBest, disk.best)
    }

    constructor (world: World, storage: Device, genesis: BlockIndex)
      requires genesis.Linked() && genesis.pprev == null && genesis.pnext == null && genesis.nMoneySupply == 0
      ensures Valid() && Ahead() && w == world && device == storage && batch == NoBatch && fresh(this)
      ensures mapBlockIndex == {genesis} && disk == Db(map[], genesis) && pindexBest == genesis
    {
      w, device := world, storage;
      mapBlockIndex := {genesis};
      disk, batch, pindexBest := Db(map[], genesis), NoBatch, genesis;
    }

    /** CBlock::ConnectBlock.  The index on the block's disk record and the wallets are not
        modelled. */
    method ConnectBlock(b: BlockIndex) returns (ok: bool)
      requires batch.Pending? && b.Linked() && (b.block.IsProofOfStake() ==> b.pprev != null)
      modifies this`batch, device, b`nMint, b`nMoneySupply
      ensures device.nAccesses >= old(device.nAccesses)
      ensures ok <==> BlockConnects(w, old(batch.db.index), b, pindexBest.nHeight) && device.Worked(old(device.nAccesses), device.nAccesses)
      ensures ok ==> batch == Pending(old(batch.db).(index := ConnectAll(old(batch.db.index), b)))
      ensures ok ==> var t := TotalsUpTo(w, old(batch.db.index), b, |b.block.vtx|);
                     && b.nMint == t.nValueOut - t.nValueIn + t.nFees
                     && b.nMoneySupply == (if b.pprev == null then 0 else old(b.pprev.nMoneySupply)) + t.nValueOut - t.nValueIn
      ensures !ok ==> batch == old(batch) && b.nMoneySupply == old(b.nMoneySupply)
    {
      if !CheckBlock(w, b.block) {
        return false;
      }
      var mapQueuedChanges, t;
      ok, mapQueuedChanges, t := ConnectTransactions(w, device, batch.db.index, b, pindexBest.nHeight);
      if !ok {
        return;
      }
      if !b.block.IsProofOfStake() {
        if ValueOf(b.block.vtx[0].vout) > ProofOfWorkSubsidy(b.nHeight) + t.nFees {
          return false;
        }
      }
      if b.block.IsProofOfStake() {
        if t.nStakeReward > ProofOfStakeSubsidy(b.pprev.nHeight) + t.nFees {
          return false;
        }
      }
      b.nMint := t.nValueOut - t.nValueIn + t.nFees;
      b.nMoneySupply := (if b.pprev == null then 0 else b.pprev.nMoneySupply) + t.nValueOut - t.nValueIn;
      var index := WriteQueued(batch.db.index, mapQueuedChanges);
      batch := Pending(batch.db.(index := index));
    }

    /** Changing the supply of a block off the path breaks nothing. */
    twostate lemma StaysValid(b: BlockIndex)
      requires old(Valid()) && disk == old(disk) && mapBlockIndex == old(mapBlockIndex) && pindexBest == old(pindexBest)
      requires !On(disk.best, b)
      requires forall c | c in mapBlockIndex :: c.pnext == old(c.pnext) && (c != b ==> c.nMoneySupply == old(c.nMoneySupply))
      ensures Valid()
    {
    }

    /** A block connected on top of the best one, with its link and its supply, is the best. */
    twostate lemma StepsUp(b: BlockIndex)
      requires old(Valid()) && mapBlockIndex == old(mapBlockIndex) && pindexBest == old(pindexBest)
      requires b in mapBlockIndex && b.pprev == old(disk.best) && disk.best == b
      requires ConnectsTo(w, b) && disk.index == ReplayTo(b) && Accounted(b)
      requires b.pprev.pnext == b
      requires forall c | c in mapBlockIndex :: (c != b.pprev ==> c.pnext == old(c.pnext)) && (c != b ==> c.nMoneySupply == old(c.nMoneySupply))
      ensures Valid()
    {
      assert LinksOk(b) by {
        forall c | c in mapBlockIndex ensures c.pnext == Next(b, c) {
          NextUp(b, c);
        }
      }
      assert SupplyOk(b) by {
        forall c | c in mapBlockIndex && On(b, c)
          ensures Accounted(c)
        {
          assert c != b ==> On(b.pprev, c);
        }
      }
    }

    /** CBlock::SetBestChainInner: connect a block to the database, in the transaction that its
        caller began.  Nothing here looks at which block the database is at. */
    method SetBestChainInner(b: BlockIndex) returns (ok: bool)
      requires Formed() && batch == Pending(disk) && b in mapBlockIndex && b.pprev != null
      modifies this`disk, this`batch, device, b`nMint, b`nMoneySupply, b.pprev`pnext
      ensures Formed() && batch == NoBatch && device.nAccesses >= old(device.nAccesses) + if ok then 1 else 0
      ensures ok <==> BlockConnects(w, old(disk.index), b, pindexBest.nHeight) && device.Worked(old(device.nAccesses), device.nAccesses)
      ensures disk == if ok then Db(ConnectAll(old(disk.index), b), b) else old(disk)
      ensures b.pprev.pnext == if ok then b else old(b.pprev.pnext)
      ensures old(Valid()) && b.pprev == old(disk.best) ==> Valid()
      ensures old(Valid()) && !ok && !On(disk.best, b) ==> Valid()
    {
      hide BlockConnects, ConnectsTo, ConnectsOnParent, ReplayTo, TotalsUpTo, ConnectAll, Valid, AcceptedTo, OnDiskTo, Closed, On;
      ok := ConnectBlock(b);
      if !ok {
        batch := NoBatch;
        StillValid(b);
        return;
      }
      ok := device.Access();
      if !ok {
        batch := NoBatch;
        StillValid(b);
        return;
      }
      disk, batch := batch.db.(best := b), NoBatch;
      b.pprev.pnext := b;
      Extends(b);
    }

    twostate lemma StillValid(b: BlockIndex)
      requires old(Formed()) && disk == old(disk) && mapBlockIndex == old(mapBlockIndex) && pindexBest == old(pindexBest)
      requires b in mapBlockIndex && b.pprev != null
      requires forall c | c in mapBlockIndex :: c.pnext == old(c.pnext) && (c != b ==> c.nMoneySupply == old(c.nMoneySupply))
      ensures old(Valid()) && !On(disk.best, b) ==> Valid()
      ensures old(Valid()) && b.pprev == disk.best ==> Valid()
    {
      if old(Valid()) && !On(disk.best, b) {
        StaysValid(b);
      }
    }

    twostate lemma Extends(b: BlockIndex)
      requires old(Formed()) && mapBlockIndex == old(mapBlockIndex) && pindexBest == old(pindexBest)
      requires b in mapBlockIndex && b.pprev != null && disk == Db(ConnectAll(old(disk.index), b), b)
      requires BlockConnects(w, old(disk.index), b, pindexBest.nHeight)
      requires var t := TotalsUpTo(w, old(disk.index), b, |b.block.vtx|); b.nMoneySupply == old(b.pprev.nMoneySupply) + t.nValueOut - t.nValueIn
      requires b.pprev.pnext == b
      requires forall c | c in mapBlockIndex :: (c != b.pprev ==> c.pnext == old(c.pnext)) && (c != b ==> c.nMoneySupply == old(c.nMoneySupply))
      ensures old(Valid()) && b.pprev == old(disk.best) ==> Valid()
    {
      hide BlockConnects, TotalsUpTo;
      if old(Valid()) && b.pprev == old(disk.best) {
        assert old(Accounted(b.pprev));
        OnDiskHere(w, b);
        StepUp(w, b, pindexBest.nHeight);
        StepsUp(b);
      }
    }

    /** The blocks on the way from `from` down to just above `fork`. */
    method CollectDown(from: BlockIndex, fork: BlockIndex) returns (v: seq<BlockIndex>)
      requires from.Linked() && On(from, fork)
      ensures |v| == from.nHeight - fork.nHeight
      ensures forall i | 0 <= i < |v| :: v[i] == from.Path()[from.nHeight - i]
    {
      v := [];
      var pindex: BlockIndex := from;
      while pindex != fork
        invariant fork.nHeight <= pindex.nHeight <= from.nHeight && from.Path()[pindex.nHeight] == pindex
        invariant |v| == from.nHeight - pindex.nHeight
        invariant forall i | 0 <= i < |v| :: v[i] == from.Path()[from.nHeight - i]
        decreases pindex.nHeight
      {
        v := v + [pindex];
        Parent(from, pindex);
        pindex := pindex.pprev;
      }
    }

    /** The same blocks, lowest first. */
    method CollectUp(from: BlockIndex, fork: BlockIndex) returns (v: seq<BlockIndex>)
      requires from.Linked() && On(from, fork)
      ensures |v| == from.nHeight - fork.nHeight
      ensures forall i | 0 <= i < |v| :: v[i] == from.Path()[fork.nHeight + i + 1]
    {
      var down := CollectDown(from, fork);
      v := Reversed(down);
      forall i | 0 <= i < |v| ensures v[i] == from.Path()[fork.nHeight + i + 1] {
        assert v[i] == down[|v| - 1 - i] && from.nHeight - (|v| - 1 - i) == fork.nHeight + i + 1;
      }
    }

    /** Reorganize, first part: disconnect the blocks above the fork, highest first, whether or not
        the database has them. */
    method DisconnectBranch(vDisconnect: seq<BlockIndex>, ghost best: BlockIndex, ghost fork: BlockIndex) returns (ok: bool)
      requires batch.Pending? && best.Linked() && On(best, fork)
      requires |vDisconnect| == best.nHeight - fork.nHeight
      requires forall i | 0 <= i < |vDisconnect| :: vDisconnect[i] == best.Path()[best.nHeight - i]
      modifies this`batch, device
      ensures batch.Pending? && device.nAccesses >= old(device.nAccesses)
      ensures ok <==> UndoDown(old(batch.db.index), best, fork.nHeight).Undone? && device.Worked(old(device.nAccesses), device.nAccesses)
      ensures ok ==> batch == Pending(old(batch.db).(index := UndoDown(old(batch.db.index), best, fork.nHeight).ix))
    {
      hide DisconnectAll, BlockIndex.Path;
      ghost var cur: BlockIndex := best;
      PathPrefix(best, best.nHeight);
      for i := 0 to |vDisconnect|
        invariant cur.nHeight == best.nHeight - i && cur == best.Path()[cur.nHeight] && cur.Linked()
        invariant device.nAccesses >= old(device.nAccesses) && device.Worked(old(device.nAccesses), device.nAccesses)
        invariant batch.Pending? && batch.db.best == old(batch.db.best)
        invariant UndoDown(old(batch.db.index), best, fork.nHeight) == UndoDown(batch.db.index, cur, fork.nHeight)
      {
        var b := vDisconnect[i];
        Parent(best, b);
        ok := device.Access();
        if !ok {
          return;
        }
        var index;
        ok, index := DisconnectTransactions(batch.db.index, b);
        if !ok {
          return;
        }
        batch := Pending(batch.db.(index := index));
        cur := b.pprev;
      }
      ok := true;
    }

    ghost predicate Above(tip: BlockIndex, fork: BlockIndex, b: BlockIndex)
      requires tip.Linked()
    {
      fork.nHeight < b.nHeight && On(tip, b)
    }

    /** The transaction in progress is at `b`, and all is accounted for. */
    ghost predicate Good(b: BlockIndex)
      reads this`batch, b`nMoneySupply
    {
      batch.Pending? && b.Linked() && Replays(w, batch.db.index, b) && Accounted(b)
    }

    /** Read a block of a branch from disk and connect it. */
    method ConnectNext(b: BlockIndex) returns (ok: bool)
      requires b.Linked() && b.pprev != null && b.OnDisk(w) && batch.Pending?
      modifies this`batch, device, b`nMint, b`nMoneySupply
      ensures batch.Pending? && device.nAccesses >= old(device.nAccesses)
      ensures ok <==> BlockConnects(w, old(batch.db.index), b, pindexBest.nHeight) && device.Worked(old(device.nAccesses), device.nAccesses)
      ensures ok ==> batch == Pending(old(batch.db).(index := ConnectAll(old(batch.db.index), b)))
      ensures ok && old(Good(b.pprev)) ==> Good(b)
    {
      hide ConnectsTo, ReplayTo, BlockConnects, TotalsUpTo, Total, Replays, ConnectAll, CheckBlock;
      ok := device.Access();
      if !ok {
        return;
      }
      ok := ConnectBlock(b);
      if ok && old(Good(b.pprev)) {
        ReplaysNext(w, old(batch.db.index), b, pindexBest.nHeight);
      }
    }

    /** Reorganize, second part: connect the blocks above the fork, lowest first. */
    method ConnectBranch(vConnect: seq<BlockIndex>, tip: BlockIndex, fork: BlockIndex) returns (ok: bool)
      requires TreeOk() && tip in mapBlockIndex && fork.Linked() && On(tip, fork) && batch.Pending?
      requires |vConnect| == tip.nHeight - fork.nHeight
      requires forall i | 0 <= i < |vConnect| :: vConnect[i] == tip.Path()[fork.nHeight + i + 1]
      modifies this`batch, device, vConnect`nMint, vConnect`nMoneySupply
      ensures batch.Pending? && device.nAccesses >= old(device.nAccesses)
      ensures ok <==> Accepts(w, old(batch.db.index), tip, fork.nHeight, pindexBest.nHeight) && device.Worked(old(device.nAccesses), device.nAccesses)
      ensures ok ==> batch == Pending(old(batch.db).(index := Redo(old(batch.db.index), tip, fork.nHeight)))
      ensures ok && old(Good(fork)) ==> Good(tip) && forall i | 0 <= i < |vConnect| :: Accounted(vConnect[i])
    {
      hide ConnectsTo, AcceptedTo, OnDiskTo, ReplayTo, BlockConnects, BlockIndex.Path,
           BlockIndex.Linked, Closed, Accounted, Replays, ConnectAll, Accepts, Redo;
      ghost var path, ix := tip.Path(), batch.db.index;
      var cur := fork;
      NothingAbove(w, ix, fork, pindexBest.nHeight);
      for i := 0 to |vConnect|
        invariant fork.nHeight + i == cur.nHeight && cur == path[cur.nHeight] && cur.Linked()
        invariant device.nAccesses >= old(device.nAccesses) && device.Worked(old(device.nAccesses), device.nAccesses)
        invariant Accepts(w, ix, cur, fork.nHeight, pindexBest.nHeight)
        invariant batch == Pending(old(batch.db).(index := Redo(ix, cur, fork.nHeight)))
        invariant old(Good(fork)) ==> Good(cur) && forall j | 0 <= j < i :: Accounted(vConnect[j])
      {
        var b := vConnect[i];
        PathStep(mapBlockIndex, tip, cur.nHeight);
        assert b == path[cur.nHeight + 1];
        OnDiskHere(w, b);
        OneAbove(w, ix, b, fork.nHeight, pindexBest.nHeight);
        ghost var before := device.nAccesses;
        ok := ConnectNext(b);
        if !ok {
          if device.Worked(before, device.nAccesses) {
            StopsAccepting(w, ix, tip, b, fork.nHeight, pindexBest.nHeight);
          }
          return;
        }
        cur := b;
      }
      ok := true;
      AtTip(tip, cur);
    }

    lemma AtTip(tip: BlockIndex, cur: BlockIndex)
      requires tip.Linked() && cur.nHeight == tip.nHeight && tip.Path()[cur.nHeight] == cur
      ensures cur == tip
    {
    }
    /** Reorganize: cut the links of the branch that was disconnected. */
    method Unlink(vDisconnect: seq<BlockIndex>, ghost tip: BlockIndex, ghost fork: BlockIndex)
      requires Closed(mapBlockIndex) && tip in mapBlockIndex && tip.Linked() && fork.nHeight <= tip.nHeight
      requires |vDisconnect| == tip.nHeight - fork.nHeight
      requires forall i | 0 <= i < |vDisconnect| :: vDisconnect[i] == tip.Path()[tip.nHeight - i]
      modifies mapBlockIndex`pnext
      ensures forall b | b in mapBlockIndex :: b.pnext == if OnStretch(tip, fork.nHeight, b) then null else old(b.pnext)
    {
      hide Closed, BlockIndex.Path, BlockIndex.Linked;
      ghost var low: nat := tip.nHeight;
      for i := 0 to |vDisconnect|
        invariant low == tip.nHeight - i
        invariant forall b | b in mapBlockIndex :: b.pnext == if OnStretch(tip, low, b) then null else old(b.pnext)
      {
        var pindex := vDisconnect[i];
        low := low - 1;
        PathStep(mapBlockIndex, tip, low);
        assert pindex == tip.Path()[low + 1];
        assert pindex.pprev == tip.Path()[low] && pindex.pprev.nHeight == low;
        if pindex.pprev != null {
          pindex.pprev.pnext := null;
        }
      }
    }

    /** Reorganize: link the branch that was connected. */
    method Link(vConnect: seq<BlockIndex>, ghost tip: BlockIndex, ghost fork: BlockIndex)
      requires Closed(mapBlockIndex) && tip in mapBlockIndex && tip.Linked() && fork.nHeight <= tip.nHeight
      requires |vConnect| == tip.nHeight - fork.nHeight
      requires forall i | 0 <= i < |vConnect| :: vConnect[i] == tip.Path()[fork.nHeight + i + 1]
      modifies mapBlockIndex`pnext
      ensures forall b | b in mapBlockIndex :: b.pnext == if OnStretch(tip, fork.nHeight, b) then tip.Path()[b.nHeight + 1] else old(b.pnext)
    {
      hide Closed, BlockIndex.Path, BlockIndex.Linked;
      for i := 0 to |vConnect|
        invariant forall b | b in mapBlockIndex ::
                    b.pnext == if OnStretch(tip, fork.nHeight, b) && b.nHeight < fork.nHeight + i then tip.Path()[b.nHeight + 1] else old(b.pnext)
      {
        var pindex := vConnect[i];
        PathStep(mapBlockIndex, tip, fork.nHeight + i);
        assert pindex == tip.Path()[fork.nHeight + i + 1];
        if pindex.pprev != null {
          pindex.pprev.pnext := pindex;
        }
      }
    }

    /** Reorganize: the memory structure, once the database has it. */
    method Relink(vDisconnect: seq<BlockIndex>, vConnect: seq<BlockIndex>, ghost best: BlockIndex, ghost tip: BlockIndex, ghost fork: BlockIndex)
      requires TreeOk() && best in mapBlockIndex && tip in mapBlockIndex && IsFork(best, tip, fork)
      requires |vDisconnect| == best.nHeight - fork.nHeight && |vConnect| == tip.nHeight - fork.nHeight
      requires forall i | 0 <= i < |vDisconnect| :: vDisconnect[i] == best.Path()[best.nHeight - i]
      requires forall i | 0 <= i < |vConnect| :: vConnect[i] == tip.Path()[fork.nHeight + i + 1]
      modifies mapBlockIndex`pnext
      ensures forall b | b in mapBlockIndex :: b.pnext == NewLink(best, tip, fork, b, old(b.pnext))
    {
      hide AcceptedTo, OnDiskTo, BlockIndex.Path;
      Unlink(vDisconnect, best, fork);
      Link(vConnect, tip, fork);
    }

    /** Connecting a branch off the path, and no more than that, breaks nothing. */
    twostate lemma BranchStaysValid(tip: BlockIndex, new fork: BlockIndex)
      requires old(Valid()) && old(Ahead()) && disk == old(disk) && mapBlockIndex == old(mapBlockIndex) && pindexBest == old(pindexBest)
      requires tip.Linked() && IsFork(pindexBest, tip, fork)
      requires forall c | c in mapBlockIndex ::
                 c.pnext == old(c.pnext) && (!Above(tip, fork, c) ==> c.nMoneySupply == old(c.nMoneySupply))
      ensures Valid()
    {
      hide ConnectsTo, AcceptedTo, OnDiskTo, ReplayTo, Total, BlockIndex.Path;
      forall c | c in mapBlockIndex && On(disk.best, c) ensures Accounted(c) {
        OnOn(pindexBest, disk.best, c);
        assert old(Accounted(c));
      }
    }

    /** A connected branch, with its links, is the best chain. */
    twostate lemma Switches(tip: BlockIndex, new fork: BlockIndex)
      requires old(Valid()) && old(Ahead()) && mapBlockIndex == old(mapBlockIndex) && pindexBest == old(pindexBest)
      requires tip in mapBlockIndex && tip.Linked() && IsFork(pindexBest, tip, fork) && disk.best == tip && fork.nHeight <= old(disk.best.nHeight)
      requires Replays(w, disk.index, tip)
      requires forall c | c in mapBlockIndex :: c.pnext == NewLink(pindexBest, tip, fork, c, old(c.pnext))
      requires forall c | c in mapBlockIndex :: if Above(tip, fork, c) then Accounted(c) else c.nMoneySupply == old(c.nMoneySupply)
      ensures Valid()
    {
      hide ConnectsTo, AcceptedTo, OnDiskTo, ReplayTo, Total, BlockIndex.Path;
      forall c | c in mapBlockIndex ensures c.pnext == Next(tip, c) {
        LinksSwitch(pindexBest, old(disk.best), tip, fork, c);
      }
      OnLower(pindexBest, old(disk.best), fork);
      forall c | c in mapBlockIndex && On(tip, c) ensures Accounted(c) {
        if c.nHeight <= fork.nHeight {
          OnLower(tip, fork, c);
          OnOn(old(disk.best), fork, c);
          assert old(Accounted(c));
        }
      }
    }

    /** The blocks of `v` are those on the path to `tip` above `fork`. */
    lemma BranchBlocks(v: seq<BlockIndex>, tip: BlockIndex, fork: BlockIndex)
      requires TreeOk() && tip in mapBlockIndex
      requires fork.nHeight <= tip.nHeight && |v| == tip.nHeight - fork.nHeight
      requires forall i | 0 <= i < |v| :: v[i] == tip.Path()[fork.nHeight + i + 1]
      ensures forall b :: b in v <==> b in mapBlockIndex && Above(tip, fork, b)
      ensures forall i | 0 <= i < |v| :: Above(tip, fork, v[i])
    {
      hide AcceptedTo, OnDiskTo, BlockIndex.Path, BlockIndex.Linked, Closed;
      forall i | 0 <= i < |v| ensures v[i] in mapBlockIndex && Above(tip, fork, v[i]) {
        PathStep(mapBlockIndex, tip, fork.nHeight + i);
      }
      forall b | Above(tip, fork, b) ensures b in v {
        assert b == v[b.nHeight - fork.nHeight - 1];
      }
    }

    /** Reorganize, on the database: disconnect the one branch and connect the other. */
    method SwitchBranch(vDisconnect: seq<BlockIndex>, vConnect: seq<BlockIndex>, tip: BlockIndex, fork: BlockIndex) returns (ok: bool)
      requires Formed() && batch == Pending(disk) && tip in mapBlockIndex && IsFork(pindexBest, tip, fork) && fork.Linked()
      requires |vDisconnect| == pindexBest.nHeight - fork.nHeight && |vConnect| == tip.nHeight - fork.nHeight
      requires forall i | 0 <= i < |vDisconnect| :: vDisconnect[i] == pindexBest.Path()[pindexBest.nHeight - i]
      requires forall i | 0 <= i < |vConnect| :: vConnect[i] == tip.Path()[fork.nHeight + i + 1]
      modifies this`batch, device, mapBlockIndex`nMint, mapBlockIndex`nMoneySupply
      ensures device.nAccesses >= old(device.nAccesses)
      ensures ok <==> Takes(w, disk.index, pindexBest, tip, fork, pindexBest.nHeight) && device.Worked(old(device.nAccesses), device.nAccesses)
      ensures ok ==> batch == Pending(disk.(index := Moved(disk.index, pindexBest, tip, fork)))
      ensures forall c | c in mapBlockIndex && !Above(tip, fork, c) :: c.nMoneySupply == old(c.nMoneySupply)
      ensures ok && old(Valid()) && old(Ahead()) && Clean(disk, pindexBest, fork) ==>
                Replays(w, batch.db.index, tip) && forall c | c in mapBlockIndex && Above(tip, fork, c) :: Accounted(c)
    {
      hide ConnectsTo, AcceptedTo, OnDiskTo, ReplayTo, BlockConnects, Total, BlockIndex.Path, Accepts, UndoDown, Redo, Accounted, LinksOk, Closed;
      BranchBlocks(vConnect, tip, fork);
      ok := DisconnectBranch(vDisconnect, pindexBest, fork);
      if !ok {
        return;
      }
      if old(Valid()) && old(Ahead()) && Clean(disk, pindexBest, fork) {
        GoodFork(fork);
      }
      ok := ConnectBranch(vConnect, tip, fork);
    }

    /** The fork, once the database is there. */
    lemma GoodFork(fork: BlockIndex)
      requires Valid() && Ahead() && fork.Linked() && On(pindexBest, fork) && Clean(disk, pindexBest, fork)
      requires batch.Pending? && batch.db.index == ReplayTo(fork)
      ensures Good(fork)
    {
      hide ConnectsTo, AcceptedTo, OnDiskTo, ReplayTo, BlockIndex.Path, Total;
      OnLower(pindexBest, disk.best, fork);
      ConnectsBelow(w, disk.best, fork);
      PathInside(mapBlockIndex, pindexBest, fork.nHeight);
      assert Accounted(fork);
    }

    lemma KnownLinked(b: BlockIndex)
      requires TreeOk() && b in mapBlockIndex
      ensures b.Linked()
    {
    }

    /** Reorganize, from the disconnecting on: the database first, and when that is stored, the
        links. */
    method SwitchTo(vDisconnect: seq<BlockIndex>, vConnect: seq<BlockIndex>, tip: BlockIndex, fork: BlockIndex) returns (ok: bool)
      requires Formed() && batch == Pending(disk) && tip in mapBlockIndex && IsFork(pindexBest, tip, fork) && fork.Linked()
      requires |vDisconnect| == pindexBest.nHeight - fork.nHeight && |vConnect| == tip.nHeight - fork.nHeight
      requires forall i | 0 <= i < |vDisconnect| :: vDisconnect[i] == pindexBest.Path()[pindexBest.nHeight - i]
      requires forall i | 0 <= i < |vConnect| :: vConnect[i] == tip.Path()[fork.nHeight + i + 1]
      modifies this`disk, this`batch, device, mapBlockIndex`pnext, mapBlockIndex`nMint, mapBlockIndex`nMoneySupply
      ensures Formed() && device.nAccesses >= old(device.nAccesses)
      ensures ok <==> Takes(w, old(disk.index), pindexBest, tip, fork, pindexBest.nHeight) && device.Worked(old(device.nAccesses), device.nAccesses)
      ensures ok ==> disk == Db(Moved(old(disk.index), pindexBest, tip, fork), tip) && batch == NoBatch
      ensures ok ==> forall c | c in mapBlockIndex :: c.pnext == NewLink(pindexBest, tip, fork, c, old(c.pnext))
      ensures !ok ==> disk == old(disk) && forall c | c in mapBlockIndex :: c.pnext == old(c.pnext)
      ensures old(Valid()) && old(Ahead()) && (ok ==> Clean(old(disk), pindexBest, fork)) ==> Valid()
    {
      hide ConnectsTo, AcceptedTo, OnDiskTo, ReplayTo, BlockIndex.Path, LinksOk, SupplyOk, Accounted, Takes, Moved, Clean, Closed, Redo, Replays, NewLink, IsFork,
           Above, Valid, Ahead, TreeOk;
      KnownLinked(pindexBest);
      KnownLinked(tip);
      ok := SwitchBranch(vDisconnect, vConnect, tip, fork);
      if ok {
        ok := device.Access();
      }
      if ok {
        disk, batch := batch.db.(best := tip), NoBatch;
        Relink(vDisconnect, vConnect, pindexBest, tip, fork);
        if old(Valid()) && old(Ahead()) && Clean(old(disk), pindexBest, fork) {
          ForkBelow(old(disk), pindexBest, fork);
          Switches(tip, fork);
        }
      } else if old(Valid()) && old(Ahead()) {
        BranchStaysValid(tip, fork);
      }
    }

    /** Reorganize: move the database and the links from the best chain to the one that ends
        at `tip`, in the transaction that the caller began.  It disconnects the blocks of the best
        chain in memory, also where the database is below them. */
    method Reorganize(tip: BlockIndex) returns (ok: bool, fork: BlockIndex?)
      requires Formed() && batch == Pending(disk) && tip in mapBlockIndex
      modifies this`disk, this`batch, device, mapBlockIndex`pnext, mapBlockIndex`nMint, mapBlockIndex`nMoneySupply
      ensures Formed() && device.nAccesses >= old(device.nAccesses)
      ensures if fork == null then Disjoint(pindexBest, tip) else fork.Linked() && IsFork(pindexBest, tip, fork)
      ensures ok <==> fork != null && Takes(w, old(disk.index), pindexBest, tip, fork, pindexBest.nHeight) && device.Worked(old(device.nAccesses), device.nAccesses)
      ensures ok ==> disk == Db(Moved(old(disk.index), pindexBest, tip, fork), tip) && batch == NoBatch
      ensures ok ==> forall c | c in mapBlockIndex :: c.pnext == NewLink(pindexBest, tip, fork, c, old(c.pnext))
      ensures !ok ==> disk == old(disk) && forall c | c in mapBlockIndex :: c.pnext == old(c.pnext)
      ensures old(Valid()) && old(Ahead()) && (ok ==> Clean(old(disk), pindexBest, fork)) ==> Valid()
    {
      hide ConnectsTo, AcceptedTo, OnDiskTo, ReplayTo, BlockIndex.Path, LinksOk, SupplyOk, Accounted, Takes, Moved, Clean, Redo, Replays, NewLink;
      fork := FindFork(pindexBest, tip);
      if fork == null {
        return false, fork;
      }
      PathInside(mapBlockIndex, tip, fork.nHeight);
      var vDisconnect := CollectDown(pindexBest, fork);
      var vConnect := CollectUp(tip, fork);
      ok := SwitchTo(vDisconnect, vConnect, tip, fork);
    }

    /** The blocks of the way to `tip` above where the database is: each connects on what the ones
        below it leave, as far as the database has come, and the next one does not. */
    ghost predicate Advanced(ix: Index, low: BlockIndex, tip: BlockIndex, worked: bool)
      requires tip.Linked()
      reads this`disk, this`pindexBest
    {
      && On(tip, disk.best) && disk.best.Linked() && low.nHeight <= disk.best.nHeight
      && disk.index == Redo(ix, disk.best, low.nHeight)
      && Accepts(w, ix, disk.best, low.nHeight, pindexBest.nHeight)
      && (worked ==> disk.best == tip || NextStops(tip, pindexBest.nHeight))
    }

    /** The block above the one that the database is at does not connect to it. */
    ghost predicate NextStops(tip: BlockIndex, nBestHeight: int)
      requires tip.Linked()
      reads this`disk
    {
      && disk.best.nHeight < tip.nHeight
      && var next := tip.Path()[disk.best.nHeight + 1]; next.Linked() && !BlockConnects(w, disk.index, next, nBestHeight)
    }

    /** SetBestChain, for the blocks whose connecting was postponed: one transaction each, up to
        the first that fails. */
    method ConnectPostponed(vpindexSecondary: seq<BlockIndex>, tip: BlockIndex)
      requires Formed() && batch == NoBatch && tip in mapBlockIndex && On(tip, disk.best)
      requires |vpindexSecondary| == tip.nHeight - disk.best.nHeight
      requires forall i | 0 <= i < |vpindexSecondary| :: vpindexSecondary[i] == tip.Path()[disk.best.nHeight + i + 1]
      modifies this`disk, this`batch, device, mapBlockIndex`pnext, mapBlockIndex`nMint, mapBlockIndex`nMoneySupply
      ensures Formed() && batch == NoBatch && device.nAccesses >= old(device.nAccesses)
      ensures Advanced(old(disk.index), old(disk.best), tip, device.Worked(old(device.nAccesses), device.nAccesses))
      ensures old(Valid()) ==> Valid()
    {
      hide ConnectsTo, AcceptedTo, OnDiskTo, ReplayTo, BlockConnects, BlockIndex.Path, BlockIndex.Linked,
           LinksOk, SupplyOk, Describes, Closed, ConnectAll, Valid, Redo, Accepts;
      ghost var low, ix := disk.best.nHeight, disk.index;
      NothingAbove(w, ix, disk.best, pindexBest.nHeight);
      for i := 0 to |vpindexSecondary|
        invariant Formed() && batch == NoBatch && (old(Valid()) ==> Valid())
        invariant device.nAccesses >= old(device.nAccesses) && device.Worked(old(device.nAccesses), device.nAccesses)
        invariant disk.best.nHeight == low + i && tip.Path()[low + i] == disk.best
        invariant disk.index == Redo(ix, disk.best, low) && Accepts(w, ix, disk.best, low, pindexBest.nHeight)
      {
        var pindex := vpindexSecondary[i];
        assert TreeOk();
        PathStep(mapBlockIndex, tip, low + i);
        assert pindex == tip.Path()[low + i + 1];
        OneAbove(w, ix, pindex, low, pindexBest.nHeight);
        var ok := device.Access();
        if !ok {
          return;
        }
        batch := Pending(disk);
        ghost var before := device.nAccesses;
        ok := SetBestChainInner(pindex);
        if !ok {
          return;
        }
      }
      AtTip(tip, disk.best);
    }

    /** SetBestChain: the blocks above are to be connected afterwards. */
    method FindIntermediate(tip: BlockIndex) returns (pindexIntermediate: BlockIndex)
      requires tip.Linked()
      ensures IsIntermediate(tip, pindexIntermediate, pindexBest.nChainTrust)
    {
      pindexIntermediate := tip;
      while pindexIntermediate.pprev != null && pindexIntermediate.pprev.nChainTrust > pindexBest.nChainTrust
        invariant On(tip, pindexIntermediate) && pindexIntermediate.Linked()
        invariant forall h: nat | pindexIntermediate.nHeight <= h < tip.nHeight :: tip.Path()[h].nChainTrust > pindexBest.nChainTrust
        decreases pindexIntermediate.nHeight
      {
        Parent(tip, pindexIntermediate);
        pindexIntermediate := pindexIntermediate.pprev;
      }
    }

    /** The database is on the way from the fork to `b`, at `first` or above, as disconnecting and
        connecting brings it there. */
    ghost predicate Landed(ix: Index, best: BlockIndex, b: BlockIndex, first: BlockIndex, fork: BlockIndex, nBestHeight: int)
      requires best.Linked() && b.Linked()
      reads this`disk
    {
      && On(b, disk.best) && disk.best.Linked() && first.nHeight <= disk.best.nHeight
      && disk.index == Moved(ix, best, disk.best, fork)
      && Takes(w, ix, best, disk.best, fork, nBestHeight)
    }

    /** SetBestChain, where `b` is not on top of the best block: reorganize as far as needed to be the
        heavier chain, and connect the rest one by one. */
    method ReorganizeFar(b: BlockIndex) returns (ok: bool, ghost first: BlockIndex, ghost fork: BlockIndex?)
      requires Formed() && batch == NoBatch && b in mapBlockIndex && b.Linked() && pindexBest.Linked() && b.pprev != pindexBest
      modifies this`disk, this`batch, device, mapBlockIndex`pnext, mapBlockIndex`nMint, mapBlockIndex`nMoneySupply
      ensures Formed() && batch == NoBatch && device.nAccesses >= old(device.nAccesses)
      ensures Route(pindexBest, b, first, fork)
      ensures ok ==> fork != null && Landed(old(disk.index), pindexBest, b, first, fork, pindexBest.nHeight)
      ensures !ok ==> disk == old(disk) && forall c | c in mapBlockIndex :: c.pnext == old(c.pnext)
      ensures device.Worked(old(device.nAccesses), device.nAccesses) ==>
                && (ok <==> fork != null && Takes(w, old(disk.index), pindexBest, first, fork, pindexBest.nHeight))
                && (ok ==> disk.best == b || NextStops(b, pindexBest.nHeight))
      ensures old(Valid()) && old(Ahead()) && (ok ==> fork != null && Clean(old(disk), pindexBest, fork)) ==> Valid()
    {
      hide ConnectsTo, AcceptedTo, OnDiskTo, ReplayTo, BlockConnects, BlockIndex.Path, LinksOk, SupplyOk, Describes, ConnectAll,
           Redo, Accepts, Takes, Moved, Clean, IsFork, Disjoint, Valid, Ahead, NewLink, NextStops, TreeOk, BlockIndex.Linked;
      batch := Pending(disk);
      var pindexIntermediate := FindIntermediate(b);
      first := pindexIntermediate;
      KnownBelow(b, first);
      var vpindexSecondary := CollectUp(b, pindexIntermediate);
      var at;
      ok, at := Reorganize(pindexIntermediate);
      fork := at;
      if !ok {
        batch := NoBatch;
        return;
      }
      ghost var index := disk.index;
      ConnectPostponed(vpindexSecondary, b);
      AdvancedLands(old(disk.index), pindexBest, b, first, fork, index, disk, pindexBest.nHeight);
    }

    lemma KnownBelow(b: BlockIndex, c: BlockIndex)
      requires TreeOk() && b in mapBlockIndex && b.Linked() && On(b, c)
      ensures c in mapBlockIndex
    {
      PathInside(mapBlockIndex, b, c.nHeight);
    }

    /** Connecting the rest goes on where reorganizing ended. */
    lemma AdvancedLands(ix: Index, best: BlockIndex, b: BlockIndex, first: BlockIndex, fork: BlockIndex, index: Index, db: Db, nBestHeight: int)
      requires best.Linked() && b.Linked() && On(b, first) && first.Linked() && IsFork(best, first, fork) && fork.Linked()
      requires Takes(w, ix, best, first, fork, nBestHeight) && index == Moved(ix, best, first, fork)
      requires On(b, db.best) && db.best.Linked() && first.nHeight <= db.best.nHeight
      requires db.index == Redo(index, db.best, first.nHeight) && Accepts(w, index, db.best, first.nHeight, nBestHeight)
      ensures db.index == Moved(ix, best, db.best, fork) && Takes(w, ix, best, db.best, fork, nBestHeight)
    {
      hide BlockConnects, BlockIndex.Path, BlockIndex.Linked, UndoDown, Redo, Accepts;
      var u := UndoDown(ix, best, fork.nHeight).ix;
      OnLower(b, db.best, first);
      RedoOn(u, db.best, first, fork.nHeight);
      AcceptsOn(w, u, db.best, first, fork.nHeight, nBestHeight);
    }

    /** SetBestChain, with the outcome of switching the database: make `b` the best block by
        connecting it, or by reorganizing to the chain it ends. */
    method ExtendOrReorganize(b: BlockIndex) returns (ok: bool, ghost first: BlockIndex, ghost fork: BlockIndex?)
      requires Formed() && batch == NoBatch && b in mapBlockIndex && b.pprev != null && b.Linked() && pindexBest.Linked()
      modifies this`disk, this`batch, device, mapBlockIndex`pnext, mapBlockIndex`nMint, mapBlockIndex`nMoneySupply
      ensures Formed() && batch == NoBatch && device.nAccesses >= old(device.nAccesses)
      ensures b.pprev == pindexBest && ok ==> device.nAccesses > old(device.nAccesses) && device.Worked(old(device.nAccesses), device.nAccesses)
      ensures Route(pindexBest, b, first, fork)
      ensures ok ==> fork != null && Landed(old(disk.index), pindexBest, b, first, fork, pindexBest.nHeight)
      ensures !ok ==> disk == old(disk) && forall c | c in mapBlockIndex :: c.pnext == old(c.pnext)
      ensures device.Worked(old(device.nAccesses), device.nAccesses) ==>
                && (ok <==> fork != null && Takes(w, old(disk.index), pindexBest, first, fork, pindexBest.nHeight))
                && (ok ==> disk.best == b || NextStops(b, pindexBest.nHeight))
      ensures old(Valid()) && old(Ahead()) && (ok ==> fork != null && Clean(old(disk), pindexBest, fork)) ==> Valid()
    {
      hide ConnectsTo, AcceptedTo, OnDiskTo, ReplayTo, BlockConnects, BlockIndex.Path, LinksOk, SupplyOk, Describes, ConnectAll,
           Redo, Accepts, Takes, Moved, Clean, IsFork, Disjoint, Valid, NewLink, NextStops, TreeOk, BlockIndex.Linked, IsIntermediate, Ahead, On;
      if b.pprev == pindexBest {
        first, fork := b, pindexBest;
        ExtensionRoute(w, disk.index, pindexBest, b, pindexBest.nHeight);
        ExtensionClean();
        batch := Pending(disk);
        ok := SetBestChainInner(b);
      } else {
        ok, first, fork := ReorganizeFar(b);
      }
    }

    /** A block on top of the best one is not on the path of the database's, and follows it only if
        that is the same. */
    lemma ExtensionClean()
      requires pindexBest.Linked()
      ensures Ahead() && Clean(disk, pindexBest, pindexBest) ==> pindexBest == disk.best
      ensures Ahead() ==> forall b: BlockIndex :: b.pprev == pindexBest && b.Linked() ==> disk.best.Linked() && !On(disk.best, b)
    {
      if Ahead() {
        OnBelow(pindexBest, disk.best);
      }
    }

    /** CBlock::SetBestChain, for any block but the genesis block.  Also when a postponed block
        does not connect, `b` is recorded as the best block: then the database is left at a
        lower block of the same chain.  Called in such a state, it disconnects blocks that were
        never connected, or connects on top of the gap. */
    method SetBestChain(b: BlockIndex) returns (ok: bool, ghost first: BlockIndex, ghost fork: BlockIndex?)
      requires Formed() && batch == NoBatch && b in mapBlockIndex && b.pprev != null && b.Linked() && pindexBest.Linked()
      modifies this`disk, this`batch, this`pindexBest, device, mapBlockIndex`pnext, mapBlockIndex`nMint, mapBlockIndex`nMoneySupply
      ensures Formed() && batch == NoBatch && device.nAccesses >= old(device.nAccesses)
      ensures Route(old(pindexBest), b, first, fork)
      ensures ok ==> pindexBest == b && fork != null && Landed(old(disk.index), old(pindexBest), b, first, fork, old(pindexBest.nHeight))
      ensures !ok ==> pindexBest == old(pindexBest) && disk == old(disk) && forall c | c in mapBlockIndex :: c.pnext == old(c.pnext)
      ensures b.pprev == old(pindexBest) && ok ==> device.nAccesses > old(device.nAccesses) && device.Worked(old(device.nAccesses), device.nAccesses)
      ensures device.Worked(old(device.nAccesses), device.nAccesses) ==>
                && (ok <==> fork != null && Takes(w, old(disk.index), old(pindexBest), first, fork, old(pindexBest.nHeight)))
                && (ok && disk.best == b <==> fork != null && Takes(w, old(disk.index), old(pindexBest), b, fork, old(pindexBest.nHeight)))
                && (ok ==> disk.best == b || NextStops(b, old(pindexBest.nHeight)))
      ensures old(Valid()) && old(Ahead()) ==>
                && Ahead() && (!ok ==> Valid())
                && (ok ==> (Valid() <==> Describes(disk)) && (Describes(disk) <==> Clean(old(disk), old(pindexBest), fork)))
      ensures old(Valid()) && old(Ahead()) && ok && b.pprev == old(pindexBest) ==> (Describes(disk) <==> old(pindexBest == disk.best))
      ensures old(Valid()) && old(pindexBest == disk.best) ==>
                && Valid()
                && (device.Worked(old(device.nAccesses), device.nAccesses) ==>
                      (ok && disk.best == b <==> fork != null && ConnectsAbove(w, fork, b, old(pindexBest.nHeight))))
    {
      hide ConnectsTo, AcceptedTo, OnDiskTo, ReplayTo, BlockConnects, BlockIndex.Path, LinksOk, SupplyOk, ConnectAll, ConnectsAbove,
           Redo, Accepts, Takes, Moved, Clean, IsFork, Disjoint, NewLink, NextStops, BlockIndex.Linked, IsIntermediate, Closed, Replays, Route, On,
           Landed, Above, Good, TreeOk;
      ghost var db, best := disk, pindexBest;
      OnItself(best);
      ok, first, fork := ExtendOrReorganize(b);
      if fork != null {
        RouteFork(best, b, first, fork);
        TakesLess(w, db.index, best, b, first, fork, best.nHeight);
      }
      if ok {
        Arrives(db, best, b, first, fork);
        pindexBest := b;
      }
      if old(Valid()) && old(Ahead()) {
        CleanOnTop(w, db, best);
        RouteOnTop(best, b, first, fork);
      }
      if old(Valid()) && best == db.best && fork != null {
        KnownAccepted(best);
        TakesOnChain(w, db, b, fork, best.nHeight);
      }
    }

    lemma KnownAccepted(b: BlockIndex)
      requires TreeOk() && b in mapBlockIndex
      ensures b.Linked() && AcceptedTo(b)
    {
    }

    /** Where SetBestChain has brought the database. */
    lemma Arrives(db: Db, best: BlockIndex, b: BlockIndex, first: BlockIndex, fork: BlockIndex)
      requires Formed() && best.Linked() && b.Linked() && Route(best, b, first, fork) && Landed(db.index, best, b, first, fork, best.nHeight)
      requires db.best in mapBlockIndex
      ensures On(b, disk.best)
      ensures disk.best == b ==> Takes(w, db.index, best, b, fork, best.nHeight)
      ensures NextStops(b, best.nHeight) ==> !Takes(w, db.index, best, b, fork, best.nHeight)
      ensures db.best.Linked() && Replays(w, db.index, db.best) && On(best, db.best) ==>
                fork.Linked() && (Describes(disk) <==> Clean(db, best, fork))
    {
      hide ConnectsTo, AcceptedTo, ReplayTo, BlockConnects, BlockIndex.Path, Takes, Moved, Clean, IsFork, IsIntermediate, On, Replays, BlockIndex.Linked, Closed, Disjoint;
      RouteFork(best, b, first, fork);
      OnHeights(first, fork);
      OnLower(b, disk.best, fork);
      if NextStops(b, best.nHeight) {
        StopsTaking(w, db.index, best, b, fork, disk, best.nHeight);
      }
      if db.best.Linked() && Replays(w, db.index, db.best) && On(best, db.best) {
        KnownAccepted(disk.best);
        KnownAccepted(db.best);
        DescribesIff(w, db, best, fork, disk.best, best.nHeight);
      }
    }

    /** CBlock::AddToBlockIndex: a new accepted block, which becomes the best one if its chain is
        the heaviest.  That it is known is written first. */
    method AddToBlockIndex(b: BlockIndex) returns (ok: bool, ghost first: BlockIndex, ghost fork: BlockIndex?)
      requires Formed() && batch == NoBatch
      requires b !in mapBlockIndex && b.pprev in mapBlockIndex && b.pnext == null
      requires b.Linked() && AcceptedTo(b) && OnDiskTo(w, b) && pindexBest.Linked()
      modifies this`disk, this`batch, this`pindexBest, this`mapBlockIndex, device,
               mapBlockIndex`pnext, mapBlockIndex`nMint, mapBlockIndex`nMoneySupply, b
      ensures Formed() && batch == NoBatch && mapBlockIndex == old(mapBlockIndex) + {b} && device.nAccesses >= old(device.nAccesses)
      ensures b.nChainTrust > old(pindexBest).nChainTrust && (ok || device.Worked(old(device.nAccesses), device.nAccesses)) ==> Route(old(pindexBest), b, first, fork)
      ensures !device.works(old(device.nAccesses)) ==> !ok && device.nAccesses == old(device.nAccesses) + 1
      ensures pindexBest != old(pindexBest) ==> pindexBest == b && b.nChainTrust > old(pindexBest).nChainTrust
      ensures b.nChainTrust > old(pindexBest).nChainTrust && device.Worked(old(device.nAccesses), device.nAccesses) ==>
                (fork != null && Takes(w, old(disk.index), old(pindexBest), first, fork, old(pindexBest.nHeight)) ==> pindexBest == b)
      ensures ok && Heaviest(old(mapBlockIndex), old(pindexBest)) ==> Heaviest(mapBlockIndex, pindexBest)
      ensures b.nChainTrust <= old(pindexBest).nChainTrust ==> disk == old(disk) && pindexBest == old(pindexBest) && (ok <==> device.Worked(old(device.nAccesses), device.nAccesses))
      ensures b.nChainTrust > old(pindexBest).nChainTrust ==>
                if ok then pindexBest == b && fork != null && Landed(old(disk.index), old(pindexBest), b, first, fork, old(pindexBest.nHeight))
                else pindexBest == old(pindexBest) && disk == old(disk)
      ensures b.nChainTrust > old(pindexBest).nChainTrust && b.pprev == old(pindexBest) && ok ==>
                device.nAccesses > old(device.nAccesses) + 1 && device.Worked(old(device.nAccesses), device.nAccesses)
      ensures b.nChainTrust > old(pindexBest).nChainTrust && device.Worked(old(device.nAccesses), device.nAccesses) ==>
                && (ok <==> fork != null && Takes(w, old(disk.index), old(pindexBest), first, fork, old(pindexBest.nHeight)))
                && (ok && disk.best == b <==> fork != null && Takes(w, old(disk.index), old(pindexBest), b, fork, old(pindexBest.nHeight)))
                && (ok ==> disk.best == b || NextStops(b, old(pindexBest.nHeight)))
      ensures old(Valid()) && old(Ahead()) ==>
                && Ahead() && (!ok || b.nChainTrust <= old(pindexBest).nChainTrust ==> Valid())
                && (ok && b.nChainTrust > old(pindexBest).nChainTrust ==> (Valid() <==> Describes(disk)) && (Describes(disk) <==> Clean(old(disk), old(pindexBest), fork)))
      ensures old(Valid()) && old(Ahead()) && ok && b.nChainTrust > old(pindexBest).nChainTrust && b.pprev == old(pindexBest) ==> (Describes(disk) <==> old(pindexBest == disk.best))
      ensures old(Valid()) && old(pindexBest == disk.best) ==>
                && Valid()
                && (b.nChainTrust > old(pindexBest).nChainTrust && device.Worked(old(device.nAccesses), device.nAccesses) ==>
                      (ok && disk.best == b <==> fork != null && ConnectsAbove(w, fork, b, old(pindexBest.nHeight))))
    {
      hide ConnectsTo, AcceptedTo, OnDiskTo, ReplayTo, BlockConnects, BlockIndex.Path, LinksOk, SupplyOk, ConnectsAbove,
           Takes, Clean, Disjoint, Replays, Route, On, Landed, Valid, Ahead;
      first, fork := b, null;
      mapBlockIndex := mapBlockIndex + {b};
      GrowsFormed(b);
      if old(Valid()) {
        Grows(b);
      }
      ok := device.Access();
      if ok && b.nChainTrust > pindexBest.nChainTrust {
        ok, first, fork := SetBestChain(b);
      }
    }

    twostate lemma GrowsFormed(b: BlockIndex)
      requires old(Formed()) && disk == old(disk) && pindexBest == old(pindexBest) && mapBlockIndex == old(mapBlockIndex) + {b}
      requires b.pprev in mapBlockIndex && b.Linked() && AcceptedTo(b) && OnDiskTo(w, b)
      ensures Formed()
    {
    }

    /** A block that nothing leads to yet breaks nothing. */
    twostate lemma Grows(b: BlockIndex)
      requires old(Valid()) && disk == old(disk) && pindexBest == old(pindexBest) && mapBlockIndex == old(mapBlockIndex) + {b}
      requires b !in old(mapBlockIndex) && b.pprev in mapBlockIndex && b.pnext == null
      requires b.Linked() && AcceptedTo(b) && OnDiskTo(w, b)
      requires forall c | c in old(mapBlockIndex) :: c.pnext == old(c.pnext) && c.nMoneySupply == old(c.nMoneySupply)
      ensures Valid()
    {
      hide ConnectsTo, AcceptedTo, OnDiskTo, ReplayTo, Total, BlockIndex.Path;
      if b.nHeight <= disk.best.nHeight {
        PathInside(old(mapBlockIndex), disk.best, b.nHeight);
      }
    }

    /** What holds in every valid state: the index spends no output twice, marks exactly
        what the chain has spent, and is worth what the best block says; and if the chain has its
        coinstakes where they belong, it has not issued more than its limit. */
    lemma BestChainIsSound()
      requires Valid()
      ensures Distinct(SpentOutPoints(disk.best)) && Marked(disk.index, SpentOutPoints(disk.best))
      ensures Replay.Describes(disk.index, TxsTo(disk.best))
      ensures disk.best.nMoneySupply == Total(w, disk.index)
      ensures NoStrayTo(disk.best) ==> Total(w, disk.index) <= SupplyLimit(disk.best.nHeight)
    {
      NoDoubleSpend(w, disk.best);
      ChainIsFresh(w, disk.best);
      assert Accounted(disk.best);
      if NoStrayTo(disk.best) {
        SupplyBound(w, disk.best);
      }
    }
  }

  /** No known block has more trust. */
  ghost predicate Heaviest(known: set<BlockIndex>, best: BlockIndex) {
    forall c | c in known :: c.nChainTrust <= best.nChainTrust
  }

  /** `b` lies on the path to `tip`, at height `low` or higher but below the tip. */
  ghost predicate OnStretch(tip: BlockIndex, low: int, b: BlockIndex)
    requires tip.Linked()
  {
    low <= b.nHeight < tip.nHeight && tip.Path()[b.nHeight] == b
  }

  /** Where the link of a block leads after a switch. */
  ghost function NewLink(best: BlockIndex, tip: BlockIndex, fork: BlockIndex, b: BlockIndex, was: BlockIndex?): BlockIndex?
    requires best.Linked() && tip.Linked()
  {
    if OnStretch(tip, fork.nHeight, b) then tip.Path()[b.nHeight + 1]
    else if OnStretch(best, fork.nHeight, b) then null
    else was
  }

  /** From an index, disconnecting the blocks down from `best` to the fork and connecting those on
      the way to `tip` succeeds. */
  ghost predicate Takes(w: World, ix: Index, best: BlockIndex, tip: BlockIndex, fork: BlockIndex, nBestHeight: int)
    requires best.Linked() && tip.Linked()
  {
    var u := UndoDown(ix, best, fork.nHeight);
    u.Undone? && Accepts(w, u.ix, tip, fork.nHeight, nBestHeight)
  }

  /** What that gives. */
  ghost function Moved(ix: Index, best: BlockIndex, tip: BlockIndex, fork: BlockIndex): Index
    requires best.Linked() && tip.Linked()
  {
    var u := UndoDown(ix, best, fork.nHeight);
    if u.Undone? then Redo(u.ix, tip, fork.nHeight) else ix
  }

  /** Disconnecting the blocks from `best` down gives the index of the fork. */
  ghost predicate Clean(db: Db, best: BlockIndex, fork: BlockIndex)
    requires best.Linked() && fork.Linked()
  {
    fork.nHeight <= db.best.nHeight && UndoDown(db.index, best, fork.nHeight) == Undone(ReplayTo(fork))
  }

  /** Cutting the old branch and linking the new one gives the links of the new path, when the links
      led to a block between the fork and the old tip. */
  lemma LinksSwitch(best: BlockIndex, d: BlockIndex, tip: BlockIndex, fork: BlockIndex, b: BlockIndex)
    requires best.Linked() && tip.Linked() && d.Linked() && IsFork(best, tip, fork) && On(best, d) && fork.nHeight <= d.nHeight
    ensures Next(tip, b) == if OnStretch(tip, fork.nHeight, b) then tip.Path()[b.nHeight + 1]
                            else if OnStretch(best, fork.nHeight, b) then null else Next(d, b)
  {
    OnLower(best, d, fork);
    PathPrefix(best, d.nHeight);
    if b.nHeight < fork.nHeight {
      PathsMeet(best, tip, fork.nHeight, b.nHeight);
      PathsMeet(best, tip, fork.nHeight, b.nHeight + 1);
    }
  }

  /** How far down the way to `tip` to reorganize, so that the new chain is already the heavier
      one. */
  ghost predicate IsIntermediate(tip: BlockIndex, first: BlockIndex, nBestTrust: nat)
    requires tip.Linked()
  {
    && On(tip, first) && first.Linked()
    && (first.pprev != null ==> first.pprev.nChainTrust <= nBestTrust)
    && forall h: nat | first.nHeight <= h < tip.nHeight :: tip.Path()[h].nChainTrust > nBestTrust
  }

  /** What is reorganized to, and where it forks off: the block itself on top of the best one. */
  ghost predicate Route(best: BlockIndex, b: BlockIndex, first: BlockIndex, fork: BlockIndex?)
    requires b.Linked() && best.Linked()
  {
    && On(b, first) && first.Linked()
    && (if b.pprev == best then first == b && fork == best else IsIntermediate(b, first, best.nChainTrust))
    && if fork == null then Disjoint(best, first) else fork.Linked() && IsFork(best, first, fork)
  }

  lemma RouteFork(best: BlockIndex, b: BlockIndex, first: BlockIndex, fork: BlockIndex)
    requires b.Linked() && best.Linked() && Route(best, b, first, fork)
    ensures fork.Linked() && On(best, fork) && On(b, fork) && On(b, first) && first.Linked() && On(first, fork)
  {
    OnOn(b, first, fork);
  }

  /** From where the database agrees with the best block in memory: disconnecting is clean, and the
      branch is taken exactly when its blocks connect on the chain. */
  lemma TakesOnChain(w: World, db: Db, b: BlockIndex, fork: BlockIndex, nBestHeight: int)
    requires db.best.Linked() && Replays(w, db.index, db.best) && AcceptedTo(db.best)
    requires b.Linked() && On(db.best, fork) && On(b, fork) && fork.Linked()
    ensures Clean(db, db.best, fork)
    ensures Takes(w, db.index, db.best, b, fork, nBestHeight) <==> ConnectsAbove(w, fork, b, nBestHeight)
  {
    hide ConnectsTo, AcceptedTo, ReplayTo, UndoDown, Accepts, ConnectsAbove;
    UndoReplay(w, db.best, fork);
    AcceptsReplay(w, fork, b, nBestHeight);
  }

  /** Nothing to disconnect is clean only where the database is at that very block. */
  lemma CleanOnTop(w: World, db: Db, best: BlockIndex)
    requires best.Linked() && db.best.Linked() && On(best, db.best) && Replays(w, db.index, db.best)
    ensures Clean(db, best, best) <==> best == db.best
  {
    hide ConnectsTo, ReplayTo;
    OnBelow(best, db.best);
  }

  lemma RouteOnTop(best: BlockIndex, b: BlockIndex, first: BlockIndex, fork: BlockIndex?)
    requires best.Linked() && b.Linked() && Route(best, b, first, fork)
    ensures b.pprev == best ==> first == b && fork == best
  {
  }

  /** A chain that is connected from a database below the best block in memory is described exactly
      when that database had the fork, and the blocks it had not did no damage to it. */
  lemma DescribesIff(w: World, db: Db, best: BlockIndex, fork: BlockIndex, e: BlockIndex, nBestHeight: int)
    requires db.best.Linked() && Replays(w, db.index, db.best) && AcceptedTo(db.best)
    requires best.Linked() && On(best, db.best) && On(best, fork) && fork.Linked() && e.Linked() && On(e, fork) && AcceptedTo(e)
    requires Takes(w, db.index, best, e, fork, nBestHeight)
    ensures Replays(w, Moved(db.index, best, e, fork), e) <==> Clean(db, best, fork)
    ensures Clean(db, best, fork) <==>
            fork.nHeight <= db.best.nHeight && Harmless(ReplayTo(fork), Freed(best, db.best.nHeight), Erased(best, db.best.nHeight))
  {
    hide ConnectsTo, AcceptedTo, ReplayTo, UndoDown, Redo, Accepts, Harmless, Damaged;
    var d, u := db.best, UndoDown(db.index, best, fork.nHeight).ix;
    if fork.nHeight <= d.nHeight {
      var os, hs := Freed(best, d.nHeight), Erased(best, d.nHeight);
      UndoFromBelow(w, best, d, fork);
      DamagedNot(ReplayTo(fork), os, hs);
      OnLower(best, d, fork);
      ConnectsBelow(w, d, fork);
      DamageStays(w, fork, e, os, hs, nBestHeight);
    } else {
      UndoDamages(db.index, best, fork.nHeight);
      DamagedKeys(db.index, Freed(best, fork.nHeight), Erased(best, fork.nHeight));
      OnLower(best, fork, d);
      GapStays(w, u, d, fork, e);
    }
  }

  lemma DamagedKeys(ix: Index, os: set<OutPoint>, hs: set<Txid>)
    ensures Damaged(ix, os, hs).Keys <= ix.Keys
  {
  }

  lemma OnItself(a: BlockIndex)
    requires a.Linked()
    ensures On(a, a)
  {
  }

  lemma OnHeights(a: BlockIndex, b: BlockIndex)
    requires a.Linked() && On(a, b)
    ensures b.nHeight <= a.nHeight
  {
  }

  /** A branch that is taken is taken as far as one likes. */
  lemma TakesLess(w: World, ix: Index, best: BlockIndex, b: BlockIndex, first: BlockIndex, fork: BlockIndex, nBestHeight: int)
    requires best.Linked() && b.Linked() && first.Linked() && On(b, first)
    ensures Takes(w, ix, best, b, fork, nBestHeight) ==> Takes(w, ix, best, first, fork, nBestHeight)
  {
    hide UndoDown, Accepts, BlockIndex.Path;
    if Takes(w, ix, best, b, fork, nBestHeight) {
      AcceptsBelow(w, UndoDown(ix, best, fork.nHeight).ix, b, first, fork.nHeight, nBestHeight);
    }
  }

  /** And not beyond a block that does not connect. */
  lemma StopsTaking(w: World, ix: Index, best: BlockIndex, b: BlockIndex, fork: BlockIndex, db: Db, nBestHeight: int)
    requires best.Linked() && b.Linked() && db.best.Linked() && On(b, db.best) && db.best.nHeight < b.nHeight && fork.nHeight <= db.best.nHeight
    requires Takes(w, ix, best, db.best, fork, nBestHeight) && db.index == Moved(ix, best, db.best, fork)
    requires var next := b.Path()[db.best.nHeight + 1]; next.Linked() && !BlockConnects(w, db.index, next, nBestHeight)
    ensures !Takes(w, ix, best, b, fork, nBestHeight)
  {
    hide BlockConnects, UndoDown, Accepts, Redo;
    var u, next := UndoDown(ix, best, fork.nHeight).ix, b.Path()[db.best.nHeight + 1];
    NextOn(b, db.best);
    OneAbove(w, u, next, fork.nHeight, nBestHeight);
    StopsAccepting(w, u, b, next, fork.nHeight, nBestHeight);
  }

  lemma NextOn(b: BlockIndex, d: BlockIndex)
    requires b.Linked() && On(b, d) && d.nHeight < b.nHeight
    ensures var next := b.Path()[d.nHeight + 1]; next.Linked() && On(b, next) && next.pprev == d && next.nHeight == d.nHeight + 1
  {
    PathPrefix(b, d.nHeight);
    PathPrefix(b, d.nHeight + 1);
    assert b.Path()[..d.nHeight + 2][d.nHeight] == d;
  }

  /** Going to a block from the one before it. */
  lemma ExtensionRoute(w: World, ix: Index, best: BlockIndex, b: BlockIndex, nBestHeight: int)
    requires best.Linked() && b.Linked() && b.pprev == best
    ensures On(b, b) && IsFork(best, b, best)
    ensures Takes(w, ix, best, b, best, nBestHeight) <==> BlockConnects(w, ix, b, nBestHeight)
    ensures Moved(ix, best, b, best) == ConnectAll(ix, b)
  {
    hide BlockConnects, ConnectAll;
    NothingAbove(w, ix, best, nBestHeight);
    OneAbove(w, ix, b, best.nHeight, nBestHeight);
  }

  lemma ForkBelow(db: Db, best: BlockIndex, fork: BlockIndex)
    requires best.Linked() && fork.Linked() && Clean(db, best, fork)
    ensures fork.nHeight <= db.best.nHeight
  {
  }

  lemma OnOn(a: BlockIndex, b: BlockIndex, c: BlockIndex)
    requires a.Linked() && On(a, b) && b.Linked() && On(b, c)
    ensures On(a, c)
  {
    PathPrefix(a, b.nHeight);
    assert a.Path()[..b.nHeight + 1][c.nHeight] == c;
  }

  lemma OnDiskHere(w: World, b: BlockIndex)
    requires b.Linked() && b.pprev != null && OnDiskTo(w, b)
    ensures b.OnDisk(w)
  {
  }

  /** Connecting a block keeps the chain replayed and its supply accounted for. */
  lemma StepUp(w: World, b: BlockIndex, nBestHeight: int)
    requires b.Linked() && b.pprev != null && ConnectsTo(w, b.pprev) && b.OnDisk(w)
    requires BlockConnects(w, ReplayTo(b.pprev), b, nBestHeight)
    ensures ConnectsTo(w, b) && ReplayTo(b) == ConnectAll(ReplayTo(b.pprev), b)
    ensures var t := TotalsUpTo(w, ReplayTo(b.pprev), b, |b.block.vtx|);
            Total(w, ReplayTo(b)) == Total(w, ReplayTo(b.pprev)) + t.nValueOut - t.nValueIn
  {
    BlockTotal(w, ReplayTo(b.pprev), b, nBestHeight, |b.block.vtx|);
    assert ConnectsOnParent(w, b);
  }

  lemma ReplaysNext(w: World, ix: Index, b: BlockIndex, nBestHeight: int)
    requires b.Linked() && b.pprev != null && b.OnDisk(w) && Replays(w, ix, b.pprev) && BlockConnects(w, ix, b, nBestHeight)
    ensures Replays(w, ConnectAll(ix, b), b)
    ensures var t := TotalsUpTo(w, ix, b, |b.block.vtx|);
            Total(w, ReplayTo(b)) == Total(w, ReplayTo(b.pprev)) + t.nValueOut - t.nValueIn
  {
    hide BlockConnects, TotalsUpTo, ConnectAll, Total;
    StepUp(w, b, nBestHeight);
  }

  lemma NothingAbove(w: World, ix: Index, fork: BlockIndex, nBestHeight: int)
    requires fork.Linked()
    ensures Accepts(w, ix, fork, fork.nHeight, nBestHeight) && Redo(ix, fork, fork.nHeight) == ix
  {
  }

  lemma OneAbove(w: World, ix: Index, b: BlockIndex, low: nat, nBestHeight: int)
    requires b.Linked() && b.pprev != null && b.nHeight > low
    ensures Accepts(w, ix, b, low, nBestHeight) <==>
            Accepts(w, ix, b.pprev, low, nBestHeight) && BlockConnects(w, Redo(ix, b.pprev, low), b, nBestHeight)
    ensures Redo(ix, b, low) == ConnectAll(Redo(ix, b.pprev, low), b)
  {
  }

  /** A block that does not connect ends the branch. */
  lemma StopsAccepting(w: World, ix: Index, tip: BlockIndex, b: BlockIndex, low: nat, nBestHeight: int)
    requires tip.Linked() && On(tip, b) && b.Linked() && !Accepts(w, ix, b, low, nBestHeight)
    ensures !Accepts(w, ix, tip, low, nBestHeight)
  {
    if Accepts(w, ix, tip, low, nBestHeight) {
      AcceptsBelow(w, ix, tip, b, low, nBestHeight);
    }
  }

  /** Forward links when the tip moves up to `b`. */
  lemma NextUp(b: BlockIndex, c: BlockIndex)
    requires b.Linked() && b.pprev != null
    ensures Next(b, c) == if c == b.pprev then b else Next(b.pprev, c)
  {
  }

  /** Write the queued changes into the index, one by one. */
  method WriteQueued(db: Index, queued: Index) returns (db': Index)
    ensures db' == db + queued
  {
    db' := db;
    var rest := queued.Keys;
    while rest != {}
      invariant rest <= queued.Keys && db'.Keys == db.Keys + (queued.Keys - rest)
      invariant forall h | h in db' :: db'[h] == if h in queued && h !in rest then queued[h] else db[h]
      decreases |rest|
    {
      var h :| h in rest;
      db' := db'[h := queued[h]];
      rest := rest - {h};
    }
  }
}
