/** The money supply: the value of all unspent outputs of an index, how connecting a block
    changes it, and how much a chain can have issued. */
module Supply {
  import opened Transactions
  import opened SpentIndex
  import opened BlockTree
  import opened TxInputs
  import opened BlockConnect
  import opened BlockUndo
  import opened Replay

  /** The value of the first `k` outputs, counting only those whose slot is free. */
  function FreeValue(vSpent: seq<DiskTxPos>, vout: seq<TxOut>, k: nat): int
    requires k <= |vSpent|
  {
    if k == 0 then 0
    else FreeValue(vSpent, vout, k - 1) + if vSpent[k - 1] == Null && k - 1 < |vout| then vout[k - 1].nValue else 0
  }

  function EntryValue(w: World, h: Txid, e: TxIndex): int {
    FreeValue(e.vSpent, w.readTx(h, e.pos).vout, |e.vSpent|)
  }

  /** The value of all unspent outputs. */
  ghost function Total(w: World, ix: Index): int
    decreases |ix|
  {
    if ix == map[] then 0
    else var h :| h in ix; EntryValue(w, h, ix[h]) + Total(w, ix - {h})
  }

  /** Any entry can be taken out of the sum. */
  lemma {:induction false} TotalSplit(w: World, ix: Index, h: Txid)
    requires h in ix
    ensures Total(w, ix) == EntryValue(w, h, ix[h]) + Total(w, ix - {h})
    decreases |ix|
  {
    var g :| g in ix && Total(w, ix) == EntryValue(w, g, ix[g]) + Total(w, ix - {g});
    if g != h {
      TotalSplit(w, ix - {g}, h);
      TotalSplit(w, ix - {h}, g);
      assert ix - {g} - {h} == ix - {h} - {g};
    }
  }

  lemma TotalUpdate(w: World, ix: Index, h: Txid, e: TxIndex)
    ensures Total(w, ix[h := e]) == Total(w, ix) + EntryValue(w, h, e) - if h in ix then EntryValue(w, h, ix[h]) else 0
  {
    TotalSplit(w, ix[h := e], h);
    if h in ix {
      TotalSplit(w, ix, h);
      assert ix[h := e] - {h} == ix - {h};
    } else {
      assert ix[h := e] - {h} == ix;
    }
  }

  lemma {:induction false} FreeValueMark(vSpent: seq<DiskTxPos>, vout: seq<TxOut>, n: nat, p: DiskTxPos, k: nat)
    requires n < |vSpent| && n < |vout| && vSpent[n] == Null && p != Null && k <= |vSpent|
    ensures FreeValue(vSpent[n := p], vout, k) == FreeValue(vSpent, vout, k) - if n < k then vout[n].nValue else 0
  {
    if k > 0 {
      FreeValueMark(vSpent, vout, n, p, k - 1);
    }
  }

  lemma {:induction false} FreeValueNone(vSpent: seq<DiskTxPos>, vout: seq<TxOut>, k: nat)
    requires k <= |vSpent| && forall n | 0 <= n < |vSpent| :: vSpent[n] != Null
    ensures FreeValue(vSpent, vout, k) == 0
  {
    if k > 0 {
      FreeValueNone(vSpent, vout, k - 1);
    }
  }

  lemma {:induction false} FreeValueNew(vSpent: seq<DiskTxPos>, vout: seq<TxOut>, k: nat)
    requires k <= |vSpent| == |vout| && forall n | 0 <= n < |vSpent| :: vSpent[n] == Null
    ensures FreeValue(vSpent, vout, k) == ValueOf(vout[..k])
  {
    if k > 0 {
      FreeValueNew(vSpent, vout, k - 1);
      assert vout[..k][..k - 1] == vout[..k - 1];
    }
  }

  lemma MarkTotal(w: World, ix: Index, o: OutPoint, p: DiskTxPos)
    requires IsFree(ix, o) && Fetchable(w, ix, o) && p != Null
    ensures Total(w, Mark(ix, o, p)) == Total(w, ix) - OutValue(w, ix, o)
  {
    var e := ix[o.hash];
    TotalUpdate(w, ix, o.hash, e.(vSpent := e.vSpent[o.n := p]));
    FreeValueMark(e.vSpent, Prev(w, ix, o).vout, o.n, p, |e.vSpent|);
  }

  /** Spending takes the value of what is spent out of the supply. */
  lemma {:induction false} MarkAllTotal(w: World, ix: Index, vin: seq<OutPoint>, p: DiskTxPos)
    requires forall i | 0 <= i < |vin| :: IsFree(ix, vin[i]) && Fetchable(w, ix, vin[i])
    requires Distinct(vin) && p != Null
    ensures Total(w, MarkAll(ix, vin, p)) == Total(w, ix) - ValueIn(w, ix, vin)
  {
    if vin != [] {
      var k := |vin| - 1;
      MarkAllTotal(w, ix, vin[..k], p);
      MarkAllSlots(ix, vin[..k], p);
      assert IsFree(ix, vin[k]) && Fetchable(w, ix, vin[k]);
      MarkTotal(w, MarkAll(ix, vin[..k], p), vin[k], p);
    }
  }

  lemma NewEntryTotal(w: World, ix: Index, tx: Tx, p: DiskTxPos)
    requires w.readTx(tx.hash, p) == tx
    requires tx.hash in ix ==> ix[tx.hash].AllSpent()
    ensures Total(w, ix[tx.hash := NewEntry(tx, p)]) == Total(w, ix) + ValueOf(tx.vout)
  {
    TotalUpdate(w, ix, tx.hash, NewEntry(tx, p));
    FreeValueNew(NewEntry(tx, p).vSpent, tx.vout, |tx.vout|);
    assert tx.vout[..|tx.vout|] == tx.vout;
    if tx.hash in ix {
      FreeValueNone(ix[tx.hash].vSpent, w.readTx(tx.hash, ix[tx.hash].pos).vout, |ix[tx.hash].vSpent|);
    }
  }

  lemma ConnectTxTotal(w: World, ix: Index, tx: Tx, p: DiskTxPos, at: BlockIndex, m: Mode)
    requires at.Linked() && TxConnects(w, ix, tx, at, m) && p != Null && w.readTx(tx.hash, p) == tx
    requires tx.hash in ix ==> ix[tx.hash].AllSpent()
    ensures Total(w, ConnectTx(ix, tx, p)) ==
            Total(w, ix) + ValueOf(tx.vout) - if tx.IsCoinBase() then 0 else ValueIn(w, ix, tx.vin)
  {
    if tx.IsCoinBase() {
      NewEntryTotal(w, ix, tx, p);
    } else {
      ConnectsFree(w, ix, tx, at, m);
      forall i | 0 <= i < |tx.vin| ensures IsFree(ix, tx.vin[i]) && Fetchable(w, ix, tx.vin[i]) {
        assert PrevoutOk(w, ix, tx, tx.vin[i], at);
      }
      MarkAllTotal(w, ix, tx.vin, p);
      StaysSpent(ix, tx.vin, p, tx.hash);
      NewEntryTotal(w, MarkAll(ix, tx.vin, p), tx, p);
    }
  }

  lemma StaysSpent(ix: Index, vin: seq<OutPoint>, p: DiskTxPos, h: Txid)
    requires p != Null
    ensures var jx := MarkAll(ix, vin, p);
            (h in jx <==> h in ix) && (h in ix && ix[h].AllSpent() ==> jx[h].AllSpent())
  {
    MarkAllSlots(ix, vin, p);
    if h in ix && ix[h].AllSpent() {
      var jx := MarkAll(ix, vin, p);
      forall n | 0 <= n < |jx[h].vSpent| ensures jx[h].vSpent[n] != Null {
        assert HasSlot(ix, OutPoint(h, n));
      }
    }
  }

  /** An old entry stays completely spent until it is overwritten. */
  lemma {:induction false} OldStaysSpent(ix: Index, b: BlockIndex, k: nat, h: Txid)
    requires k <= |b.block.vtx| && (h in ix ==> ix[h].AllSpent())
    requires forall i | 0 <= i < k :: b.block.vtx[i].hash != h
    ensures h in ConnectTxs(ix, b, k) ==> ConnectTxs(ix, b, k)[h].AllSpent()
  {
    if k > 0 {
      OldStaysSpent(ix, b, k - 1, h);
      StaysSpent(ConnectTxs(ix, b, k - 1), b.block.vtx[k - 1].vin, b.TxPos(k - 1), h);
    }
  }

  lemma StepTotal(w: World, ix: Index, b: BlockIndex, nBestHeight: int, k: nat)
    requires b.Linked() && k < |b.block.vtx| && CheckBlock(w, b.block) && b.OnDisk(w)
    requires TxStepOk(w, ix, b, k, nBestHeight)
    ensures var t, t' := TotalsUpTo(w, ix, b, k), TotalsUpTo(w, ix, b, k + 1);
            Total(w, ConnectTxs(ix, b, k + 1)) - Total(w, ConnectTxs(ix, b, k)) ==
            (t'.nValueOut - t'.nValueIn) - (t.nValueOut - t.nValueIn)
  {
    OldStaysSpent(ix, b, k, b.block.vtx[k].hash);
    ConnectTxTotal(w, ConnectTxs(ix, b, k), b.block.vtx[k], b.TxPos(k), b, BlockMode(w, b, nBestHeight));
  }

  /** Conservation: the supply changes by what the transactions pay out less what they take in. */
  lemma {:induction false} BlockTotal(w: World, ix: Index, b: BlockIndex, nBestHeight: int, k: nat)
    requires b.Linked() && BlockConnects(w, ix, b, nBestHeight) && b.OnDisk(w) && k <= |b.block.vtx|
    ensures var t := TotalsUpTo(w, ix, b, k);
            Total(w, ConnectTxs(ix, b, k)) == Total(w, ix) + t.nValueOut - t.nValueIn
  {
    if k > 0 {
      BlockTotal(w, ix, b, nBestHeight, k - 1);
      StepTotal(w, ix, b, nBestHeight, k - 1);
    }
  }

  // ----- what a block may issue

  /** What transaction `k` pays out beyond what it takes in, if it is a coinstake. */
  ghost function StakeGain(w: World, ix: Index, b: BlockIndex, k: nat): int
    requires k < |b.block.vtx|
  {
    var tx := b.block.vtx[k];
    if tx.IsCoinStake() then ValueOf(tx.vout) - ValueIn(w, ConnectTxs(ix, b, k), tx.vin) else 0
  }

  /** The gains of those of the first `k` transactions that are coinstakes anywhere but at
      index 1.  Nothing in ConnectBlock bounds them. */
  ghost function StrayGain(w: World, ix: Index, b: BlockIndex, k: nat): int
    requires k <= |b.block.vtx|
  {
    if k == 0 then 0 else StrayGain(w, ix, b, k - 1) + if k - 1 == 1 then 0 else StakeGain(w, ix, b, k - 1)
  }

  /** A coinstake is where it belongs: at index 1, which makes the block proof-of-stake. */
  predicate NoStrayCoinStake(block: Block) {
    forall k | 0 <= k < |block.vtx| && block.vtx[k].IsCoinStake() :: k == 1
  }

  lemma {:induction false} NoStrayNoGain(w: World, ix: Index, b: BlockIndex, k: nat)
    requires k <= |b.block.vtx| && NoStrayCoinStake(b.block)
    ensures StrayGain(w, ix, b, k) == 0
  {
    if k > 0 {
      NoStrayNoGain(w, ix, b, k - 1);
    }
  }

  /** What the transactions issue: what the coinbase pays, the gain of the coinstake at index
      1, and the stray gains; less the fees. */
  lemma {:induction false} Issued(w: World, ix: Index, b: BlockIndex, k: nat)
    requires CheckBlock(w, b.block) && 0 < k <= |b.block.vtx|
    ensures var t := TotalsUpTo(w, ix, b, k);
            && t.nValueOut - t.nValueIn + t.nFees ==
               ValueOf(b.block.vtx[0].vout) + StrayGain(w, ix, b, k) + (if k > 1 then StakeGain(w, ix, b, 1) else 0)
            && (k > 1 && b.block.IsProofOfStake() ==> t.nStakeReward == StakeGain(w, ix, b, 1))
  {
    var vtx := b.block.vtx;
    assert vtx[0].IsCoinBase();
    if k == 1 {
      assert TotalsUpTo(w, ix, b, 0) == Totals(0, 0, 0, 0, 0);
      assert StrayGain(w, ix, b, 1) == 0;
    } else {
      Issued(w, ix, b, k - 1);
      assert !vtx[k - 1].IsCoinBase();
      assert TotalsUpTo(w, ix, b, k) == AddTotals(w, ConnectTxs(ix, b, k - 1), vtx[k - 1], TotalsUpTo(w, ix, b, k - 1));
    }
  }

  function Subsidy(b: BlockIndex): int {
    if b.block.IsProofOfStake() then (if b.pprev == null then 0 else ProofOfStakeSubsidy(b.pprev.nHeight))
    else ProofOfWorkSubsidy(b.nHeight)
  }

  /** How much less than allowed the coinbase, or the coinstake at index 1, takes. */
  ghost function Unclaimed(w: World, ix: Index, b: BlockIndex): int
    requires b.block.vtx != []
  {
    var t := TotalsUpTo(w, ix, b, |b.block.vtx|);
    Subsidy(b) + t.nFees - if b.block.IsProofOfStake() then t.nStakeReward else ValueOf(b.block.vtx[0].vout)
  }

  /** A block adds to the supply its subsidy and what stray coinstakes gain, less what it leaves
      unclaimed.  So it keeps to its subsidy exactly when the stray gains do not exceed that. */
  lemma BlockIssues(w: World, ix: Index, b: BlockIndex, nBestHeight: int)
    requires b.Linked() && BlockConnects(w, ix, b, nBestHeight) && b.OnDisk(w)
    ensures Total(w, ConnectAll(ix, b)) == Total(w, ix) + Subsidy(b) + StrayGain(w, ix, b, |b.block.vtx|) - Unclaimed(w, ix, b)
    ensures Unclaimed(w, ix, b) >= 0
    ensures Total(w, ConnectAll(ix, b)) <= Total(w, ix) + Subsidy(b) <==> StrayGain(w, ix, b, |b.block.vtx|) <= Unclaimed(w, ix, b)
    ensures NoStrayCoinStake(b.block) || b.block.IsProofOfStake() ==> StrayGain(w, ix, b, |b.block.vtx|) == 0
  {
    BlockTotal(w, ix, b, nBestHeight, |b.block.vtx|);
    Issued(w, ix, b, |b.block.vtx|);
    assert b.block.vtx[0].IsCoinBase();
    if NoStrayCoinStake(b.block) || b.block.IsProofOfStake() {
      NoStrayNoGain(w, ix, b, |b.block.vtx|);
    }
    var vout := b.block.vtx[0].vout;
    if b.block.IsProofOfStake() {
      assert vout[..0] == [] && ValueOf(vout) == 0;
    }
  }

  ghost predicate NoStrayTo(b: BlockIndex)
    requires b.Linked()
    decreases b.nHeight
  {
    b.pprev != null ==> NoStrayTo(b.pprev) && NoStrayCoinStake(b.block)
  }

  ghost predicate OnDiskTo(w: World, b: BlockIndex)
    requires b.Linked()
    decreases b.nHeight
  {
    b.pprev != null ==> OnDiskTo(w, b.pprev) && b.OnDisk(w)
  }

  lemma ChainIssues(w: World, b: BlockIndex)
    requires b.Linked() && b.pprev != null && ConnectsOnParent(w, b) && b.OnDisk(w) && NoStrayCoinStake(b.block)
    ensures Total(w, ReplayTo(b)) <= Total(w, ReplayTo(b.pprev)) + Subsidy(b)
  {
    var nBestHeight: int :| BlockConnects(w, ReplayTo(b.pprev), b, nBestHeight);
    BlockIssues(w, ReplayTo(b.pprev), b, nBestHeight);
  }

  /** The fifteen billion coins of height 1 and fifteen coins a block. */
  function SupplyLimit(nHeight: nat): int {
    if nHeight == 0 then 0 else 15_000_000_000 * COIN + 15 * COIN * nHeight
  }

  /** A chain that connects, and has its coinstakes where they belong, has issued at most its limit. */
  lemma {:induction false} SupplyBound(w: World, b: BlockIndex)
    requires b.Linked() && ConnectsTo(w, b) && OnDiskTo(w, b) && NoStrayTo(b)
    ensures Total(w, ReplayTo(b)) <= SupplyLimit(b.nHeight)
    decreases b.nHeight
  {
    if b.pprev != null {
      SupplyBound(w, b.pprev);
      assert ConnectsOnParent(w, b) && b.OnDisk(w) && NoStrayCoinStake(b.block);
      ChainIssues(w, b);
      SubsidyWithinLimit(b);
    }
  }

  lemma SubsidyWithinLimit(b: BlockIndex)
    requires b.Linked() && b.pprev != null
    ensures SupplyLimit(b.pprev.nHeight) + Subsidy(b) <= SupplyLimit(b.nHeight)
  {
  }
}
