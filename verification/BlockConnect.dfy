/** Connecting all transactions of a block: what makes a block connectable, what it does to
    the index, and the loop of ConnectBlock that decides the one and computes the other. */
module BlockConnect {
  import opened Transactions
  import opened SpentIndex
  import opened BlockTree
  import opened TxInputs
  import opened Storage

  predicate CheckTransaction(tx: Tx) {
    && tx.vin != [] && tx.vout != []
    && tx.nSize <= MAX_BLOCK_SIZE
    && (forall i | 0 <= i < |tx.vout| ::
          && (tx.vout[i].IsEmpty() ==> tx.IsCoinBase() || tx.IsCoinStake())
          && 0 <= tx.vout[i].nValue <= MAX_MONEY
          && MoneyRange(ValueOf(tx.vout[..i + 1])))
    && Distinct(tx.vin)
    && (if tx.IsCoinBase() then 2 <= tx.nCoinbaseScriptSize <= 100
        else forall i | 0 <= i < |tx.vin| :: !tx.vin[i].IsNull())
  }

  function LegacySigOps(vtx: seq<Tx>): nat {
    if vtx == [] then 0 else LegacySigOps(vtx[..|vtx| - 1]) + vtx[|vtx| - 1].nLegacySigOps
  }

  predicate CheckBlock(w: World, block: Block) {
    var vtx := block.vtx;
    && w.otherBlockChecks(block)
    && 0 < |vtx| <= MAX_BLOCK_SIZE
    && (forall i | 0 <= i < |vtx| :: vtx[i].IsCoinBase() <==> i == 0)
    && (block.IsProofOfStake() ==>
          && |vtx[0].vout| == 1 && vtx[0].vout[0].IsEmpty()
          && forall i | 2 <= i < |vtx| :: !vtx[i].IsCoinStake())
    && (forall i | 0 <= i < |vtx| :: CheckTransaction(vtx[i]))
    && (forall i, j | 0 <= i < j < |vtx| :: vtx[i].hash != vtx[j].hash)
    && LegacySigOps(vtx) <= MAX_BLOCK_SIGOPS
  }

  /** The index after the first `k` transactions of `b`. */
  ghost function ConnectTxs(ix: Index, b: BlockIndex, k: nat): Index
    requires k <= |b.block.vtx|
  {
    if k == 0 then ix else ConnectTx(ConnectTxs(ix, b, k - 1), b.block.vtx[k - 1], b.TxPos(k - 1))
  }

  ghost function ConnectAll(ix: Index, b: BlockIndex): Index {
    ConnectTxs(ix, b, |b.block.vtx|)
  }

  /** The running totals of ConnectBlock. */
  datatype Totals = Totals(nValueIn: int, nValueOut: int, nFees: int, nStakeReward: int, nSigOps: nat)

  function AddTotals(w: World, ix: Index, tx: Tx, t: Totals): Totals {
    var out := ValueOf(tx.vout);
    if tx.IsCoinBase() then t.(nValueOut := t.nValueOut + out, nSigOps := t.nSigOps + tx.nLegacySigOps)
    else
      var inn := ValueIn(w, ix, tx.vin);
      Totals(t.nValueIn + inn, t.nValueOut + out,
             if tx.IsCoinStake() then t.nFees else t.nFees + (inn - out),
             if tx.IsCoinStake() then out - inn else t.nStakeReward,
             t.nSigOps + tx.nLegacySigOps + P2SHSigOps(w, ix, tx, |tx.vin|))
  }

  ghost function TotalsUpTo(w: World, ix: Index, b: BlockIndex, k: nat): Totals
    requires k <= |b.block.vtx|
  {
    if k == 0 then Totals(0, 0, 0, 0, 0)
    else AddTotals(w, ConnectTxs(ix, b, k - 1), b.block.vtx[k - 1], TotalsUpTo(w, ix, b, k - 1))
  }

  lemma {:induction false} SigOpsGrow(w: World, ix: Index, b: BlockIndex, j: nat, k: nat)
    requires j <= k <= |b.block.vtx|
    ensures TotalsUpTo(w, ix, b, j).nSigOps <= TotalsUpTo(w, ix, b, k).nSigOps
  {
    if j < k {
      SigOpsGrow(w, ix, b, j, k - 1);
    }
  }

  const YEARLY_BLOCKCOUNT: nat := 899_790

  function ProofOfWorkSubsidy(nHeight: nat): int {
    if nHeight == 1 then 15_000_000_000 * COIN else 0
  }

  function ProofOfStakeSubsidy(nPrevHeight: nat): int {
    if nPrevHeight < YEARLY_BLOCKCOUNT then 15 * COIN else 10 * COIN
  }

  /** The checks after the loop: the coinbase or the coinstake takes no more than its reward. */
  predicate RewardOk(b: BlockIndex, t: Totals)
    requires b.block.vtx != []
  {
    && (!b.block.IsProofOfStake() ==> ValueOf(b.block.vtx[0].vout) <= ProofOfWorkSubsidy(b.nHeight) + t.nFees)
    && (b.block.IsProofOfStake() ==>
          b.pprev != null && t.nStakeReward <= ProofOfStakeSubsidy(b.pprev.nHeight) + t.nFees)
  }

  /** No transaction may overwrite an older one that still has unspent outputs. */
  predicate MayOverwrite(db: Index, tx: Tx) {
    tx.hash in db ==> db[tx.hash].AllSpent()
  }

  function BlockMode(w: World, b: BlockIndex, nBestHeight: int): Mode {
    Mode(true, if w.IsProtocolVFork1(b.nHeight) then Fork1Block else OldBlock, nBestHeight)
  }

  /** Transaction `k` of `b` connects after the ones before it. */
  ghost predicate TxStepOk(w: World, ix: Index, b: BlockIndex, k: nat, nBestHeight: int)
    requires b.Linked() && k < |b.block.vtx|
  {
    && MayOverwrite(ix, b.block.vtx[k])
    && TxConnects(w, ConnectTxs(ix, b, k), b.block.vtx[k], b, BlockMode(w, b, nBestHeight))
  }

  /** The first `n` transactions of `b` connect one after the other. */
  ghost predicate TxStepsOk(w: World, ix: Index, b: BlockIndex, n: nat, nBestHeight: int)
    requires b.Linked() && n <= |b.block.vtx|
  {
    forall k | 0 <= k < n :: TxStepOk(w, ix, b, k, nBestHeight)
  }

  /** When ConnectBlock accepts a block on top of the index `ix`. */
  ghost predicate BlockConnects(w: World, ix: Index, b: BlockIndex, nBestHeight: int)
    requires b.Linked()
  {
    && CheckBlock(w, b.block)
    && TxStepsOk(w, ix, b, |b.block.vtx|, nBestHeight)
    && TotalsUpTo(w, ix, b, |b.block.vtx|).nSigOps <= MAX_BLOCK_SIGOPS
    && RewardOk(b, TotalsUpTo(w, ix, b, |b.block.vtx|))
  }

  /** The part of one pass that is for transactions with inputs: fetch them, count their
      signature operations and values, and spend them. */
  method ConnectSpender(w: World, device: Device, db: Index, tx: Tx, b: BlockIndex, m: Mode, posThisTx: DiskTxPos, pool: Index, nSigOps: nat)
    returns (ok: bool, pool': Index, nTxValueIn: int, nP2SH: nat)
    requires b.Linked() && posThisTx != Null && !tx.IsCoinBase()
    modifies device
    ensures device.nAccesses >= old(device.nAccesses)
    ensures ok <==> TxConnects(w, db + pool, tx, b, m) && nSigOps + P2SHSigOps(w, db + pool, tx, |tx.vin|) <= MAX_BLOCK_SIGOPS &&
                    device.Worked(old(device.nAccesses), device.nAccesses)
    ensures ok ==> nTxValueIn == ValueIn(w, db + pool, tx.vin) && nP2SH == P2SHSigOps(w, db + pool, tx, |tx.vin|)
    ensures ok ==> db + pool' == MarkAll(db + pool, tx.vin, posThisTx)
  {
    pool', nTxValueIn, nP2SH := pool, 0, 0;
    var inputs, fInvalid;
    ok, inputs, fInvalid := FetchInputs(w, device, tx, db, pool);
    if !ok {
      if device.Worked(old(device.nAccesses), device.nAccesses) {
        NotFetchable(w, db + pool, tx, b, m);
      }
      return;
    }
    nP2SH := GetP2SHSigOpCount(w, db + pool, tx, inputs);
    if nSigOps + nP2SH > MAX_BLOCK_SIGOPS {
      return false, pool', nTxValueIn, nP2SH;
    }
    nTxValueIn := GetValueIn(w, db + pool, tx, inputs);
    ok, pool' := ConnectInputs(w, db, tx, inputs, pool, posThisTx, b, m);
  }

  /** One pass of the loop of ConnectBlock. */
  method ConnectTransaction(w: World, device: Device, db: Index, b: BlockIndex, k: nat, nBestHeight: int,
                            nTxPos: nat, pool: Index, t: Totals)
    returns (ok: bool, pool': Index, t': Totals)
    requires b.Linked() && k < |b.block.vtx|
    requires At(b.nFile, b.nBlockPos, nTxPos) == b.TxPos(k)
    requires db + pool == ConnectTxs(db, b, k) && t == TotalsUpTo(w, db, b, k)
    modifies device
    ensures device.nAccesses >= old(device.nAccesses)
    ensures ok <==> TxStepOk(w, db, b, k, nBestHeight) && TotalsUpTo(w, db, b, k + 1).nSigOps <= MAX_BLOCK_SIGOPS &&
                    device.Worked(old(device.nAccesses), device.nAccesses)
    ensures ok ==> db + pool' == ConnectTxs(db, b, k + 1) && t' == TotalsUpTo(w, db, b, k + 1)
  {
    var tx := b.block.vtx[k];
    pool', t' := pool, t;
    if tx.hash in db {
      if !db[tx.hash].AllSpent() {
        return false, pool', t';
      }
    }
    t' := t'.(nSigOps := t'.nSigOps + tx.nLegacySigOps);
    if t'.nSigOps > MAX_BLOCK_SIGOPS {
      return false, pool', t';
    }
    var posThisTx := At(b.nFile, b.nBlockPos, nTxPos);
    if tx.IsCoinBase() {
      t' := t'.(nValueOut := t'.nValueOut + ValueOf(tx.vout));
    } else {
      var nTxValueIn, nP2SH;
      ok, pool', nTxValueIn, nP2SH := ConnectSpender(w, device, db, tx, b, BlockMode(w, b, nBestHeight), posThisTx, pool, t'.nSigOps);
      if !ok {
        return;
      }
      t' := AddValues(tx, t', nTxValueIn, nP2SH);
    }
    MergeUpdate(db, pool', tx.hash, NewEntry(tx, posThisTx));
    pool' := pool'[tx.hash := NewEntry(tx, posThisTx)];
    ok := true;
  }

  /** Tally the values and signature operations of a transaction that is not a coinbase. */
  function AddValues(tx: Tx, t: Totals, nTxValueIn: int, nP2SH: nat): Totals {
    var nTxValueOut := ValueOf(tx.vout);
    t.(nValueIn := t.nValueIn + nTxValueIn,
       nValueOut := t.nValueOut + nTxValueOut,
       nFees := if !tx.IsCoinStake() then t.nFees + nTxValueIn - nTxValueOut else t.nFees,
       nStakeReward := if tx.IsCoinStake() then nTxValueOut - nTxValueIn else t.nStakeReward,
       nSigOps := t.nSigOps + nP2SH)
  }

  lemma NotFetchable(w: World, ix: Index, tx: Tx, at: BlockIndex, m: Mode)
    requires at.Linked()
    requires !tx.IsCoinBase() && exists i | 0 <= i < |tx.vin| :: !Fetchable(w, ix, tx.vin[i])
    ensures !TxConnects(w, ix, tx, at, m)
  {
    var i :| 0 <= i < |tx.vin| && !Fetchable(w, ix, tx.vin[i]);
    assert !PrevoutOk(w, ix, tx, tx.vin[i], at);
  }

  /** A transaction that cannot connect makes the block unconnectable. */
  lemma StepFails(w: World, ix: Index, b: BlockIndex, k: nat, nBestHeight: int)
    requires b.Linked() && k < |b.block.vtx|
    requires TxStepOk(w, ix, b, k, nBestHeight) ==> TotalsUpTo(w, ix, b, k + 1).nSigOps > MAX_BLOCK_SIGOPS
    ensures TxStepsOk(w, ix, b, |b.block.vtx|, nBestHeight) ==> TotalsUpTo(w, ix, b, |b.block.vtx|).nSigOps > MAX_BLOCK_SIGOPS
  {
    SigOpsGrow(w, ix, b, k + 1, |b.block.vtx|);
  }

  /** The loop of ConnectBlock. */
  method ConnectTransactions(w: World, device: Device, db: Index, b: BlockIndex, nBestHeight: int)
    returns (ok: bool, mapQueuedChanges: Index, t: Totals)
    requires b.Linked()
    modifies device
    ensures device.nAccesses >= old(device.nAccesses)
    ensures ok <==> TxStepsOk(w, db, b, |b.block.vtx|, nBestHeight) && TotalsUpTo(w, db, b, |b.block.vtx|).nSigOps <= MAX_BLOCK_SIGOPS &&
                    device.Worked(old(device.nAccesses), device.nAccesses)
    ensures ok ==> db + mapQueuedChanges == ConnectAll(db, b) && t == TotalsUpTo(w, db, b, |b.block.vtx|)
  {
    mapQueuedChanges, t := map[], Totals(0, 0, 0, 0, 0);
    var nTxPos: nat := b.nBlockPos + 80 + CompactSizeBytes(|b.block.vtx|);
    for k := 0 to |b.block.vtx|
      invariant At(b.nFile, b.nBlockPos, nTxPos) == b.TxPos(k)
      invariant db + mapQueuedChanges == ConnectTxs(db, b, k) && t == TotalsUpTo(w, db, b, k)
      invariant TxStepsOk(w, db, b, k, nBestHeight)
      invariant t.nSigOps <= MAX_BLOCK_SIGOPS
      invariant device.Worked(old(device.nAccesses), device.nAccesses)
    {
      ghost var before := device.nAccesses;
      ok, mapQueuedChanges, t := ConnectTransaction(w, device, db, b, k, nBestHeight, nTxPos, mapQueuedChanges, t);
      if !ok {
        if device.Worked(before, device.nAccesses) {
          StepFails(w, db, b, k, nBestHeight);
        }
        return;
      }
      nTxPos := nTxPos + b.block.vtx[k].nSize;
    }
    ok := true;
  }
}
