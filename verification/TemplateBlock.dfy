/** A block made from a template, with a coinstake or without, and when ConnectBlock accepts it. */
module TemplateBlock {
  import opened Transactions
  import opened SpentIndex
  import opened BlockTree
  import opened TxInputs
  import opened BlockConnect
  import opened Template

  // ----- the index of the template and the index of the block

  /** Same outputs, the same transaction read, and the same ones spent but for those in `staked`. */
  ghost predicate Twins(w: World, h: Txid, e: TxIndex, f: TxIndex, staked: set<OutPoint>) {
    && |e.vSpent| == |f.vSpent|
    && (forall m | 0 <= m < |e.vSpent| :: f.vSpent[m] == Null <==> e.vSpent[m] == Null && OutPoint(h, m) !in staked)
    && w.readTx(h, e.pos) == w.readTx(h, f.pos)
  }

  /** Both entries are the chain's, or lead to a transaction that needs no maturity. */
  ghost predicate Mature(n: Node, h: Txid, e: TxIndex, f: TxIndex) {
    (h in n.db && e.pos == f.pos == n.db[h].pos) ||
    (!n.w.readTx(h, f.pos).IsCoinBase() && !n.w.readTx(h, f.pos).IsCoinStake())
  }

  /** `jx` is `ix` with the entries of `head`, up to where the new transactions lie and to what
      the coinstake has spent. */
  ghost predicate Mirrors(n: Node, ix: Index, jx: Index, head: set<Txid>, staked: set<OutPoint>) {
    && head !! ix.Keys && jx.Keys == ix.Keys + head
    && forall h | h in ix :: Twins(n.w, h, ix[h], jx[h], staked) && Mature(n, h, ix[h], jx[h])
  }

  lemma MirrorsSlot(n: Node, ix: Index, jx: Index, head: set<Txid>, staked: set<OutPoint>, o: OutPoint)
    requires Mirrors(n, ix, jx, head, staked)
    ensures Fetchable(n.w, ix, o) ==> Fetchable(n.w, jx, o) && PrevOut(n.w, jx, o) == PrevOut(n.w, ix, o) && Prev(n.w, jx, o) == Prev(n.w, ix, o)
    ensures IsFree(ix, o) ==> (IsFree(jx, o) <==> o !in staked)
    ensures o.hash !in head ==> (HasSlot(ix, o) <==> HasSlot(jx, o))
  {
    if o.hash in ix {
      assert Twins(n.w, o.hash, ix[o.hash], jx[o.hash], staked);
    }
  }

  lemma {:induction false} MirrorsValue(n: Node, ix: Index, jx: Index, head: set<Txid>, staked: set<OutPoint>, vin: seq<OutPoint>)
    requires Mirrors(n, ix, jx, head, staked) && forall i | 0 <= i < |vin| :: Fetchable(n.w, ix, vin[i])
    ensures ValueIn(n.w, jx, vin) == ValueIn(n.w, ix, vin)
  {
    hide Mirrors, Fetchable;
    if vin != [] {
      MirrorsValue(n, ix, jx, head, staked, vin[..|vin| - 1]);
      MirrorsSlot(n, ix, jx, head, staked, vin[|vin| - 1]);
      assert Fetchable(n.w, ix, vin[|vin| - 1]);
    }
  }

  lemma {:induction false} MirrorsSigOps(n: Node, ix: Index, jx: Index, head: set<Txid>, staked: set<OutPoint>, tx: Tx, k: nat)
    requires Mirrors(n, ix, jx, head, staked) && k <= |tx.vin| && forall i | 0 <= i < |tx.vin| :: Fetchable(n.w, ix, tx.vin[i])
    ensures P2SHSigOps(n.w, jx, tx, k) == P2SHSigOps(n.w, ix, tx, k)
  {
    hide Mirrors, Fetchable;
    if k > 0 {
      MirrorsSigOps(n, ix, jx, head, staked, tx, k - 1);
      MirrorsSlot(n, ix, jx, head, staked, tx.vin[k - 1]);
      assert Fetchable(n.w, ix, tx.vin[k - 1]);
    }
  }

  /** Connecting the same transaction on both sides keeps them alike. */
  lemma MirrorsNext(n: Node, ix: Index, jx: Index, head: set<Txid>, staked: set<OutPoint>, tx: Tx, p: DiskTxPos)
    requires Mirrors(n, ix, jx, head, staked) && tx.hash !in head && p != Null && !tx.IsCoinBase() && !tx.IsCoinStake()
    requires forall o | o in staked :: o.hash != tx.hash
    requires forall i | 0 <= i < |tx.vin| :: IsFree(ix, tx.vin[i])
    requires n.w.readTx(tx.hash, p) == tx == n.w.readTx(tx.hash, MEMPOOL_POS)
    ensures Mirrors(n, ConnectTx(ix, tx, MEMPOOL_POS), ConnectTx(jx, tx, p), head, staked)
  {
    hide MarkAll;
    MarkAllSlots(ix, tx.vin, MEMPOOL_POS);
    MarkAllSlots(jx, tx.vin, p);
    MirrorsMarked(n, ix, jx, head, staked, tx.vin, MEMPOOL_POS, p);
  }

  lemma MirrorsMarked(n: Node, ix: Index, jx: Index, head: set<Txid>, staked: set<OutPoint>, vin: seq<OutPoint>, p: DiskTxPos, q: DiskTxPos)
    requires Mirrors(n, ix, jx, head, staked) && p != Null && q != Null
    ensures Mirrors(n, MarkAll(ix, vin, p), MarkAll(jx, vin, q), head, staked)
  {
    hide MarkAll, Mature;
    MarkAllSlots(ix, vin, p);
    MarkAllSlots(jx, vin, q);
    var kx, lx := MarkAll(ix, vin, p), MarkAll(jx, vin, q);
    forall h | h in ix ensures Twins(n.w, h, kx[h], lx[h], staked) && Mature(n, h, kx[h], lx[h]) {
      assert Twins(n.w, h, ix[h], jx[h], staked);
      MatureByPos(n, h, ix[h], jx[h], kx[h], lx[h]);
      forall m | 0 <= m < |kx[h].vSpent| ensures lx[h].vSpent[m] == Null <==> kx[h].vSpent[m] == Null && OutPoint(h, m) !in staked {
        var o := OutPoint(h, m);
        assert HasSlot(ix, o) && HasSlot(jx, o);
      }
    }
  }

  lemma MatureByPos(n: Node, h: Txid, e: TxIndex, f: TxIndex, e': TxIndex, f': TxIndex)
    requires Mature(n, h, e, f) && e'.pos == e.pos && f'.pos == f.pos
    ensures Mature(n, h, e', f')
  {
  }

  // ----- the block

  /** The block follows where the template was made: it starts with a coinbase, perhaps with a
      coinstake after it, and has the transactions of the template; it lies at a place of its
      own, and has hashes that are all different and that the chain does not know. */
  ghost predicate MadeFrom(n: Node, prev: BlockIndex, vtx: seq<Tx>, b: BlockIndex)
  {
    && prev.Linked() && b.Linked() && b.pprev == prev
    && |vtx| < |b.block.vtx| <= |vtx| + 2 && b.block.vtx[HeadSize(vtx, b)..] == vtx
    && b.block.vtx[0].IsCoinBase() && (HeadSize(vtx, b) == 2 ==> b.block.vtx[1].IsCoinStake())
    && b.OnDisk(n.w)
    && (forall h | h in n.db :: !b.HoldsPos(n.db[h].pos))
    && (forall k | 0 <= k < |b.block.vtx| :: b.block.vtx[k].hash !in n.db)
    && Heads(vtx, b) !! Hashes(vtx)
    && (HeadSize(vtx, b) == 2 ==> b.block.vtx[0].hash != b.block.vtx[1].hash)
  }

  /** How many transactions come before those of the template. */
  function HeadSize(vtx: seq<Tx>, b: BlockIndex): nat
    requires |vtx| <= |b.block.vtx|
  {
    |b.block.vtx| - |vtx|
  }

  function Heads(vtx: seq<Tx>, b: BlockIndex): set<Txid>
    requires |vtx| < |b.block.vtx|
  {
    {b.block.vtx[0].hash} + if HeadSize(vtx, b) == 2 then {b.block.vtx[1].hash} else {}
  }

  /** What the coinstake spends of the chain. */
  function Staked(n: Node, vtx: seq<Tx>, b: BlockIndex): set<OutPoint>
    requires |vtx| < |b.block.vtx|
  {
    if HeadSize(vtx, b) == 2 then set o | o in b.block.vtx[1].vin && o.hash in n.db else {}
  }

  /** The signatures hold under the rules of the block's height, if they are looked at. */
  ghost predicate Signed(n: Node, ix: Index, tx: Tx, b: BlockIndex) {
    n.nBestHeight < n.w.nCheckpointHeight ||
    forall i | 0 <= i < |tx.vin| && tx.vin[i].hash in ix ::
      n.w.verifySignature(Prev(n.w, ix, tx.vin[i]), tx, i, BlockMode(n.w, b, n.nBestHeight).rules)
  }

  /** No input spends an empty output, the marker of a coinstake. */
  ghost predicate NoMarkerSpent(w: World, ix: Index, tx: Tx) {
    forall o | o in tx.vin && Fetchable(w, ix, o) :: !PrevOut(w, ix, o).IsEmpty()
  }

  predicate Apart(staked: set<OutPoint>, tx: Tx) {
    forall o | o in tx.vin :: o !in staked
  }

  /** What transaction `k` of the template needs beyond what it was chosen for, so that it connects
      in the block. */
  ghost predicate FitsBlock(n: Node, vtx: seq<Tx>, b: BlockIndex, k: nat)
    requires k < |vtx| < |b.block.vtx|
  {
    var ix := After(n.db, vtx[..k]);
    && (n.w.IsProtocolVFork1(b.nHeight) ==> NoMarkerSpent(n.w, ix, vtx[k]))
    && Apart(Staked(n, vtx, b), vtx[k])
    && Signed(n, ix, vtx[k], b)
  }

  ghost predicate AllFitBlock(n: Node, vtx: seq<Tx>, b: BlockIndex)
    requires |vtx| < |b.block.vtx|
  {
    forall k | 0 <= k < |vtx| :: FitsBlock(n, vtx, b, k)
  }

  /** A transaction old enough for the template is old enough for the block after. */
  lemma StillMature(prev: BlockIndex, b: BlockIndex, pos: DiskTxPos, depth: nat)
    requires prev.Linked() && b.Linked() && b.pprev == prev && !b.HoldsPos(pos)
    ensures ConfirmedWithin(pos, b, depth) ==> ConfirmedWithin(pos, prev, depth)
  {
    if ConfirmedWithin(pos, b, depth) {
      var h: nat :| h <= b.nHeight < h + depth && b.Path()[h].HoldsPos(pos);
      assert h <= prev.nHeight && prev.Path()[h] == b.Path()[h];
    }
  }

  lemma PrevoutStillOk(n: Node, prev: BlockIndex, b: BlockIndex, ix: Index, jx: Index, head: set<Txid>, staked: set<OutPoint>, tx: Tx, o: OutPoint)
    requires prev.Linked() && b.Linked() && b.pprev == prev && Mirrors(n, ix, jx, head, staked)
    requires forall h | h in n.db :: !b.HoldsPos(n.db[h].pos)
    requires PrevoutOk(n.w, ix, tx, o, prev)
    ensures PrevoutOk(n.w, jx, tx, o, b) <==> (n.w.IsProtocolVFork1(b.nHeight) ==> !PrevOut(n.w, ix, o).IsEmpty())
  {
    hide ConfirmedWithin;
    MirrorsSlot(n, ix, jx, head, staked, o);
    assert Mature(n, o.hash, ix[o.hash], jx[o.hash]);
    if o.hash in n.db && jx[o.hash].pos == n.db[o.hash].pos {
      StillMature(prev, b, jx[o.hash].pos, n.w.nCoinbaseMaturity);
    }
  }

  /** What connects in the template connects in the block, but for spent markers and for what the
      coinstake has spent. */
  lemma StillConnects(n: Node, prev: BlockIndex, b: BlockIndex, ix: Index, jx: Index, head: set<Txid>, staked: set<OutPoint>, tx: Tx)
    requires prev.Linked() && b.Linked() && b.pprev == prev && Mirrors(n, ix, jx, head, staked)
    requires forall h | h in n.db :: !b.HoldsPos(n.db[h].pos)
    requires TxConnects(n.w, ix, tx, prev, PoolMode(n)) && !tx.IsCoinBase()
    ensures TxConnects(n.w, jx, tx, b, BlockMode(n.w, b, n.nBestHeight)) <==>
            (n.w.IsProtocolVFork1(b.nHeight) ==> NoMarkerSpent(n.w, ix, tx)) && Apart(staked, tx) && Signed(n, ix, tx, b)
    ensures ValueIn(n.w, jx, tx.vin) == ValueIn(n.w, ix, tx.vin) && P2SHSigOps(n.w, jx, tx, |tx.vin|) == P2SHSigOps(n.w, ix, tx, |tx.vin|)
  {
    hide Mirrors, ConfirmedWithin, PrevoutsOk, Spendable, NoMarkerSpent, Signed, Fetchable, Apart;
    AllFetchable(n.w, ix, tx, prev);
    MirrorsValue(n, ix, jx, head, staked, tx.vin);
    MirrorsSigOps(n, ix, jx, head, staked, tx, |tx.vin|);
    PrevoutsStillOk(n, prev, b, ix, jx, head, staked, tx);
    StillSpendable(n, b, ix, jx, head, staked, tx);
  }

  lemma PrevoutsStillOk(n: Node, prev: BlockIndex, b: BlockIndex, ix: Index, jx: Index, head: set<Txid>, staked: set<OutPoint>, tx: Tx)
    requires prev.Linked() && b.Linked() && b.pprev == prev && Mirrors(n, ix, jx, head, staked)
    requires forall h | h in n.db :: !b.HoldsPos(n.db[h].pos)
    requires PrevoutsOk(n.w, ix, tx, |tx.vin|, prev)
    ensures PrevoutsOk(n.w, jx, tx, |tx.vin|, b) <==> (n.w.IsProtocolVFork1(b.nHeight) ==> NoMarkerSpent(n.w, ix, tx))
  {
    hide Mirrors, PrevoutOk, ValueIn, Fetchable;
    AllFetchable(n.w, ix, tx, prev);
    forall i | 0 <= i < |tx.vin|
      ensures PrevoutOk(n.w, jx, tx, tx.vin[i], b) <==> (n.w.IsProtocolVFork1(b.nHeight) ==> !PrevOut(n.w, ix, tx.vin[i]).IsEmpty())
      ensures MoneyRange(ValueIn(n.w, jx, tx.vin[..i + 1]))
    {
      assert PrevoutOk(n.w, ix, tx, tx.vin[i], prev);
      PrevoutStillOk(n, prev, b, ix, jx, head, staked, tx, tx.vin[i]);
      MirrorsValue(n, ix, jx, head, staked, tx.vin[..i + 1]);
    }
  }

  lemma StillSpendable(n: Node, b: BlockIndex, ix: Index, jx: Index, head: set<Txid>, staked: set<OutPoint>, tx: Tx)
    requires Mirrors(n, ix, jx, head, staked) && Spendable(n.w, ix, tx, |tx.vin|, PoolMode(n))
    requires forall i | 0 <= i < |tx.vin| :: Fetchable(n.w, ix, tx.vin[i])
    ensures Spendable(n.w, jx, tx, |tx.vin|, BlockMode(n.w, b, n.nBestHeight)) <==> Apart(staked, tx) && Signed(n, ix, tx, b)
  {
    hide Mirrors, Fetchable;
    forall i | 0 <= i < |tx.vin|
      ensures IsFree(jx, tx.vin[i]) <==> tx.vin[i] !in staked
      ensures tx.vin[i].hash in jx && Prev(n.w, jx, tx.vin[i]) == Prev(n.w, ix, tx.vin[i])
    {
      assert IsFree(ix, tx.vin[i]);
      MirrorsSlot(n, ix, jx, head, staked, tx.vin[i]);
    }
  }

  // ----- step by step

  /** The totals of the block over its coinbase and coinstake. */
  ghost function HeadTotals(n: Node, vtx: seq<Tx>, b: BlockIndex): Totals
    requires |vtx| <= |b.block.vtx|
  {
    TotalsUpTo(n.w, n.db, b, HeadSize(vtx, b))
  }

  /** After `k` template transactions, and what stands before them, the block is where the
      template was. */
  ghost predicate InStep(n: Node, vtx: seq<Tx>, b: BlockIndex, k: nat)
    requires k <= |vtx| < |b.block.vtx|
  {
    var t := TotalsUpTo(n.w, n.db, b, HeadSize(vtx, b) + k);
    && Mirrors(n, After(n.db, vtx[..k]), ConnectTxs(n.db, b, HeadSize(vtx, b) + k), Heads(vtx, b), Staked(n, vtx, b))
    && t.nFees == Fees(n, vtx[..k])
    && t.nStakeReward == HeadTotals(n, vtx, b).nStakeReward
    && t.nSigOps + 100 == SigOps(n, vtx[..k]) + HeadTotals(n, vtx, b).nSigOps
  }

  lemma StartsInStep(n: Node, prev: BlockIndex, vtx: seq<Tx>, b: BlockIndex)
    requires MadeFrom(n, prev, vtx, b)
    ensures InStep(n, vtx, b, 0)
  {
    hide MarkAll, Mature;
    var coinbase := b.block.vtx[0];
    var ix := ConnectTxs(n.db, b, 1);
    assert ix == ConnectTx(ConnectTxs(n.db, b, 0), coinbase, b.TxPos(0)) == n.db[coinbase.hash := NewEntry(coinbase, b.TxPos(0))];
    assert TotalsUpTo(n.w, n.db, b, 1) == AddTotals(n.w, n.db, coinbase, TotalsUpTo(n.w, n.db, b, 0));
    var jx := ConnectTxs(n.db, b, HeadSize(vtx, b));
    if HeadSize(vtx, b) == 2 {
      var stake := b.block.vtx[1];
      assert jx == ConnectTx(ix, stake, b.TxPos(1));
      MarkAllSlots(ix, stake.vin, b.TxPos(1));
      assert TotalsUpTo(n.w, n.db, b, 2) == AddTotals(n.w, ix, stake, TotalsUpTo(n.w, n.db, b, 1));
      forall h | h in n.db ensures Twins(n.w, h, n.db[h], jx[h], Staked(n, vtx, b)) {
        forall m | 0 <= m < |n.db[h].vSpent|
          ensures jx[h].vSpent[m] == Null <==> n.db[h].vSpent[m] == Null && OutPoint(h, m) !in Staked(n, vtx, b)
        {
          assert HasSlot(ix, OutPoint(h, m));
        }
      }
    }
    forall h | h in n.db ensures Mature(n, h, n.db[h], jx[h]) {
      MatureOnChain(n, h, n.db[h], jx[h]);
    }
  }

  lemma MatureOnChain(n: Node, h: Txid, e: TxIndex, f: TxIndex)
    requires h in n.db && e.pos == f.pos == n.db[h].pos
    ensures Mature(n, h, e, f)
  {
  }

  /** A template transaction connects in the block when it fits there, and the two stay in step
      in any case. */
  lemma StaysInStep(n: Node, prev: BlockIndex, vtx: seq<Tx>, b: BlockIndex, k: nat)
    requires PoolOk(n) && MadeFrom(n, prev, vtx, b) && Assembled(n, prev, vtx)
    requires k < |vtx| && InStep(n, vtx, b, k)
    ensures InStep(n, vtx, b, k + 1)
    ensures StepAgrees(n, vtx, b, k)
  {
    hide PoolOk, Assembled, Mirrors, Signed, Apart, MadeFrom, TxConnects, PrevoutsOk, Reads, Fetchable, ConnectTx, After, ConnectTxs, TotalsUpTo,
         Fees, SigOps, Parents, NoMarkerSpent, Heads, Staked, HeadTotals;
    TemplateTx(n, prev, vtx, b, k);
    var d, tx := HeadSize(vtx, b), vtx[k];
    var done, ix, jx := vtx[..k], After(n.db, vtx[..k]), ConnectTxs(n.db, b, d + k);
    AssembledPrefix(n, prev, vtx, k);
    AfterReads(n, prev, done);
    StillConnects(n, prev, b, ix, jx, Heads(vtx, b), Staked(n, vtx, b), tx);
    FeeOfTx(n, prev, done, tx);
    MirrorsNext(n, ix, jx, Heads(vtx, b), Staked(n, vtx, b), tx, b.TxPos(d + k));
    BlockStep(n, b, vtx, k);
  }

  lemma TemplateTx(n: Node, prev: BlockIndex, vtx: seq<Tx>, b: BlockIndex, k: nat)
    requires PoolOk(n) && MadeFrom(n, prev, vtx, b) && Assembled(n, prev, vtx) && k < |vtx|
    ensures prev.Linked() && b.Linked() && b.pprev == prev && |vtx| < |b.block.vtx|
    ensures forall h | h in n.db :: !b.HoldsPos(n.db[h].pos)
    ensures var d, tx := HeadSize(vtx, b), vtx[k];
            && FromPool(n, tx) && Fits(n, prev, vtx[..k], tx) && tx == b.block.vtx[d + k] && tx.hash !in Heads(vtx, b)
            && tx.hash !in n.db && (forall o | o in Staked(n, vtx, b) :: o.hash != tx.hash)
            && n.w.readTx(tx.hash, b.TxPos(d + k)) == tx == n.w.readTx(tx.hash, MEMPOOL_POS)
            && forall i | 0 <= i < |tx.vin| :: IsFree(After(n.db, vtx[..k]), tx.vin[i])
  {
    hide Fits, Parents, After, IsFree, Heads;
    assert WellPlaced(n, prev, vtx, k);
    var d, tx := HeadSize(vtx, b), vtx[k];
    assert tx == b.block.vtx[d..][k] && tx in vtx;
    assert tx.hash in Hashes(vtx);
    assert b.OnDisk(n.w);
    forall i | 0 <= i < |tx.vin| ensures IsFree(After(n.db, vtx[..k]), tx.vin[i]) {
      FreeInput(n, prev, vtx[..k], tx, tx.vin[i]);
    }
  }

  lemma FeeOfTx(n: Node, prev: BlockIndex, done: seq<Tx>, tx: Tx)
    requires PoolOk(n) && prev.Linked() && Reads(n, After(n.db, done)) && Fits(n, prev, done, tx) && FromPool(n, tx)
    ensures ValueIn(n.w, After(n.db, done), tx.vin) - ValueOf(tx.vout) == Fee(n, tx)
  {
    hide PoolOk, After, Reads;
    AllFetchable(n.w, After(n.db, done), tx, prev);
    ValueIsWorth(n, After(n.db, done), tx.vin);
  }

  lemma BlockStep(n: Node, b: BlockIndex, vtx: seq<Tx>, k: nat)
    requires k < |vtx| < |b.block.vtx| && b.block.vtx[HeadSize(vtx, b) + k] == vtx[k]
    ensures var d := HeadSize(vtx, b);
            && ConnectTxs(n.db, b, d + k + 1) == ConnectTx(ConnectTxs(n.db, b, d + k), vtx[k], b.TxPos(d + k))
            && TotalsUpTo(n.w, n.db, b, d + k + 1) == AddTotals(n.w, ConnectTxs(n.db, b, d + k), vtx[k], TotalsUpTo(n.w, n.db, b, d + k))
    ensures After(n.db, vtx[..k + 1]) == ConnectTx(After(n.db, vtx[..k]), vtx[k], MEMPOOL_POS)
    ensures Fees(n, vtx[..k + 1]) == Fees(n, vtx[..k]) + Fee(n, vtx[k])
    ensures SigOps(n, vtx[..k + 1]) == SigOps(n, vtx[..k]) + TxSigOps(n, vtx[..k], vtx[k])
  {
    hide ConnectTx, AddTotals, Fee, TxSigOps;
    assert vtx[..k + 1][..k] == vtx[..k];
  }

  /** Transaction `k` of the template connects in the block exactly when it fits there. */
  ghost predicate StepAgrees(n: Node, vtx: seq<Tx>, b: BlockIndex, k: nat)
    requires b.Linked() && k < |vtx| < |b.block.vtx|
  {
    TxStepOk(n.w, n.db, b, HeadSize(vtx, b) + k, n.nBestHeight) <==> FitsBlock(n, vtx, b, k)
  }

  ghost predicate StepsAgree(n: Node, vtx: seq<Tx>, b: BlockIndex, k: nat)
    requires b.Linked() && k <= |vtx| < |b.block.vtx|
  {
    forall j | 0 <= j < k :: StepAgrees(n, vtx, b, j)
  }

  lemma {:induction false} AllInStep(n: Node, prev: BlockIndex, vtx: seq<Tx>, b: BlockIndex, k: nat)
    requires PoolOk(n) && MadeFrom(n, prev, vtx, b) && Assembled(n, prev, vtx) && k <= |vtx|
    ensures InStep(n, vtx, b, k) && StepsAgree(n, vtx, b, k)
  {
    hide InStep, PoolOk, Assembled, StepAgrees, Hashes, Heads, HeadSize;
    if k == 0 {
      StartsInStep(n, prev, vtx, b);
    } else {
      AllInStep(n, prev, vtx, b, k - 1);
      StaysInStep(n, prev, vtx, b, k - 1);
    }
  }

  lemma AllSteps(n: Node, vtx: seq<Tx>, b: BlockIndex)
    requires b.Linked() && |vtx| < |b.block.vtx| && StepsAgree(n, vtx, b, |vtx|)
    ensures TxStepsOk(n.w, n.db, b, |b.block.vtx|, n.nBestHeight) <==>
            TxStepsOk(n.w, n.db, b, HeadSize(vtx, b), n.nBestHeight) && AllFitBlock(n, vtx, b)
  {
    hide TxStepOk, FitsBlock;
    var d := HeadSize(vtx, b);
    if TxStepsOk(n.w, n.db, b, d, n.nBestHeight) && AllFitBlock(n, vtx, b) {
      forall k | 0 <= k < |b.block.vtx| ensures TxStepOk(n.w, n.db, b, k, n.nBestHeight) {
        assert k >= d ==> StepAgrees(n, vtx, b, k - d);
      }
    }
    if TxStepsOk(n.w, n.db, b, |b.block.vtx|, n.nBestHeight) {
      forall k | 0 <= k < |vtx| ensures FitsBlock(n, vtx, b, k) {
        assert StepAgrees(n, vtx, b, k) && TxStepOk(n.w, n.db, b, d + k, n.nBestHeight);
      }
    }
  }

  /** The coinstake, if there is one, connects after the coinbase. */
  ghost predicate StakeConnects(n: Node, vtx: seq<Tx>, b: BlockIndex)
    requires b.Linked() && |vtx| < |b.block.vtx|
  {
    HeadSize(vtx, b) == 2 ==> TxConnects(n.w, ConnectTxs(n.db, b, 1), b.block.vtx[1], b, BlockMode(n.w, b, n.nBestHeight))
  }

  /** What the coinbase or the coinstake takes is within the subsidy and the fees of the template. */
  ghost predicate RewardFits(n: Node, vtx: seq<Tx>, b: BlockIndex)
    requires b.pprev != null && |vtx| < |b.block.vtx|
  {
    if HeadSize(vtx, b) == 2
    then ValueOf(b.block.vtx[1].vout) - ValueIn(n.w, ConnectTxs(n.db, b, 1), b.block.vtx[1].vin) <= ProofOfStakeSubsidy(b.pprev.nHeight) + Fees(n, vtx)
    else ValueOf(b.block.vtx[0].vout) <= ProofOfWorkSubsidy(b.nHeight) + Fees(n, vtx)
  }

  /** The template sets a hundred operations aside for what stands before it. */
  ghost predicate SigOpsFit(n: Node, vtx: seq<Tx>, b: BlockIndex)
    requires |vtx| <= |b.block.vtx|
  {
    SigOps(n, vtx) - 100 + HeadTotals(n, vtx, b).nSigOps <= MAX_BLOCK_SIGOPS
  }

  lemma HeadSteps(n: Node, prev: BlockIndex, vtx: seq<Tx>, b: BlockIndex)
    requires MadeFrom(n, prev, vtx, b)
    ensures TxStepsOk(n.w, n.db, b, HeadSize(vtx, b), n.nBestHeight) <==> StakeConnects(n, vtx, b)
    ensures HeadSize(vtx, b) == 2 ==>
              HeadTotals(n, vtx, b).nStakeReward ==
              ValueOf(b.block.vtx[1].vout) - ValueIn(n.w, ConnectTxs(n.db, b, 1), b.block.vtx[1].vin)
  {
    hide ConnectTx, PrevoutsOk, Spendable, FeeOk;
    assert TxStepOk(n.w, n.db, b, 0, n.nBestHeight);
    if HeadSize(vtx, b) == 2 {
      assert TxStepOk(n.w, n.db, b, 1, n.nBestHeight) <==> StakeConnects(n, vtx, b);
      assert TotalsUpTo(n.w, n.db, b, 2) == AddTotals(n.w, ConnectTxs(n.db, b, 1), b.block.vtx[1], TotalsUpTo(n.w, n.db, b, 1));
    }
  }

  /** Only with a coinstake is it a proof-of-stake block. */
  lemma StakeFirst(n: Node, prev: BlockIndex, vtx: seq<Tx>, b: BlockIndex)
    requires MadeFrom(n, prev, vtx, b) && Assembled(n, prev, vtx)
    ensures b.block.IsProofOfStake() <==> HeadSize(vtx, b) == 2
  {
    hide Fits, Parents;
    if HeadSize(vtx, b) == 1 && |vtx| > 0 {
      assert WellPlaced(n, prev, vtx, 0);
      assert b.block.vtx[1] == b.block.vtx[1..][0];
    }
  }

  /** A block made from a template connects exactly when its coinstake, if it has one, connects
      after the coinbase, every transaction fits in the block, what the coinbase or the coinstake
      takes is within the subsidy and the template's fees, and the operations are within their
      limit. */
  lemma TemplateConnects(n: Node, prev: BlockIndex, vtx: seq<Tx>, b: BlockIndex)
    requires PoolOk(n) && MadeFrom(n, prev, vtx, b) && Assembled(n, prev, vtx) && CheckBlock(n.w, b.block)
    ensures BlockConnects(n.w, n.db, b, n.nBestHeight) <==>
            StakeConnects(n, vtx, b) && AllFitBlock(n, vtx, b) && RewardFits(n, vtx, b) && SigOpsFit(n, vtx, b)
    ensures TotalsUpTo(n.w, n.db, b, |b.block.vtx|).nFees == Fees(n, vtx)
  {
    hide PoolOk, TxStepsOk, CheckBlock, Mirrors, SigOps, Fees, AllFitBlock, StepsAgree, StakeConnects, Heads, Hashes, HeadTotals, TotalsUpTo;
    AllInStep(n, prev, vtx, b, |vtx|);
    HeadSteps(n, prev, vtx, b);
    AllSteps(n, vtx, b);
    StakeFirst(n, prev, vtx, b);
    assert vtx[..|vtx|] == vtx;
  }

  /** A template made after the fork spends no marker in the first place. */
  lemma NoMarkerAfterFork(n: Node, prev: BlockIndex, vtx: seq<Tx>, k: nat)
    requires prev.Linked() && Assembled(n, prev, vtx) && n.w.IsProtocolVFork1(prev.nHeight) && k < |vtx|
    ensures NoMarkerSpent(n.w, After(n.db, vtx[..k]), vtx[k])
  {
    hide After, Parents;
    assert WellPlaced(n, prev, vtx, k);
    var ix, tx := After(n.db, vtx[..k]), vtx[k];
    forall i | 0 <= i < |tx.vin| ensures PrevoutOk(n.w, ix, tx, tx.vin[i], prev) {
      assert FromPool(n, tx) && PrevoutsOk(n.w, ix, tx, |tx.vin|, prev);
    }
  }
}
