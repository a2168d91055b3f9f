/** Coinstakes where they do not belong.  CheckBlock keeps a coinstake that is not at index 1 out
    of proof-of-stake blocks, but not out of proof-of-work blocks, and there nothing bounds what
    it issues. */
module StrayStake {
  import opened Transactions
  import opened SpentIndex
  import opened BlockTree
  import opened TxInputs
  import opened BlockConnect
  import opened BlockUndo
  import opened Replay
  import opened Supply

  /** `tx` spends `o` alone; the output is there, free, mature at `at` and signed for. */
  ghost predicate SpendsLone(w: World, ix: Index, tx: Tx, o: OutPoint, at: BlockIndex, m: Mode)
    requires at.Linked()
  {
    && tx.vin == [o] && !tx.IsCoinBase()
    && IsFree(ix, o) && PrevoutOk(w, ix, tx, o, at)
    && w.verifySignature(Prev(w, ix, o), tx, 0, m.rules)
  }

  /** The entry that `o` names is the same but for what was spent of it, and `o` is still free. */
  ghost predicate Untouched(ix: Index, jx: Index, o: OutPoint) {
    IsFree(ix, o) && IsFree(jx, o) && jx[o.hash].pos == ix[o.hash].pos && |jx[o.hash].vSpent| == |ix[o.hash].vSpent|
  }

  lemma StaysUntouched(ix: Index, tx: Tx, p: DiskTxPos, o: OutPoint)
    requires IsFree(ix, o) && tx.hash != o.hash && (!tx.IsCoinBase() ==> o !in tx.vin)
    ensures Untouched(ix, ConnectTx(ix, tx, p), o)
  {
    MarkAllSlots(ix, tx.vin, p);
  }

  lemma LoneConnects(w: World, ix: Index, jx: Index, tx: Tx, o: OutPoint, at: BlockIndex, m: Mode)
    requires at.Linked() && SpendsLone(w, ix, tx, o, at, m) && Untouched(ix, jx, o)
    requires FeeOk(w, OutValue(w, ix, o), tx, m)
    ensures TxConnects(w, jx, tx, at, m) && ValueIn(w, jx, tx.vin) == OutValue(w, ix, o)
    ensures P2SHSigOps(w, jx, tx, 1) == P2SHSigOps(w, ix, tx, 1)
  {
    assert tx.vin[..0] == [] && tx.vin[..1] == tx.vin;
    assert ValueIn(w, jx, []) == 0 && ValueIn(w, jx, tx.vin) == OutValue(w, jx, o) == OutValue(w, ix, o);
    assert PrevoutOk(w, jx, tx, o, at) && Spendable(w, jx, tx, 1, m);
    assert P2SHSigOps(w, jx, tx, 0) == 0 == P2SHSigOps(w, ix, tx, 0);
  }

  /** A proof-of-work block on top of a connected chain: a coinbase, a payment of `o1`, and a
      coinstake that spends `o2`. */
  ghost predicate StrayBlock(w: World, b: BlockIndex, o1: OutPoint, o2: OutPoint, nBestHeight: int)
    requires b.Linked() && b.pprev != null
  {
    var vtx, ix, m := b.block.vtx, ReplayTo(b.pprev), BlockMode(w, b, nBestHeight);
    && |vtx| == 3 && CheckBlock(w, b.block) && Fresh(ix, b) && o1 != o2
    && SpendsLone(w, ix, vtx[1], o1, b, m) && !vtx[1].IsCoinStake() && FeeOk(w, OutValue(w, ix, o1), vtx[1], m)
    && SpendsLone(w, ix, vtx[2], o2, b, m) && vtx[2].IsCoinStake()
    && ValueOf(vtx[0].vout) <= ProofOfWorkSubsidy(b.nHeight) + OutValue(w, ix, o1) - ValueOf(vtx[1].vout)
    && vtx[0].nLegacySigOps + vtx[1].nLegacySigOps + P2SHSigOps(w, ix, vtx[1], 1)
       + vtx[2].nLegacySigOps + P2SHSigOps(w, ix, vtx[2], 1) <= MAX_BLOCK_SIGOPS
  }

  lemma StraySteps(w: World, b: BlockIndex, o1: OutPoint, o2: OutPoint, nBestHeight: int)
    requires b.Linked() && b.pprev != null && StrayBlock(w, b, o1, o2, nBestHeight)
    ensures TxStepsOk(w, ReplayTo(b.pprev), b, 3, nBestHeight)
    ensures var t, vtx, ix := TotalsUpTo(w, ReplayTo(b.pprev), b, 3), b.block.vtx, ReplayTo(b.pprev);
            && t.nFees == OutValue(w, ix, o1) - ValueOf(vtx[1].vout)
            && t.nValueIn == OutValue(w, ix, o1) + OutValue(w, ix, o2)
            && t.nValueOut == ValueOf(vtx[0].vout) + ValueOf(vtx[1].vout) + ValueOf(vtx[2].vout)
            && t.nSigOps == vtx[0].nLegacySigOps + vtx[1].nLegacySigOps + P2SHSigOps(w, ix, vtx[1], 1)
                            + vtx[2].nLegacySigOps + P2SHSigOps(w, ix, vtx[2], 1)
  {
    hide TxConnects, ConnectTx, PrevoutOk, ConfirmedWithin, ReplayTo, FeeOk, P2SHSigOps, CheckTransaction, LegacySigOps;
    var vtx, ix, m := b.block.vtx, ReplayTo(b.pprev), BlockMode(w, b, nBestHeight);
    assert vtx[0].IsCoinBase();
    var i1 := ConnectTx(ix, vtx[0], b.TxPos(0));
    var i2 := ConnectTx(i1, vtx[1], b.TxPos(1));
    assert ConnectTxs(ix, b, 0) == ix && ConnectTxs(ix, b, 1) == i1 && ConnectTxs(ix, b, 2) == i2;
    CoinbaseConnects(w, ix, vtx[0], b, m);
    StaysUntouched(ix, vtx[0], b.TxPos(0), o1);
    StaysUntouched(ix, vtx[0], b.TxPos(0), o2);
    LoneConnects(w, ix, i1, vtx[1], o1, b, m);
    StaysUntouched(i1, vtx[1], b.TxPos(1), o2);
    StakeNeedsNoFee(w, OutValue(w, ix, o2), vtx[2], m);
    LoneConnects(w, ix, i2, vtx[2], o2, b, m);
    assert TxStepOk(w, ix, b, 0, nBestHeight) && TxStepOk(w, ix, b, 1, nBestHeight) && TxStepOk(w, ix, b, 2, nBestHeight);
    assert TotalsUpTo(w, ix, b, 1) == AddTotals(w, ix, vtx[0], TotalsUpTo(w, ix, b, 0));
    assert TotalsUpTo(w, ix, b, 2) == AddTotals(w, i1, vtx[1], TotalsUpTo(w, ix, b, 1));
    assert TotalsUpTo(w, ix, b, 3) == AddTotals(w, i2, vtx[2], TotalsUpTo(w, ix, b, 2));
  }

  lemma CoinbaseConnects(w: World, ix: Index, tx: Tx, at: BlockIndex, m: Mode)
    requires at.Linked() && tx.IsCoinBase()
    ensures TxConnects(w, ix, tx, at, m)
  {
  }

  lemma StakeNeedsNoFee(w: World, valueIn: int, tx: Tx, m: Mode)
    requires tx.IsCoinStake()
    ensures FeeOk(w, valueIn, tx, m)
  {
  }

  /** Such a block connects whatever its coinstake pays, and the supply grows by all of that. */
  lemma StrayCoinStakeConnects(w: World, b: BlockIndex, o1: OutPoint, o2: OutPoint, nBestHeight: int)
    requires b.Linked() && b.pprev != null && ConnectsTo(w, b.pprev) && b.OnDisk(w) && StrayBlock(w, b, o1, o2, nBestHeight)
    ensures !b.block.IsProofOfStake() && ConnectsTo(w, b)
    ensures var vtx, ix := b.block.vtx, ReplayTo(b.pprev);
            Total(w, ReplayTo(b)) == Total(w, ix) + ValueOf(vtx[0].vout) + ValueOf(vtx[1].vout) + ValueOf(vtx[2].vout)
                                     - OutValue(w, ix, o1) - OutValue(w, ix, o2)
  {
    hide TxStepsOk, ConnectTxs, P2SHSigOps, CheckTransaction, LegacySigOps, SpendsLone, FeeOk;
    StraySteps(w, b, o1, o2, nBestHeight);
    assert BlockConnects(w, ReplayTo(b.pprev), b, nBestHeight);
    BlockTotal(w, ReplayTo(b.pprev), b, nBestHeight, 3);
    assert ConnectsOnParent(w, b);
  }

  /** A block of a coinbase and a transaction that spends one output: a payment, or a coinstake that
      gains nothing. */
  lemma PairConnects(w: World, ix: Index, b: BlockIndex, o: OutPoint)
    requires b.Linked() && b.pprev != null && |b.block.vtx| == 2 && CheckBlock(w, b.block) && Fresh(ix, b)
    requires var tx, m := b.block.vtx[1], BlockMode(w, b, 0);
             && SpendsLone(w, ix, tx, o, b, m) && FeeOk(w, OutValue(w, ix, o), tx, m)
             && (if tx.IsCoinStake() then ValueOf(tx.vout) <= OutValue(w, ix, o) else ValueOf(b.block.vtx[0].vout) <= ProofOfWorkSubsidy(b.nHeight))
             && b.block.vtx[0].nLegacySigOps + tx.nLegacySigOps + P2SHSigOps(w, ix, tx, 1) <= MAX_BLOCK_SIGOPS
    ensures BlockConnects(w, ix, b, 0)
    ensures ConnectAll(ix, b) == ConnectTx(ConnectTx(ix, b.block.vtx[0], b.TxPos(0)), b.block.vtx[1], b.TxPos(1))
  {
    hide TxConnects, ConnectTx, PrevoutOk, ConfirmedWithin, P2SHSigOps, CheckTransaction, LegacySigOps;
    var vtx, m := b.block.vtx, BlockMode(w, b, 0);
    assert vtx[0].IsCoinBase();
    var i1 := ConnectTx(ix, vtx[0], b.TxPos(0));
    assert ConnectTxs(ix, b, 0) == ix && ConnectTxs(ix, b, 1) == i1;
    CoinbaseConnects(w, ix, vtx[0], b, m);
    StaysUntouched(ix, vtx[0], b.TxPos(0), o);
    LoneConnects(w, ix, i1, vtx[1], o, b, m);
    assert TxStepOk(w, ix, b, 0, 0) && TxStepOk(w, ix, b, 1, 0);
    assert TotalsUpTo(w, ix, b, 0) == Totals(0, 0, 0, 0, 0);
    assert TotalsUpTo(w, ix, b, 1) == AddTotals(w, ix, vtx[0], TotalsUpTo(w, ix, b, 0));
    assert TotalsUpTo(w, ix, b, 2) == AddTotals(w, i1, vtx[1], TotalsUpTo(w, ix, b, 1));
  }

  // ----- a chain from the genesis block on which this happens

  /** The coinbase of a height: the premine at height 1, in two outputs, and nothing above. */
  function CoinbaseAt(h: nat): Tx {
    Tx(h, 0, [OutPoint(0, 0xffff_ffff)],
       if h == 1 then [TxOut(15_000_000_000 * COIN - 1, [1]), TxOut(1, [1])] else [TxOut(0, [1])], 2, h, 100, 0)
  }

  function Payment(h: nat): Tx {
    Tx(h + 1, 0, [OutPoint(1, 0)], [TxOut(15_000_000_000 * COIN - 1 - MIN_TX_FEE, [1])], 0, 0, 100, 0)
  }

  /** It spends 1 and pays all the money there may be. */
  function Stray(h: nat): Tx {
    Tx(h + 2, 0, [OutPoint(1, 1)], [TxOut(0, []), TxOut(MAX_MONEY, [1])], 0, 0, 100, 0)
  }

  function BlockAt(top: nat, h: nat): Block {
    Block(if h < top then [CoinbaseAt(h)] else [CoinbaseAt(h), Payment(h), Stray(h)])
  }

  /** The block files have all of these; every signature holds. */
  function StrayWorld(top: nat, nCoinbaseMaturity: nat, nStartPosv2Block: int, nStartPosvFork1Block: int): World {
    World((h: Txid, p: DiskTxPos) => if h <= top then CoinbaseAt(h) else if h == top + 1 then Payment(top) else Stray(top),
          (from: Tx, tx: Tx, i: nat, rules: ScriptRules) => true, (tx: Tx, i: nat, out: TxOut) => 0,
          (b: Block) => true, nCoinbaseMaturity, 0, nStartPosv2Block, nStartPosvFork1Block)
  }

  /** The blocks down from `b` are those of the chain, each at a place of its own. */
  ghost predicate OnStrayChain(top: nat, b: BlockIndex) {
    b.Linked() && b.nHeight <= top &&
    forall h: nat | h <= b.nHeight :: b.Path()[h].block == BlockAt(top, h) && b.Path()[h].nFile == 1 && b.Path()[h].nBlockPos == 1000 * h
  }

  lemma ValueOfOne(v: TxOut)
    ensures ValueOf([v]) == v.nValue && ValueOf([]) == 0
  {
    assert [v][..0] == [];
  }

  lemma ValueOfTwo(v: TxOut, u: TxOut)
    ensures ValueOf([v, u]) == v.nValue + u.nValue
  {
    ValueOfOne(v);
    assert [v, u][..1] == [v];
  }

  lemma CoinbaseChecks(h: nat)
    ensures CoinbaseAt(h).IsCoinBase() && CheckTransaction(CoinbaseAt(h))
    ensures ValueOf(CoinbaseAt(h).vout) == ProofOfWorkSubsidy(h)
  {
    var vout := CoinbaseAt(h).vout;
    ValueOfOne(vout[0]);
    assert vout[..1] == [vout[0]];
    if h == 1 {
      ValueOfTwo(vout[0], vout[1]);
      assert vout[..2] == vout == [vout[0], vout[1]];
    }
  }

  lemma SpenderChecks(h: nat)
    ensures !Payment(h).IsCoinBase() && !Payment(h).IsCoinStake() && CheckTransaction(Payment(h))
    ensures !Stray(h).IsCoinBase() && Stray(h).IsCoinStake() && CheckTransaction(Stray(h))
    ensures ValueOf(Payment(h).vout) == 15_000_000_000 * COIN - 1 - MIN_TX_FEE && ValueOf(Stray(h).vout) == MAX_MONEY
  {
    ValueOfOne(Payment(h).vout[0]);
    assert Payment(h).vout[..1] == Payment(h).vout;
    var vout := Stray(h).vout;
    ValueOfOne(vout[0]);
    ValueOfTwo(vout[0], vout[1]);
    assert vout[..1] == [vout[0]] && vout[..2] == vout == [vout[0], vout[1]];
  }

  lemma BlocksCheck(top: nat, h: nat, w: World)
    requires h <= top && top > 1 && forall b :: w.otherBlockChecks(b)
    ensures CheckBlock(w, BlockAt(top, h)) && !BlockAt(top, h).IsProofOfStake()
  {
    hide CheckTransaction;
    CoinbaseChecks(h);
    SpenderChecks(h);
    var vtx := BlockAt(top, h).vtx;
    assert [vtx[0]][..0] == [] && LegacySigOps([]) == 0 && LegacySigOps([vtx[0]]) == 0;
    if h == top {
      assert [vtx[0], vtx[1]][..1] == [vtx[0]] && LegacySigOps([vtx[0], vtx[1]]) == 0;
      assert vtx[..2] == [vtx[0], vtx[1]] && LegacySigOps(vtx) == 0;
    }
  }

  /** What replaying the chain gives below the last block. */
  ghost predicate Premined(w: World, b: BlockIndex)
    requires b.Linked()
  {
    var ix := ReplayTo(b);
    && ConnectsTo(w, b) && AcceptedTo(b) && OnDiskTo(w, b)
    && (forall h :: h in ix ==> 1 <= h <= b.nHeight)
    && (forall t :: t in TxsTo(b) ==> t == CoinbaseAt(t.hash) && 1 <= t.hash <= b.nHeight)
    && Total(w, ix) == (if b.nHeight == 0 then 0 else 15_000_000_000 * COIN)
    && (b.nHeight > 0 ==> 1 in ix && ix[1].vSpent == [Null, Null] && ix[1].pos.At? && ix[1].pos.nFile == 1 && ix[1].pos.nBlockPos == 1000)
  }

  /** A block of a coinbase alone on top. */
  lemma PremineStep(w: World, top: nat, b: BlockIndex)
    requires b.Linked() && b.pprev != null && OnStrayChain(top, b) && b.nHeight < top && Premined(w, b.pprev)
    requires w == StrayWorld(top, w.nCoinbaseMaturity, w.nStartPosv2Block, w.nStartPosvFork1Block)
    ensures Premined(w, b)
  {
    hide CheckBlock, Total, CheckTransaction, BlockConnects;
    var h, ix := b.nHeight, ReplayTo(b.pprev);
    assert b.block == BlockAt(top, h) && b.Path()[h] == b;
    BlocksCheck(top, h, w);
    CoinbaseChecks(h);
    LoneCoinbase(w, ix, b, 0);
    BlockTotal(w, ix, b, 0, 1);
    assert ConnectsOnParent(w, b);
    assert TxsTo(b) == TxsTo(b.pprev) + {CoinbaseAt(h)};
  }

  /** An output of the premine is mature at the top. */
  lemma PremineMature(w: World, top: nat, b: BlockIndex, n: nat, tx: Tx)
    requires b.Linked() && b.pprev != null && OnStrayChain(top, b) && b.nHeight == top && top > 1 && top > w.nCoinbaseMaturity && Premined(w, b.pprev)
    requires w == StrayWorld(top, w.nCoinbaseMaturity, w.nStartPosv2Block, w.nStartPosvFork1Block)
    requires n < 2 && tx == [Payment(top), Stray(top)][n]
    ensures SpendsLone(w, ReplayTo(b.pprev), tx, OutPoint(1, n), b, BlockMode(w, b, 0))
    ensures OutValue(w, ReplayTo(b.pprev), OutPoint(1, n)) == [15_000_000_000 * COIN - 1, 1][n]
    ensures P2SHSigOps(w, ReplayTo(b.pprev), tx, 1) == 0
  {
    hide ReplayTo, AcceptedTo, OnDiskTo, ConnectsTo, Total, TxsTo;
    var ix, o := ReplayTo(b.pprev), OutPoint(1, n);
    assert b.pprev.nHeight > 0;
    assert Fetchable(w, ix, o) && Prev(w, ix, o) == CoinbaseAt(1);
    forall h: nat | h <= b.nHeight && b.Path()[h].HoldsPos(ix[1].pos) ensures h == 1 {
    }
    assert !ConfirmedWithin(ix[1].pos, b, w.nCoinbaseMaturity);
    assert P2SHSigOps(w, ix, tx, 0) == 0;
  }

  lemma TopIsStray(w: World, top: nat, b: BlockIndex)
    requires b.Linked() && b.pprev != null && OnStrayChain(top, b) && b.nHeight == top && top > 1 && top > w.nCoinbaseMaturity && Premined(w, b.pprev)
    requires w == StrayWorld(top, w.nCoinbaseMaturity, w.nStartPosv2Block, w.nStartPosvFork1Block)
    ensures StrayBlock(w, b, OutPoint(1, 0), OutPoint(1, 1), 0)
    ensures b.OnDisk(w) && AcceptedTo(b)
  {
    hide CheckBlock, CheckTransaction, SpendsLone, P2SHSigOps, ReplayTo, ConnectsTo, OnDiskTo, Total;
    assert b.block == BlockAt(top, top) && b.Path()[top] == b;
    BlocksCheck(top, top, w);
    CoinbaseChecks(top);
    SpenderChecks(top);
    PremineMature(w, top, b, 0, Payment(top));
    PremineMature(w, top, b, 1, Stray(top));
  }

  /** For any maturity there is a chain from the genesis block, of proof-of-work blocks alone,
      that connects and issues far more than its limit. */
  method BuildStrayChain(nCoinbaseMaturity: nat, nStartPosv2Block: int, nStartPosvFork1Block: int) returns (w: World, b: BlockIndex)
    ensures w.nCoinbaseMaturity == nCoinbaseMaturity && w.nStartPosv2Block == nStartPosv2Block && w.nStartPosvFork1Block == nStartPosvFork1Block
    ensures b.Linked() && b.nHeight == nCoinbaseMaturity + 2
    ensures forall h: nat | h <= b.nHeight :: !b.Path()[h].block.IsProofOfStake()
    ensures ConnectsTo(w, b) && AcceptedTo(b) && OnDiskTo(w, b)
    ensures Total(w, ReplayTo(b)) == 15_000_000_000 * COIN - MIN_TX_FEE - 1 + MAX_MONEY
    ensures nCoinbaseMaturity < 1_000_000 ==> Total(w, ReplayTo(b)) > SupplyLimit(b.nHeight)
  {
    hide Premined, ConnectsTo, AcceptedTo, OnDiskTo, ReplayTo, StrayBlock, OutValue, OnStrayChain, BlockAt, BlockIndex.Path;
    var top := nCoinbaseMaturity + 2;
    w := StrayWorld(top, nCoinbaseMaturity, nStartPosv2Block, nStartPosvFork1Block);
    b := new BlockIndex(null, 1, 0, 1, BlockAt(top, 0));
    GenesisPremined(w, b);
    OnStrayNext(top, b, b);
    while b.nHeight < top - 1
      invariant b.Linked() && OnStrayChain(top, b) && b.nHeight < top && Premined(w, b)
      decreases top - b.nHeight
    {
      var h := b.nHeight + 1;
      var next := new BlockIndex(b, 1, 1000 * h, 1, BlockAt(top, h));
      OnStrayNext(top, b, next);
      b := next;
      PremineStep(w, top, b);
    }
    var last := new BlockIndex(b, 1, 1000 * top, 1, BlockAt(top, top));
    OnStrayNext(top, b, last);
    b := last;
    TopIsStray(w, top, b);
    StrayTotal(w, top, b);
  }

  lemma OnStrayNext(top: nat, prev: BlockIndex, b: BlockIndex)
    requires b.Linked() && b.nHeight <= top && b.block == BlockAt(top, b.nHeight) && b.nFile == 1 && b.nBlockPos == 1000 * b.nHeight
    requires b.pprev == null || (b.pprev == prev && OnStrayChain(top, prev))
    ensures OnStrayChain(top, b)
  {
    hide BlockAt;
  }

  lemma GenesisPremined(w: World, b: BlockIndex)
    requires b.Linked() && b.pprev == null
    ensures Premined(w, b)
  {
  }

  lemma StrayTotal(w: World, top: nat, b: BlockIndex)
    requires b.Linked() && b.pprev != null && OnStrayChain(top, b) && b.nHeight == top && top > 1 && top > w.nCoinbaseMaturity && Premined(w, b.pprev)
    requires w == StrayWorld(top, w.nCoinbaseMaturity, w.nStartPosv2Block, w.nStartPosvFork1Block)
    requires b.OnDisk(w) && StrayBlock(w, b, OutPoint(1, 0), OutPoint(1, 1), 0)
    ensures ConnectsTo(w, b) && OnDiskTo(w, b)
    ensures Total(w, ReplayTo(b)) == 15_000_000_000 * COIN - MIN_TX_FEE - 1 + MAX_MONEY
    ensures forall h: nat | h <= top :: !b.Path()[h].block.IsProofOfStake()
  {
    hide ReplayTo, ConnectsTo, StrayBlock, SpendsLone, P2SHSigOps, CheckBlock, OutValue;
    assert b.block == BlockAt(top, top) && b.Path()[top] == b;
    StrayCoinStakeConnects(w, b, OutPoint(1, 0), OutPoint(1, 1), 0);
    CoinbaseChecks(top);
    SpenderChecks(top);
    PremineMature(w, top, b, 0, Payment(top));
    PremineMature(w, top, b, 1, Stray(top));
    forall h: nat | h <= top ensures !b.Path()[h].block.IsProofOfStake() {
      BlocksCheck(top, h, w);
    }
  }
}
