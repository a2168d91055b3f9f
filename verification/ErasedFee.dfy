/** A block as SignBlock makes it on a connected chain, which fails because the coinstake was paid
    the fee of a transaction that SignBlock then erased. */
module ErasedFee {
  import opened Transactions
  import opened SpentIndex
  import opened BlockTree
  import opened TxInputs
  import opened BlockConnect
  import opened Replay
  import opened Supply
  import opened StrayStake
  import opened Template
  import opened TemplateBlock
  import opened SignedBlock
  import opened ForkChain

  // ----- the template

  /** The clock of the node is one second past the time of the coinstake. */
  ghost function LateNode(p: Plan, w: World, prev: BlockIndex): Node
    requires prev.Linked()
  {
    Node(w, ReplayTo(prev), map[Late(p).hash := Late(p)], p.nFork, _ => true, _ => 0, 1_000_000, 0, 0, 0.0, Late(p).nTime, true, Late(p).nTime)
  }

  lemma LateOk(p: Plan)
    ensures !Late(p).IsCoinBase() && !Late(p).IsCoinStake() && ValueOf(Late(p).vout) == COIN - MIN_TX_FEE
  {
    ValueOfOne(Late(p).vout[0]);
  }

  lemma LateConnects(p: Plan, w: World, prev: BlockIndex)
    requires prev.Linked() && AtFork(p, w, prev)
    ensures var ix, tx, m := ReplayTo(prev), Late(p), Mode(false, Mandatory, p.nFork);
            && TxConnects(w, ix, tx, prev, m) && P2SHSigOps(w, ix, tx, 1) == 0
            && Fetchable(w, ix, tx.vin[0]) && PrevOut(w, ix, tx.vin[0]) == TxOut(COIN, [1])
  {
    hide AtFork, ReplayTo, PrevoutOk, TxConnects;
    var ix, tx, m := ReplayTo(prev), Late(p), Mode(false, Mandatory, p.nFork);
    var o := tx.vin[0];
    StakeOutput(p, w, prev, tx, 1);
    LateOk(p);
    SignaturesOf(p, w, prev);
    assert w.verifySignature(Prev(w, ix, o), tx, 0, Mandatory) && w.p2shSigOps(tx, 0, PrevOut(w, ix, o)) == 0;
    assert P2SHSigOps(w, ix, tx, 0) == 0;
    LoneConnects(w, ix, ix, tx, o, prev, m);
  }

  lemma LatePoolOk(p: Plan, w: World, prev: BlockIndex)
    requires prev.Linked() && AtFork(p, w, prev)
    ensures PoolOk(LateNode(p, w, prev))
  {
    hide ReplayTo, ConnectsTo;
  }

  lemma LateFits(p: Plan, w: World, prev: BlockIndex)
    requires prev.Linked() && AtFork(p, w, prev)
    ensures var n, tx := LateNode(p, w, prev), Late(p);
            Fits(n, prev, [], tx) && SigOps(n, [tx]) == 100 && Fees(n, [tx]) == MIN_TX_FEE && Parents(n, tx) == {} && FromPool(n, tx)
  {
    hide ReplayTo, TxConnects, AtFork, P2SHSigOps;
    var n, tx := LateNode(p, w, prev), Late(p);
    LateConnects(p, w, prev);
    LateOk(p);
    assert tx.vin[..0] == [] && WorthOf(n, []) == 0 && WorthOf(n, tx.vin) == COIN;
    assert [tx][..0] == [] && After(n.db, []) == n.db && SigOps(n, []) == 100 && Fees(n, []) == 0;
    assert TxSigOps(n, [], tx) == 0 && Fee(n, tx) == MIN_TX_FEE;
  }

  lemma LateAssembled(p: Plan, w: World, prev: BlockIndex)
    requires prev.Linked() && AtFork(p, w, prev)
    ensures PoolOk(LateNode(p, w, prev)) && Assembled(LateNode(p, w, prev), prev, [Late(p)])
  {
    hide PoolOk, AtFork, LateNode, Fits, Parents, FromPool, SigOps, Fees;
    LatePoolOk(p, w, prev);
    LateFits(p, w, prev);
    assert [Late(p)][..0] == [];
    assert WellPlaced(LateNode(p, w, prev), prev, [Late(p)], 0);
  }

  // ----- the signed block

  ghost predicate Erased(p: Plan, w: World, b: BlockIndex)
    requires b.Linked()
  {
    && b.pprev != null && AtFork(p, w, b.pprev) && b.nFile == 1 && b.nBlockPos == 1000 * b.nHeight
    && b.block == Block([CoinbaseOf(p, p.nFork + 1), Paid(p)])
  }

  lemma PaidOk(p: Plan, w: World)
    requires p.Ok() && w == ForkWorld(p, w.nStartPosv2Block)
    ensures CoinbaseOf(p, p.nFork + 1).IsCoinBase() && Paid(p).IsCoinStake() && !Paid(p).IsCoinBase()
    ensures ValueOf(Paid(p).vout) == COIN + ProofOfStakeSubsidy(p.nFork) + MIN_TX_FEE
    ensures CheckBlock(w, Block([CoinbaseOf(p, p.nFork + 1), Paid(p)]))
  {
    var cb, stake := CoinbaseOf(p, p.nFork + 1), Paid(p);
    CoinbaseOfChecks(p, p.nFork + 1);
    ValueOfOne(stake.vout[0]);
    ValueOfTwo(stake.vout[0], stake.vout[1]);
    assert stake.vout[..1] == [stake.vout[0]] && stake.vout[..2] == stake.vout;
    NoOps([cb, stake]);
    assert CheckTransaction(cb) && CheckTransaction(stake);
  }

  lemma ErasedOnDisk(p: Plan, w: World, b: BlockIndex)
    requires b.Linked() && Erased(p, w, b)
    ensures b.OnDisk(w)
  {
    hide Replayed, OnForkChain;
  }

  lemma ErasedMadeFrom(p: Plan, w: World, b: BlockIndex)
    requires b.Linked() && Erased(p, w, b)
    ensures MadeFrom(LateNode(p, w, b.pprev), b.pprev, [], b) && HeadSize([], b) == 2
  {
    hide CheckBlock, ConnectsTo, ReplayTo, CoinbaseOf, BlockOf, CheckTransaction, TxsTo, AcceptedTo, OnDiskTo, BlockIndex.OnDisk;
    PaidOk(p, w);
    CoinbaseHash(p, p.nFork + 1);
    ErasedOnDisk(p, w, b);
    var ix := ReplayTo(b.pprev);
    assert Within(ix, p.nFork);
    forall h | h in ix ensures !b.HoldsPos(ix[h].pos) {
    }
  }

  /** The coinstake connects, and takes its subsidy and the fee of the transaction that is not
      there. */
  lemma PaidConnects(p: Plan, w: World, b: BlockIndex)
    requires b.Linked() && Erased(p, w, b)
    ensures var n := LateNode(p, w, b.pprev);
            StakeConnects(n, [], b) && PaidInFull(n, [Late(p)], b) && SigOpsFit(n, [], b)
  {
    hide ReplayTo, CheckBlock, TxConnects, ConnectTx, PrevoutOk, CheckTransaction, CoinbaseOf, Replayed;
    PaidOk(p, w);
    assert OnTop(p, b);
    CoinMature(p, w, b, Paid(p));
    LateFits(p, w, b.pprev);
    var n, ix, o := LateNode(p, w, b.pprev), ReplayTo(b.pprev), OutPoint(3, b.nHeight);
    var cb, stake, m := b.block.vtx[0], b.block.vtx[1], BlockMode(w, b, p.nFork);
    var i1 := ConnectTx(ix, cb, b.TxPos(0));
    assert ConnectTxs(ix, b, 0) == ix && ConnectTxs(ix, b, 1) == i1;
    CoinbaseHash(p, p.nFork + 1);
    StaysUntouched(ix, cb, b.TxPos(0), o);
    StakeNeedsNoFee(w, COIN, stake, m);
    LoneConnects(w, ix, i1, stake, o, b, m);
    assert TotalsUpTo(w, ix, b, 0) == Totals(0, 0, 0, 0, 0);
    assert TotalsUpTo(w, ix, b, 1) == AddTotals(w, ix, cb, TotalsUpTo(w, ix, b, 0));
    assert TotalsUpTo(w, ix, b, 2) == AddTotals(w, i1, stake, TotalsUpTo(w, ix, b, 1));
  }

  lemma LateErased(p: Plan)
    ensures Kept([Late(p)], Paid(p).nTime) == []
  {
    assert [Late(p)][..0] == [] && Kept([], Paid(p).nTime) == [];
  }

  /** Everything is in order with the template, and with what SignBlock left of it, but the block
      does not connect. */
  lemma ErasedFails(p: Plan, w: World, b: BlockIndex)
    requires b.Linked() && Erased(p, w, b)
    ensures var n, vtx := LateNode(p, w, b.pprev), [Late(p)];
            && PoolOk(n) && Assembled(n, b.pprev, vtx) && Kept(vtx, b.block.vtx[1].nTime) == []
            && MadeFrom(n, b.pprev, [], b) && HeadSize([], b) == 2 && CheckBlock(w, b.block) && PaidInFull(n, vtx, b)
            && StakeConnects(n, [], b) && AllFitBlock(n, [], b) && SigOpsFit(n, [], b)
            && !BlockConnects(w, ReplayTo(b.pprev), b, n.nBestHeight)
  {
    hide PoolOk, Assembled, MadeFrom, CheckBlock, StakeConnects, SigOpsFit, BlockConnects, ReplayTo, AtFork, PaidInFull, Kept;
    var n, vtx := LateNode(p, w, b.pprev), [Late(p)];
    LateAssembled(p, w, b.pprev);
    LateErased(p);
    PaidOk(p, w) by {
      WorldOfFork(p, w, b);
    }
    ErasedMadeFrom(p, w, b);
    PaidConnects(p, w, b);
    SignedConnects(n, b.pprev, vtx, b);
    assert vtx[0].nTime > b.block.vtx[1].nTime;
  }

  lemma WorldOfFork(p: Plan, w: World, b: BlockIndex)
    requires b.Linked() && Erased(p, w, b)
    ensures p.Ok() && w == ForkWorld(p, w.nStartPosv2Block)
  {
    hide Replayed;
  }

  /** On every network with these heights: a chain that connects, a template on it with one
      transaction, and the block that SignBlock makes of it with a coinstake one second earlier. */
  method BuildErasedBlock(p: Plan, nStartPosv2Block: int) returns (w: World, b: BlockIndex, ghost n: Node)
    requires p.Ok()
    ensures w.nCoinbaseMaturity == p.nCoinbaseMaturity && w.nStartPosv2Block == nStartPosv2Block && w.nStartPosvFork1Block == p.nFork
    ensures b.Linked() && b.nHeight == p.nFork + 1 && b.pprev != null && ConnectsTo(w, b.pprev) && AcceptedTo(b.pprev) && OnDiskTo(w, b.pprev)
    ensures b.block == Block([CoinbaseOf(p, p.nFork + 1), Paid(p)]) && Kept([Late(p)], Paid(p).nTime) == []
    ensures n.w == w && n.db == ReplayTo(b.pprev) && n.nBestHeight == b.pprev.nHeight && PoolOk(n) && Assembled(n, b.pprev, [Late(p)])
    ensures MadeFrom(n, b.pprev, [], b) && HeadSize([], b) == 2 && CheckBlock(w, b.block) && PaidInFull(n, [Late(p)], b)
    ensures StakeConnects(n, [], b) && AllFitBlock(n, [], b) && SigOpsFit(n, [], b)
    ensures !BlockConnects(w, n.db, b, n.nBestHeight)
  {
    hide Replayed, ConnectsTo, AcceptedTo, OnDiskTo, ReplayTo, PoolOk, Assembled, MadeFrom, CheckBlock, StakeConnects, AllFitBlock, SigOpsFit, BlockConnects,
         PaidInFull, Kept;
    w, b := BuildToFork(p, nStartPosv2Block);
    var coinbase := CoinbaseOf(p, p.nFork + 1).(nTime := Late(p).nTime);
    var ok, vtx := SignBlock([coinbase, Late(p)], true, Paid(p), TimeOf(p.nFork), 3 * p.nFork + 3);
    LateErased(p);
    assert [coinbase, Late(p)][1..] == [Late(p)];
    b := new BlockIndex(b, 1, 1000 * (p.nFork + 1), 1, Block(vtx));
    n := LateNode(p, w, b.pprev);
    ErasedFails(p, w, b);
  }
}
