/** A template made at the last height before the first script fork gives a block that does not
    connect, because it spends the marker of a coinstake. */
module MarkerFork {
  import opened Transactions
  import opened SpentIndex
  import opened BlockTree
  import opened TxInputs
  import opened BlockConnect
  import opened BlockUndo
  import opened Replay
  import opened Supply
  import opened StrayStake
  import opened Template
  import opened TemplateBlock
  import opened ForkChain

  // ----- the template

  ghost function ForkNode(p: Plan, w: World, prev: BlockIndex): Node
    requires prev.Linked()
  {
    Node(w, ReplayTo(prev), map[Spender(p).hash := Spender(p)], p.nFork, _ => true, _ => 0, 1_000_000, 0, 0, 0.0, TimeOf(p.nFork + 1), true, TimeOf(p.nFork + 1))
  }

  lemma SpenderConnects(p: Plan, w: World, prev: BlockIndex)
    requires prev.Linked() && AtFork(p, w, prev)
    ensures TxConnects(w, ReplayTo(prev), Spender(p), prev, Mode(false, Mandatory, p.nFork))
    ensures P2SHSigOps(w, ReplayTo(prev), Spender(p), 2) == 0
    ensures forall o | o in Spender(p).vin :: Fetchable(w, ReplayTo(prev), o)
  {
    hide AtFork, ReplayTo, PrevoutOk;
    StakeOutput(p, w, prev, Spender(p), 0);
    StakeOutput(p, w, prev, Spender(p), 1);
    SpenderOk(p);
    var ix, vin := ReplayTo(prev), Spender(p).vin;
    SpenderValue(w, ix, vin);
    assert w.verifySignature(Prev(w, ix, vin[0]), Spender(p), 0, Mandatory) && w.verifySignature(Prev(w, ix, vin[1]), Spender(p), 1, Mandatory) by {
      SignaturesOf(p, w, prev);
    }
    assert w.p2shSigOps(Spender(p), 0, PrevOut(w, ix, vin[0])) == 0 && w.p2shSigOps(Spender(p), 1, PrevOut(w, ix, vin[1])) == 0 by {
      SignaturesOf(p, w, prev);
    }
    assert P2SHSigOps(w, ix, Spender(p), 1) == P2SHSigOps(w, ix, Spender(p), 0) == 0;
  }

  lemma SpenderValue(w: World, ix: Index, vin: seq<OutPoint>)
    requires |vin| == 2 && Fetchable(w, ix, vin[0]) && PrevOut(w, ix, vin[0]).nValue == 0
    requires Fetchable(w, ix, vin[1]) && PrevOut(w, ix, vin[1]).nValue == COIN
    ensures ValueIn(w, ix, vin[..1]) == 0 && ValueIn(w, ix, vin[..2]) == ValueIn(w, ix, vin) == COIN
  {
    assert vin[..0] == [] && vin[..1][..0] == [] && vin[..2] == vin;
  }

  lemma SpenderWorth(n: Node, vin: seq<OutPoint>)
    requires |vin| == 2 && Fetchable(n.w, n.db, vin[0]) && PrevOut(n.w, n.db, vin[0]).nValue == 0
    requires Fetchable(n.w, n.db, vin[1]) && PrevOut(n.w, n.db, vin[1]).nValue == COIN
    ensures WorthOf(n, vin) == COIN
  {
    assert vin[..1][..0] == [] && WorthOf(n, vin[..1][..0]) == 0 && WorthOf(n, vin[..1]) == 0;
  }

  lemma ForkPoolOk(p: Plan, w: World, prev: BlockIndex)
    requires prev.Linked() && AtFork(p, w, prev)
    ensures PoolOk(ForkNode(p, w, prev))
  {
    hide ReplayTo, AcceptedTo, OnDiskTo, ConnectsTo, TxsTo;
    assert Spender(p).hash == 3 * (p.nFork + 1) + 2;
  }

  lemma SpenderFits(p: Plan, w: World, prev: BlockIndex)
    requires prev.Linked() && AtFork(p, w, prev)
    ensures Fits(ForkNode(p, w, prev), prev, [], Spender(p)) && SigOps(ForkNode(p, w, prev), [Spender(p)]) == 100
    ensures Fees(ForkNode(p, w, prev), [Spender(p)]) == MIN_TX_FEE
    ensures Parents(ForkNode(p, w, prev), Spender(p)) == {}
    ensures FromPool(ForkNode(p, w, prev), Spender(p))
  {
    hide ReplayTo, PrevoutOk, TxConnects, AtFork, P2SHSigOps, CheckTransaction;
    var n, tx := ForkNode(p, w, prev), Spender(p);
    SpenderConnects(p, w, prev);
    SpenderOk(p);
    StakeOutput(p, w, prev, Spender(p), 0);
    StakeOutput(p, w, prev, Spender(p), 1);
    SpenderWorth(n, tx.vin);
    assert [tx][..0] == [] && After(n.db, []) == n.db && SigOps(n, []) == 100 && Fees(n, []) == 0;
    assert TxSigOps(n, [], tx) == 0 && Fee(n, tx) == MIN_TX_FEE;
  }

  /** The spender is a template. */
  lemma SpenderAssembled(p: Plan, w: World, prev: BlockIndex)
    requires prev.Linked() && AtFork(p, w, prev)
    ensures PoolOk(ForkNode(p, w, prev)) && Assembled(ForkNode(p, w, prev), prev, [Spender(p)])
  {
    hide PoolOk, AtFork, ForkNode, Fits, Parents, FromPool, SigOps, Fees;
    ForkPoolOk(p, w, prev);
    SpenderFits(p, w, prev);
    assert [Spender(p)][..0] == [];
    assert WellPlaced(ForkNode(p, w, prev), prev, [Spender(p)], 0);
  }

  // ----- its block

  ghost predicate AboveFork(p: Plan, w: World, b: BlockIndex)
    requires b.Linked()
  {
    OnForkChain(p, b) && b.nHeight == p.nFork + 1 && b.pprev != null && AtFork(p, w, b.pprev)
  }

  lemma ForkBlockShape(p: Plan, w: World, b: BlockIndex)
    requires b.Linked() && AboveFork(p, w, b)
    ensures b.pprev != null && b.block == BlockOf(p, p.nFork + 1) && b.OnDisk(w) && CheckBlock(w, b.block)
    ensures b.block.vtx == [CoinbaseOf(p, p.nFork + 1), StakeOf(p.nFork + 1), Spender(p)]
    ensures b.nFile == 1 && b.nBlockPos == 1000 * (p.nFork + 1)
  {
    hide ReplayTo, CheckBlock, ConnectsTo, Replayed, BlockOf, CoinbaseOf, StakeOf, Spender;
    assert b.Path()[b.nHeight] == b;
    BlockOfChecks(p, w, b.nHeight);
    BlockOfShape(p, b.nHeight);
    BlockOfHashes(p, w, b.nHeight);
  }

  lemma SpenderMadeFrom(p: Plan, w: World, b: BlockIndex)
    requires b.Linked() && AboveFork(p, w, b)
    ensures MadeFrom(ForkNode(p, w, b.pprev), b.pprev, [Spender(p)], b) && HeadSize([Spender(p)], b) == 2
  {
    hide CheckBlock, ConnectsTo, ReplayTo, BlockIndex.OnDisk, CheckTransaction, BlockOf, Coins;
    ForkBlockShape(p, w, b);
    CoinbaseOfChecks(p, p.nFork + 1);
    StakeOfChecks(p.nFork + 1);
    var ix := ReplayTo(b.pprev);
    assert Within(ix, p.nFork);
    forall h | h in ix ensures !b.HoldsPos(ix[h].pos) {
    }
    assert b.block.vtx[2..] == [Spender(p)];
    assert forall t :: t in [Spender(p)] <==> t == Spender(p);
    assert Template.Hashes([Spender(p)]) == {Spender(p).hash};
  }

  /** The coinstake of the block connects and takes no more than it may. */
  lemma ForkStakeConnects(p: Plan, w: World, b: BlockIndex)
    requires b.Linked() && AboveFork(p, w, b)
    ensures |b.block.vtx| == 3
    ensures var n := ForkNode(p, w, b.pprev); StakeConnects(n, [Spender(p)], b) && RewardFits(n, [Spender(p)], b) && SigOpsFit(n, [Spender(p)], b)
  {
    hide ReplayTo, CheckBlock, TxConnects, ConnectTx, PrevoutOk, CheckTransaction, BlockOf, CoinbaseOf, Replayed;
    ForkBlockShape(p, w, b);
    TopOfChain(p, b);
    CoinMature(p, w, b, StakeOf(b.nHeight));
    StakeOfChecks(b.nHeight);
    CoinbaseOfChecks(p, b.nHeight);
    SpenderFits(p, w, b.pprev);
    var n, ix, o := ForkNode(p, w, b.pprev), ReplayTo(b.pprev), OutPoint(3, b.nHeight);
    var cb, stake, m := b.block.vtx[0], b.block.vtx[1], BlockMode(w, b, p.nFork);
    var i1 := ConnectTx(ix, cb, b.TxPos(0));
    assert ConnectTxs(ix, b, 0) == ix && ConnectTxs(ix, b, 1) == i1;
    assert cb.hash == 3 * b.nHeight && cb.nLegacySigOps == 0 by {
      CoinbaseHash(p, b.nHeight);
    }
    StaysUntouched(ix, cb, b.TxPos(0), o);
    StakeNeedsNoFee(w, COIN, stake, m);
    LoneConnects(w, ix, i1, stake, o, b, m);
    assert TotalsUpTo(w, ix, b, 0) == Totals(0, 0, 0, 0, 0);
    assert TotalsUpTo(w, ix, b, 1) == AddTotals(w, ix, cb, TotalsUpTo(w, ix, b, 0));
    assert TotalsUpTo(w, ix, b, 2) == AddTotals(w, i1, stake, TotalsUpTo(w, ix, b, 1));
  }

  /** Everything else is in order, but the block of the template does not connect: the template
      spends a marker, which the block's own height forbids. */
  lemma MarkerTemplateFails(p: Plan, w: World, b: BlockIndex)
    requires b.Linked() && AboveFork(p, w, b)
    ensures var n, vtx := ForkNode(p, w, b.pprev), [Spender(p)];
            && PoolOk(n) && Assembled(n, b.pprev, vtx) && MadeFrom(n, b.pprev, vtx, b) && CheckBlock(w, b.block)
            && StakeConnects(n, vtx, b) && RewardFits(n, vtx, b) && SigOpsFit(n, vtx, b)
            && !BlockConnects(w, ReplayTo(b.pprev), b, n.nBestHeight)
  {
    hide PoolOk, Assembled, MadeFrom, CheckBlock, StakeConnects, RewardFits, SigOpsFit, BlockConnects, ReplayTo, AtFork, BlockIndex.Path, PrevoutOk;
    var n, vtx := ForkNode(p, w, b.pprev), [Spender(p)];
    ForkBlockShape(p, w, b);
    SpenderAssembled(p, w, b.pprev);
    SpenderMadeFrom(p, w, b);
    ForkStakeConnects(p, w, b);
    TemplateConnects(n, b.pprev, vtx, b);
    StakeOutput(p, w, b.pprev, Spender(p), 0);
    assert vtx[..0] == [] && After(n.db, []) == n.db;
    assert Spender(p).vin[0] in Spender(p).vin;
    assert w.IsProtocolVFork1(b.nHeight) by {
      ForkHeight(p, w, b);
    }
    assert !FitsBlock(n, vtx, b, 0);
  }

  lemma ForkHeight(p: Plan, w: World, b: BlockIndex)
    requires b.Linked() && AboveFork(p, w, b)
    ensures w.IsProtocolVFork1(b.nHeight) && !w.IsProtocolVFork1(b.pprev.nHeight)
  {
  }

  /** On every network with these heights there is such a chain, of proof-of-stake blocks from
      where the first coins are mature. */
  method BuildForkChain(p: Plan, nStartPosv2Block: int) returns (w: World, b: BlockIndex, ghost n: Node)
    requires p.Ok()
    ensures w.nCoinbaseMaturity == p.nCoinbaseMaturity && w.nStartPosv2Block == nStartPosv2Block && w.nStartPosvFork1Block == p.nFork
    ensures b.Linked() && b.nHeight == p.nFork + 1 && b.pprev != null && ConnectsTo(w, b.pprev) && AcceptedTo(b.pprev) && OnDiskTo(w, b.pprev)
    ensures forall h: nat | p.nCoinbaseMaturity + 1 < h <= b.nHeight :: b.Path()[h].block.IsProofOfStake()
    ensures n.w == w && n.db == ReplayTo(b.pprev) && n.nBestHeight == b.pprev.nHeight && PoolOk(n)
    ensures Assembled(n, b.pprev, [Spender(p)]) && MadeFrom(n, b.pprev, [Spender(p)], b) && CheckBlock(w, b.block)
    ensures StakeConnects(n, [Spender(p)], b) && RewardFits(n, [Spender(p)], b) && SigOpsFit(n, [Spender(p)], b)
    ensures !BlockConnects(w, n.db, b, n.nBestHeight)
  {
    hide Replayed, ConnectsTo, AcceptedTo, OnDiskTo, ReplayTo, PoolOk, Assembled, MadeFrom, CheckBlock, StakeConnects, RewardFits, SigOpsFit, BlockConnects, BlockOf;
    w, b := BuildToFork(p, nStartPosv2Block);
    ghost var prev := b;
    b := new BlockIndex(b, 1, 1000 * (p.nFork + 1), 1, BlockOf(p, p.nFork + 1));
    n := ForkNode(p, w, prev);
    MarkerTemplateFails(p, w, b);
    forall h: nat | p.nCoinbaseMaturity + 1 < h <= b.nHeight ensures b.Path()[h].block.IsProofOfStake() {
      BlockOfChecks(p, w, h);
    }
  }
}
