/** A run that parts the best block in memory from the best block of the database, and what the
    next block does then. */
module PartedRun {
  import opened Transactions
  import opened SpentIndex
  import opened BlockTree
  import opened TxInputs
  import opened BlockConnect
  import opened BlockUndo
  import opened Replay
  import opened Supply
  import opened StrayStake
  import opened Branches
  import opened Damage
  import opened Storage
  import opened ChainState

  /** The coinbase of a height, with nothing to pay, but for height 2: there it pays 1 too much. */
  function PlainCoinbase(h: nat): Tx {
    Tx(h, 0, [OutPoint(0, 0xffff_ffff)], [TxOut(if h == 2 then 1 else 0, [1])], 2, h, 100, 0)
  }

  function PlainWorld(): World {
    World((h: Txid, p: DiskTxPos) => PlainCoinbase(h), (from: Tx, tx: Tx, i: nat, rules: ScriptRules) => true,
          (tx: Tx, i: nat, out: TxOut) => 0, (b: Block) => true, 50, 0, 920, 30_000)
  }

  ghost predicate Plain(b: BlockIndex) {
    b.block == Block([PlainCoinbase(b.nHeight)])
  }

  ghost predicate PlainTo(b: BlockIndex)
    requires b.Linked()
    decreases b.nHeight
  {
    Plain(b) && (b.pprev != null ==> PlainTo(b.pprev))
  }

  lemma PlainChecks(h: nat)
    ensures CheckBlock(PlainWorld(), Block([PlainCoinbase(h)])) && ValueOf(PlainCoinbase(h).vout) == if h == 2 then 1 else 0
    ensures PlainCoinbase(h).IsCoinBase()
  {
    var tx := PlainCoinbase(h);
    ValueOfOne(tx.vout[0]);
    assert tx.vout[..1] == [tx.vout[0]];
    assert [tx][..0] == [] && LegacySigOps([]) == 0 && LegacySigOps([tx]) == 0;
  }

  lemma PlainAccepted(b: BlockIndex)
    requires b.Linked() && PlainTo(b)
    ensures AcceptedTo(b) && OnDiskTo(PlainWorld(), b)
    ensures forall t :: t in TxsTo(b) ==> t.hash <= b.nHeight
    decreases b.nHeight
  {
    if b.pprev != null {
      PlainAccepted(b.pprev);
    }
  }

  /** All these blocks connect on any index that does not know them, but for that of height 2. */
  lemma PlainConnects(ix: Index, b: BlockIndex, nBestHeight: int)
    requires b.Linked() && Plain(b) && b.nHeight !in ix
    ensures BlockConnects(PlainWorld(), ix, b, nBestHeight) <==> b.nHeight != 2
  {
    PlainChecks(b.nHeight);
    if b.nHeight != 2 {
      LoneCoinbase(PlainWorld(), ix, b, nBestHeight);
    } else {
      assert TotalsUpTo(PlainWorld(), ix, b, 0) == Totals(0, 0, 0, 0, 0);
      assert TotalsUpTo(PlainWorld(), ix, b, 1) == AddTotals(PlainWorld(), ix, b.block.vtx[0], TotalsUpTo(PlainWorld(), ix, b, 0));
    }
  }

  /** Four blocks, each on the one before. */
  ghost predicate Four(g: BlockIndex, p: BlockIndex, x: BlockIndex, y: BlockIndex) {
    && g.Linked() && p.Linked() && x.Linked() && y.Linked()
    && g.pprev == null && p.pprev == g && x.pprev == p && y.pprev == x
    && g.nChainTrust == 1 && p.nChainTrust == 2 && x.nChainTrust == 3 && y.nChainTrust == 4
    && Plain(g) && Plain(p) && Plain(x) && Plain(y)
  }

  lemma FourPlain(g: BlockIndex, p: BlockIndex, x: BlockIndex, y: BlockIndex)
    requires Four(g, p, x, y)
    ensures g.Linked() && p.Linked() && x.Linked() && y.Linked()
    ensures g.pprev == null && p.pprev == g && x.pprev == p && y.pprev == x
    ensures g.nChainTrust == 1 && p.nChainTrust == 2 && x.nChainTrust == 3 && y.nChainTrust == 4
    ensures g.nHeight == 0 && p.nHeight == 1 && x.nHeight == 2 && y.nHeight == 3
    ensures PlainTo(g) && PlainTo(p) && PlainTo(x) && PlainTo(y)
    ensures g.Path() == [g] && p.Path() == [g, p] && x.Path() == [g, p, x] && y.Path() == [g, p, x, y]
  {
  }

  /** From the root, `p` is taken and `x` is not; what is reorganized to first is `p`. */
  lemma FirstTaken(g: BlockIndex, p: BlockIndex, x: BlockIndex, y: BlockIndex)
    requires Four(g, p, x, y)
    ensures Takes(PlainWorld(), map[], g, p, g, 0) && !Takes(PlainWorld(), map[], g, x, g, 0)
    ensures Moved(map[], g, p, g) == map[1 := NewEntry(PlainCoinbase(1), p.TxPos(0))]
  {
    FourPlain(g, p, x, y);
    var w := PlainWorld();
    PlainConnects(map[], p, 0);
    PlainChecks(1);
    LoneCoinbase(w, map[], p, 0);
    OneAbove(w, map[], p, 0, 0);
    OneAbove(w, map[], x, 0, 0);
    NothingAbove(w, map[], g, 0);
    PlainConnects(ConnectAll(map[], p), x, 0);
  }

  lemma FirstRoute(g: BlockIndex, p: BlockIndex, x: BlockIndex, y: BlockIndex, first: BlockIndex, fork: BlockIndex?)
    requires Four(g, p, x, y) && Route(g, x, first, fork)
    ensures first == p && fork == g
  {
    FourPlain(g, p, x, y);
    assert x.Path()[0] == g && x.Path()[1] == p && x.Path()[2] == x;
  }

  method FourBlocks() returns (g: BlockIndex, p: BlockIndex, x: BlockIndex, y: BlockIndex)
    ensures Four(g, p, x, y) && fresh({g, p, x, y})
    ensures g.pnext == p.pnext == x.pnext == y.pnext == null && g.nMoneySupply == 0
  {
    g := new BlockIndex(null, 1, 0, 1, Block([PlainCoinbase(0)]));
    p := new BlockIndex(g, 1, 1000, 1, Block([PlainCoinbase(1)]));
    x := new BlockIndex(p, 1, 2000, 1, Block([PlainCoinbase(2)]));
    y := new BlockIndex(x, 1, 3000, 1, Block([PlainCoinbase(3)]));
  }

  /** A node that knows `nodes`, with the database at `d`. */
  ghost predicate NodeAt(c: Chain, nodes: set<BlockIndex>, d: BlockIndex, best: BlockIndex)
    reads c, nodes
  {
    && c.w == PlainWorld() && c.batch == NoBatch && c.mapBlockIndex == nodes
    && c.Valid() && c.Ahead() && c.pindexBest == best && c.disk.best == d
    && forall k | k != 1 :: c.device.works(k)
  }

  /** Connecting `p` fails on the disk, at the second access of all. */
  method AddFailing(c: Chain, g: BlockIndex, p: BlockIndex, ghost x: BlockIndex, ghost y: BlockIndex)
    requires Four(g, p, x, y) && NodeAt(c, {g}, g, g) && c.disk.index == map[] && p.pnext == null
    requires c.device.nAccesses == 0 && !c.device.works(1)
    modifies c, c.device, g, p
    ensures NodeAt(c, {g, p}, g, g) && c.disk.index == map[] && c.device.nAccesses > 1
  {
    hide Takes, Moved, Clean, Route, AcceptedTo, OnDiskTo, ConnectsAbove, Replays, Four, PlainTo, Chain.Formed, Chain.Landed, On, ConnectsTo, ReplayTo;
    FourPlain(g, p, x, y);
    PlainAccepted(p);
    FirstTaken(g, p, x, y);
    var ok;
    ghost var first, fork;
    ok, first, fork := c.AddToBlockIndex(p);
    assert c.device.nAccesses > 1 by {
      if c.device.Worked(0, c.device.nAccesses) {
        OneRoute(g, p, first, fork);
      }
    }
  }

  /** Then `x`, which is invalid, comes on top of `p`: the database gets to `p`, but `x` is recorded
      as the best block. */
  method AddInvalid(c: Chain, g: BlockIndex, p: BlockIndex, x: BlockIndex, ghost y: BlockIndex)
    requires Four(g, p, x, y) && NodeAt(c, {g, p}, g, g) && c.disk.index == map[] && x.pnext == null && c.device.nAccesses > 1
    modifies c, c.device, g, p, x
    ensures NodeAt(c, {g, p, x}, p, x) && c.device.nAccesses > 1
  {
    hide Takes, Moved, Clean, Route, AcceptedTo, OnDiskTo, ConnectsAbove, Replays, Four, PlainTo, Chain.Formed, On, ConnectsTo, ReplayTo;
    FourPlain(g, p, x, y);
    PlainAccepted(x);
    FirstTaken(g, p, x, y);
    var ok;
    ghost var first, fork;
    ok, first, fork := c.AddToBlockIndex(x);
    FirstRoute(g, p, x, y, first, fork);
    SecondLands(g, p, x, y, c.disk.best);
  }

  /** The state is reached from the genesis block. */
  method Part() returns (c: Chain, g: BlockIndex, p: BlockIndex, x: BlockIndex, y: BlockIndex)
    ensures Four(g, p, x, y) && NodeAt(c, {g, p, x}, p, x) && y.pnext == null && c.device.nAccesses > 1
    ensures fresh({g, p, x, y}) && fresh(c) && fresh(c.device)
  {
    hide Four, Chain.Valid, Chain.Ahead;
    g, p, x, y := FourBlocks();
    FourPlain(g, p, x, y);
    var device := new Device(k => k != 1);
    c := new Chain(PlainWorld(), device, g);
    AddFailing(c, g, p, x, y);
    AddInvalid(c, g, p, x, y);
  }

  /** What the next block does there: it connects on top of the gap, and the database describes no
      chain any more. */
  method ConnectOverGap() returns (c: Chain, y: BlockIndex)
    ensures c.pindexBest == y && c.disk.best == y && y.Linked() && !c.Describes(c.disk)
  {
    hide Moved, Clean, Route, AcceptedTo, OnDiskTo, ConnectsAbove, Replays, Four, PlainTo, On, ConnectsTo, ReplayTo;
    var g, p, x;
    c, g, p, x, y := Part();
    FourPlain(g, p, x, y);
    PlainAccepted(y);
    ghost var db := c.disk;
    var ok;
    ghost var first, fork;
    ok, first, fork := c.AddToBlockIndex(y);
    OneRoute(x, y, first, fork);
    OverGap(g, p, x, y, db);
  }

  lemma OverGap(g: BlockIndex, p: BlockIndex, x: BlockIndex, y: BlockIndex, db: Db)
    requires Four(g, p, x, y) && db.best == p && p.Linked() && Replays(PlainWorld(), db.index, p)
    ensures x.Linked() && y.Linked() && Takes(PlainWorld(), db.index, x, y, x, x.nHeight)
  {
    FourPlain(g, p, x, y);
    PlainConnects(db.index, y, x.nHeight);
    ExtensionRoute(PlainWorld(), db.index, x, y, x.nHeight);
  }

  lemma OneRoute(g: BlockIndex, p: BlockIndex, first: BlockIndex, fork: BlockIndex?)
    requires g.Linked() && p.Linked() && p.pprev == g && Route(g, p, first, fork)
    ensures first == p && fork == g
  {
  }

  /** Between `p` and `x` the database can only be at `p`, if it is not at `x`. */
  lemma SecondLands(g: BlockIndex, p: BlockIndex, x: BlockIndex, y: BlockIndex, d: BlockIndex)
    requires Four(g, p, x, y)
    ensures x.Linked() && (On(x, d) && p.nHeight <= d.nHeight && d != x ==> d == p)
  {
    FourPlain(g, p, x, y);
  }
}
