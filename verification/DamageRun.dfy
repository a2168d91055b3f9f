/** A run after which a coin that the chain has spent is free again.  The disk fails while the first
    blocks arrive; when it works again, an invalid block comes that spends a coin a second time, and
    is recorded as the best one; then a heavier branch makes Reorganize disconnect it. */
module DamageRun {
  import opened Transactions
  import opened SpentIndex
  import opened BlockTree
  import opened TxInputs
  import opened BlockConnect
  import opened BlockUndo
  import opened Replay
  import opened Supply
  import opened StrayStake
  import opened Branches
  import opened Damage
  import opened Storage
  import opened ChainState

  // ----- the blocks

  /** The coinbase of a height: the premine at height 1, and nothing above. */
  function Base(h: nat): Tx {
    Tx(4 * h, 0, [OutPoint(0, 0xffff_ffff)], [TxOut(if h == 1 then 15_000_000_000 * COIN else 0, [1])], 2, h, 100, 0)
  }

  /** Two transactions that spend the premine. */
  function Spend(h: nat, k: nat): Tx {
    Tx(4 * h + k, 0, [OutPoint(4, 0)], [TxOut(15_000_000_000 * COIN - MIN_TX_FEE, [k])], 0, 0, 100, 0)
  }

  /** The coinbase of a height on the other branch. */
  function OtherBase(h: nat): Tx {
    Tx(4 * h + 3, 0, [OutPoint(0, 0xffff_ffff)], [TxOut(0, [1])], 2, h, 100, 0)
  }

  /** The block at height `top` spends the premine, and so does the one above it. */
  function MainBlock(top: nat, h: nat): Block {
    if h < top then Block([Base(h)]) else if h == top then Block([Base(h), Spend(h, 1)]) else Block([Base(h), Spend(h, 2)])
  }

  function RunWorld(nCoinbaseMaturity: nat, nStartPosv2Block: int, nStartPosvFork1Block: int): World {
    World((h: Txid, p: DiskTxPos) => if h % 4 == 0 then Base(h / 4) else if h % 4 == 3 then OtherBase(h / 4) else Spend(h / 4, h % 4),
          (from: Tx, tx: Tx, i: nat, rules: ScriptRules) => true, (tx: Tx, i: nat, out: TxOut) => 0,
          (b: Block) => true, nCoinbaseMaturity, 0, nStartPosv2Block, nStartPosvFork1Block)
  }

  ghost predicate IsRunWorld(w: World) {
    w == RunWorld(w.nCoinbaseMaturity, w.nStartPosv2Block, w.nStartPosvFork1Block)
  }

  function Top(w: World): nat {
    w.nCoinbaseMaturity + 2
  }

  ghost predicate OnMain(w: World, b: BlockIndex) {
    b.Linked() && forall h: nat | h <= b.nHeight :: MainAt(w, b.Path()[h], h)
  }

  ghost predicate MainAt(w: World, b: BlockIndex, h: nat) {
    b.block == MainBlock(Top(w), h) && b.nFile == 1 && b.nBlockPos == 1000 * h && b.nChainTrust == h + 1
  }

  lemma BaseChecks(tx: Tx, h: nat)
    requires tx == Base(h) || tx == OtherBase(h)
    ensures tx.IsCoinBase() && CheckTransaction(tx) && ValueOf(tx.vout) <= ProofOfWorkSubsidy(h)
  {
    ValueOfOne(tx.vout[0]);
    assert tx.vout[..1] == [tx.vout[0]];
  }

  lemma SpendChecks(h: nat, k: nat)
    ensures !Spend(h, k).IsCoinBase() && !Spend(h, k).IsCoinStake() && CheckTransaction(Spend(h, k))
    ensures ValueOf(Spend(h, k).vout) == 15_000_000_000 * COIN - MIN_TX_FEE
  {
    ValueOfOne(Spend(h, k).vout[0]);
    assert Spend(h, k).vout[..1] == [Spend(h, k).vout[0]];
  }

  lemma LoneChecks(w: World, tx: Tx, h: nat)
    requires IsRunWorld(w) && (tx == Base(h) || tx == OtherBase(h))
    ensures CheckBlock(w, Block([tx]))
  {
    hide CheckTransaction;
    BaseChecks(tx, h);
    assert [tx][..0] == [] && LegacySigOps([]) == 0 && LegacySigOps([tx]) == 0;
  }

  lemma PairChecks(w: World, h: nat, k: nat)
    requires IsRunWorld(w) && 0 < k < 3
    ensures CheckBlock(w, Block([Base(h), Spend(h, k)]))
  {
    hide CheckTransaction;
    BaseChecks(Base(h), h);
    SpendChecks(h, k);
    var vtx := [Base(h), Spend(h, k)];
    assert [vtx[0]][..0] == [] && LegacySigOps([]) == 0 && LegacySigOps([vtx[0]]) == 0;
    assert vtx[..1] == [vtx[0]] && LegacySigOps(vtx) == 0;
  }

  // ----- what replaying them gives

  ghost predicate Premine(ix: Index) {
    4 in ix && ix[4].pos.At? && ix[4].pos.nFile == 1 && ix[4].pos.nBlockPos == 1000 && |ix[4].vSpent| == 1
  }

  ghost predicate KeysWithin(ix: Index, h: nat) {
    forall i :: i in ix ==> 4 <= i < 4 * h + 4
  }

  ghost predicate MainOk(w: World, b: BlockIndex)
    requires b.Linked()
  {
    var ix := ReplayTo(b);
    && AcceptedTo(b) && OnDiskTo(w, b) && Accepts(w, map[], b, 0, 0) && ConnectsTo(w, b) && KeysWithin(ix, b.nHeight)
    && (forall t :: t in TxsTo(b) ==> t.hash < 4 * b.nHeight + 4)
    && (b.nHeight > 0 ==> Premine(ix) && (ix[4].vSpent[0] == Null <==> b.nHeight < Top(w)))
  }

  /** The hashes and the height in a block, and what is read for them. */
  lemma MainBlockTxs(w: World, h: nat)
    requires IsRunWorld(w) && h <= Top(w) + 1
    ensures var vtx := MainBlock(Top(w), h).vtx;
            && vtx != [] && vtx[0].nCoinbaseHeight == h
            && forall k | 0 <= k < |vtx| :: 4 * h <= vtx[k].hash < 4 * h + 4 && forall pos :: w.readTx(vtx[k].hash, pos) == vtx[k]
  {
  }

  lemma MainTxs(w: World, b: BlockIndex)
    requires IsRunWorld(w) && OnMain(w, b) && b.pprev != null && b.nHeight <= Top(w) + 1 && MainOk(w, b.pprev)
    ensures b.block == MainBlock(Top(w), b.nHeight) && b.OnDisk(w) && Fresh(ReplayTo(b.pprev), b)
    ensures AcceptedTo(b) && OnDiskTo(w, b)
    ensures forall t :: t in TxsTo(b) ==> t.hash < 4 * b.nHeight + 4
    ensures b.nFile == 1 && b.nBlockPos == 1000 * b.nHeight
  {
    hide ReplayTo, ConnectsTo, Accepts, Premine, MainBlock, IsRunWorld;
    assert MainAt(w, b.Path()[b.nHeight], b.nHeight);
    MainBlockTxs(w, b.nHeight);
  }

  /** The replayed index is what connecting on an empty one gives. */
  lemma FromEmpty(b: BlockIndex)
    requires b.Linked()
    ensures Redo(map[], b, 0) == ReplayTo(b)
    decreases b.nHeight
  {
    if b.nHeight > 0 {
      FromEmpty(b.pprev);
    }
  }

  lemma ConnectedNext(w: World, b: BlockIndex)
    requires b.Linked() && b.pprev != null && ConnectsTo(w, b.pprev) && Accepts(w, map[], b.pprev, 0, 0) && BlockConnects(w, ReplayTo(b.pprev), b, 0)
    ensures ConnectsTo(w, b) && Accepts(w, map[], b, 0, 0)
  {
    hide BlockConnects;
    FromEmpty(b.pprev);
    assert ConnectsOnParent(w, b);
  }

  /** Below the top the blocks are coinbases alone. */
  lemma LowStep(w: World, b: BlockIndex)
    requires IsRunWorld(w) && OnMain(w, b) && b.pprev != null && b.nHeight < Top(w) && MainOk(w, b.pprev)
    ensures MainOk(w, b)
  {
    hide CheckBlock, AcceptedTo, OnDiskTo, TxsTo, Accepts, BlockConnects;
    MainTxs(w, b);
    LoneChecks(w, Base(b.nHeight), b.nHeight);
    BaseChecks(Base(b.nHeight), b.nHeight);
    LoneCoinbase(w, ReplayTo(b.pprev), b, 0);
    ConnectedNext(w, b);
  }

  lemma PremineSpendable(w: World, b: BlockIndex)
    requires IsRunWorld(w) && OnMain(w, b) && b.pprev != null && b.nHeight == Top(w) && MainOk(w, b.pprev)
    ensures var ix, o := ReplayTo(b.pprev), OutPoint(4, 0);
            && SpendsLone(w, ix, Spend(b.nHeight, 1), o, b, BlockMode(w, b, 0)) && OutValue(w, ix, o) == 15_000_000_000 * COIN
            && P2SHSigOps(w, ix, Spend(b.nHeight, 1), 1) == 0
  {
    hide ReplayTo, AcceptedTo, OnDiskTo, ConnectsTo, TxsTo, Accepts;
    var ix, o := ReplayTo(b.pprev), OutPoint(4, 0);
    assert Fetchable(w, ix, o) && Prev(w, ix, o) == Base(1) && IsFree(ix, o);
    forall g: nat | g <= b.nHeight && b.Path()[g].HoldsPos(ix[4].pos) ensures g == 1 {
      assert MainAt(w, b.Path()[g], g);
    }
    assert !ConfirmedWithin(ix[4].pos, b, w.nCoinbaseMaturity);
    assert P2SHSigOps(w, ix, Spend(b.nHeight, 1), 0) == 0;
  }

  /** The block at the top spends the premine. */
  lemma TopStep(w: World, b: BlockIndex)
    requires IsRunWorld(w) && OnMain(w, b) && b.pprev != null && b.nHeight == Top(w) && MainOk(w, b.pprev)
    ensures MainOk(w, b)
  {
    hide CheckBlock, AcceptedTo, OnDiskTo, TxsTo, Accepts, BlockConnects, SpendsLone, ConnectsTo, CheckTransaction;
    MainTxs(w, b);
    PairChecks(w, b.nHeight, 1);
    BaseChecks(Base(b.nHeight), b.nHeight);
    SpendChecks(b.nHeight, 1);
    PremineSpendable(w, b);
    var ix, pay := ReplayTo(b.pprev), Spend(b.nHeight, 1);
    PairConnects(w, ix, b, OutPoint(4, 0));
    ConnectedNext(w, b);
    var i1 := ix[4 * b.nHeight := NewEntry(Base(b.nHeight), b.TxPos(0))];
    assert pay.vin[..0] == [] && MarkAll(i1, pay.vin, b.TxPos(1)) == Mark(i1, OutPoint(4, 0), b.TxPos(1));
  }

  /** The one above does so again, and does not connect. */
  lemma DoubleSpendFails(w: World, b: BlockIndex, nBestHeight: int)
    requires IsRunWorld(w) && OnMain(w, b) && b.pprev != null && b.nHeight == Top(w) + 1 && MainOk(w, b.pprev)
    ensures !BlockConnects(w, ReplayTo(b.pprev), b, nBestHeight)
  {
    hide ReplayTo, AcceptedTo, OnDiskTo, ConnectsTo, TxsTo, Accepts, PrevoutsOk, FeeOk;
    MainTxs(w, b);
    BaseChecks(Base(b.nHeight), b.nHeight);
    SpendChecks(b.nHeight, 2);
    var ix := ReplayTo(b.pprev);
    var i1 := ConnectTxs(ix, b, 1);
    assert i1 == ConnectTx(ConnectTxs(ix, b, 0), Base(b.nHeight), b.TxPos(0)) == ix[4 * b.nHeight := NewEntry(Base(b.nHeight), b.TxPos(0))];
    assert !IsFree(i1, OutPoint(4, 0));
    assert b.block.vtx[1].vin[0] == OutPoint(4, 0);
    assert !TxStepOk(w, ix, b, 1, nBestHeight);
  }

  /** Disconnecting it anyway frees the coin. */
  lemma UndoFrees(w: World, b: BlockIndex)
    requires IsRunWorld(w) && OnMain(w, b) && b.pprev != null && b.nHeight == Top(w) + 1 && MainOk(w, b.pprev)
    ensures var ix, u := ReplayTo(b.pprev), UndoDown(ReplayTo(b.pprev), b, Top(w));
            && u.Undone? && KeysWithin(u.ix, Top(w)) && IsFree(u.ix, OutPoint(4, 0))
            && HasSlot(ix, OutPoint(4, 0)) && !IsFree(ix, OutPoint(4, 0)) && OutPoint(4, 0) in Freed(b, Top(w))
  {
    hide ReplayTo, AcceptedTo, OnDiskTo, ConnectsTo, TxsTo, Accepts;
    MainTxs(w, b);
    BaseChecks(Base(b.nHeight), b.nHeight);
    SpendChecks(b.nHeight, 2);
    var ix, tx := ReplayTo(b.pprev), b.block.vtx[1];
    assert tx.vin[..0] == [] && ReleaseAll(ix, tx.vin) == Undone(Mark(ix, OutPoint(4, 0), Null));
    var jx := Mark(ix, OutPoint(4, 0), Null) - {tx.hash};
    assert DisconnectDown(ix, b.block.vtx, 2) == Undone(ix) && DisconnectDown(ix, b.block.vtx, 1) == Undone(jx);
    assert DisconnectAll(ix, b) == Undone(jx - {b.block.vtx[0].hash});
    assert tx in b.block.vtx && OutPoint(4, 0) in tx.vin;
  }

  // ----- the other branch

  ghost predicate Branch(w: World, d: BlockIndex, y: BlockIndex, z: BlockIndex) {
    && d.Linked() && y.Linked() && z.Linked() && y.pprev == d && z.pprev == y && d.nHeight == Top(w)
    && y.block == Block([OtherBase(Top(w) + 1)]) && z.block == Block([OtherBase(Top(w) + 2)])
    && y.nChainTrust == Top(w) + 2 && z.nChainTrust == Top(w) + 3
  }

  lemma OtherOnDisk(w: World, b: BlockIndex)
    requires IsRunWorld(w) && b.block == Block([OtherBase(b.nHeight)])
    ensures b.OnDisk(w)
  {
    hide CompactSizeBytes, SizesUpTo;
  }

  lemma LoneTxs(b: BlockIndex, tx: Tx)
    requires b.Linked() && b.pprev != null && b.block == Block([tx])
    ensures TxsTo(b) == TxsTo(b.pprev) + {tx}
  {
    assert b.block.vtx[0] == tx;
    assert TxsIn([tx], 1) == {tx};
  }

  lemma OtherAccepted(w: World, b: BlockIndex)
    requires IsRunWorld(w) && b.Linked() && b.pprev != null && b.block == Block([OtherBase(b.nHeight)])
    requires AcceptedTo(b.pprev) && OnDiskTo(w, b.pprev) && forall t :: t in TxsTo(b.pprev) ==> t.hash < 4 * b.nHeight
    ensures AcceptedTo(b) && OnDiskTo(w, b) && forall t :: t in TxsTo(b) ==> t.hash < 4 * b.nHeight + 4
  {
    hide IsRunWorld, TxsTo, TxsIn, BlockIndex.OnDisk;
    OtherOnDisk(w, b);
    LoneTxs(b, OtherBase(b.nHeight));
  }

  lemma BranchAccepted(w: World, d: BlockIndex, y: BlockIndex, z: BlockIndex)
    requires IsRunWorld(w) && Branch(w, d, y, z) && MainOk(w, d)
    ensures AcceptedTo(y) && OnDiskTo(w, y) && AcceptedTo(z) && OnDiskTo(w, z)
  {
    hide ReplayTo, ConnectsTo, Accepts, Premine, AcceptedTo, OnDiskTo, TxsTo;
    OtherAccepted(w, y);
    OtherAccepted(w, z);
  }

  /** A lone coinbase connects on any index that does not know it, and leaves the others alone. */
  lemma OtherConnects(w: World, ix: Index, b: BlockIndex, h: nat, nBestHeight: int)
    requires IsRunWorld(w) && b.Linked() && b.nHeight == h && b.block == Block([OtherBase(h)]) && 4 * h + 3 !in ix
    ensures BlockConnects(w, ix, b, nBestHeight)
    ensures ConnectAll(ix, b) == ix[4 * h + 3 := NewEntry(OtherBase(h), b.TxPos(0))]
  {
    hide CheckBlock, BlockConnects, CheckTransaction;
    LoneChecks(w, OtherBase(h), h);
    BaseChecks(OtherBase(h), h);
    LoneCoinbase(w, ix, b, nBestHeight);
  }

  /** The branch is taken on the damaged index, and the coin stays free. */
  lemma BranchTaken(w: World, d: BlockIndex, x: BlockIndex, y: BlockIndex, z: BlockIndex, nBestHeight: int)
    requires IsRunWorld(w) && Branch(w, d, y, z) && MainOk(w, d) && OnMain(w, x) && x.pprev == d
    ensures Takes(w, ReplayTo(d), x, z, d, nBestHeight) && IsFree(Moved(ReplayTo(d), x, z, d), OutPoint(4, 0))
    ensures Moved(ReplayTo(d), x, z, d) == Redo(UndoDown(ReplayTo(d), x, Top(w)).ix, z, Top(w))
  {
    hide MainOk, BlockConnects, ConnectAll, ReplayTo, UndoDown;
    UndoFrees(w, x);
    var u, t := UndoDown(ReplayTo(d), x, Top(w)).ix, Top(w);
    NothingAbove(w, u, d, nBestHeight);
    OneAbove(w, u, y, t, nBestHeight);
    OtherConnects(w, u, y, t + 1, nBestHeight);
    OneAbove(w, u, z, t, nBestHeight);
    OtherConnects(w, ConnectAll(u, y), z, t + 2, nBestHeight);
  }

  /** The whole branch is reorganized to in one go, from the block at the top. */
  lemma BranchRoute(w: World, d: BlockIndex, x: BlockIndex, y: BlockIndex, z: BlockIndex, first: BlockIndex, fork: BlockIndex?)
    requires Branch(w, d, y, z) && x.Linked() && x.pprev == d && x.nChainTrust == Top(w) + 2 && x != y
    requires Route(x, z, first, fork)
    ensures first == z && fork == d
  {
    var t := Top(w);
    assert z.Path()[t + 2] == z && z.Path()[t + 1] == y && z.Path()[t] == d && x.Path()[t + 1] == x && x.Path()[t] == d;
    assert first.nHeight >= t + 2;
    if fork != null {
      assert fork.nHeight <= t + 1;
    }
  }

  /** The coin has been spent on the chain. */
  lemma CoinIsSpent(w: World, d: BlockIndex, y: BlockIndex, z: BlockIndex)
    requires IsRunWorld(w) && Branch(w, d, y, z) && d.block == MainBlock(Top(w), Top(w))
    ensures OutPoint(4, 0) in SpentOutPoints(z)
  {
    var vtx := d.block.vtx;
    assert vtx[..1] == [vtx[0]] && vtx[1] == Spend(Top(w), 1);
    SpendChecks(Top(w), 1);
    assert OutPoint(4, 0) in OutPointsOf(vtx);
    assert OutPoint(4, 0) in SpentOutPoints(d) && OutPoint(4, 0) in SpentOutPoints(y);
  }

  // ----- the run

  /** The chain from the root up to `b`. */
  ghost predicate Stretch(w: World, g: BlockIndex, b: BlockIndex) {
    && g.Linked() && g.pprev == null && g.nChainTrust == 1 && b.Linked() && On(b, g)
    && IsRunWorld(w) && OnMain(w, b) && MainOk(w, b)
  }

  /** A node in good order with its best block and its database at `best` and `d`. */
  ghost predicate At(c: Chain, w: World, best: BlockIndex, db: Db)
    reads c, c.mapBlockIndex
  {
    c.w == w && c.batch == NoBatch && c.Valid() && c.Ahead() && c.pindexBest == best && c.disk == db
  }

  /** The disk works from the access with this number on. */
  ghost predicate WorksFrom(c: Chain, n: nat) {
    forall k: nat :: c.device.works(k) <==> k >= n
  }

  lemma MainStep(w: World, b: BlockIndex)
    requires IsRunWorld(w) && OnMain(w, b) && b.pprev != null && b.nHeight <= Top(w) && MainOk(w, b.pprev)
    ensures MainOk(w, b)
  {
    if b.nHeight < Top(w) {
      LowStep(w, b);
    } else {
      TopStep(w, b);
    }
  }

  lemma MainRoot(w: World, g: BlockIndex)
    requires g.Linked() && g.pprev == null
    ensures MainOk(w, g) && On(g, g) && (MainAt(w, g, 0) ==> OnMain(w, g))
  {
  }

  lemma MainNext(w: World, prev: BlockIndex, b: BlockIndex)
    requires OnMain(w, prev) && b.Linked() && b.pprev == prev && MainAt(w, b, b.nHeight)
    ensures OnMain(w, b) && forall g | On(prev, g) :: On(b, g)
  {
  }

  /** While the disk fails, blocks become known and nothing else happens. */
  method AddMain(c: Chain, ghost w: World, ghost g: BlockIndex, prev: BlockIndex, b: BlockIndex)
    requires Stretch(w, g, prev) && At(c, w, g, Db(map[], g)) && WorksFrom(c, Top(w)) && c.device.nAccesses < Top(w)
    requires prev in c.mapBlockIndex && prev.nHeight < Top(w)
    requires b !in c.mapBlockIndex && b.Linked() && b.pprev == prev && b.pnext == null && MainAt(w, b, b.nHeight)
    modifies c, c.device, c.mapBlockIndex, b
    ensures Stretch(w, g, b) && At(c, w, g, Db(map[], g))
    ensures c.mapBlockIndex == old(c.mapBlockIndex) + {b} && c.device.nAccesses == old(c.device.nAccesses) + 1
  {
    hide Chain.Valid, Chain.Ahead, OnMain, MainAt, MainOk, Takes, Route, Clean, ConnectsAbove, AcceptedTo, OnDiskTo, On;
    MainNext(w, prev, b);
    MainStep(w, b);
    MainAccepted(w, b);
    StaysFormed(c);
    var ok;
    ghost var first, fork;
    ok, first, fork := c.AddToBlockIndex(b);
  }

  lemma MainAccepted(w: World, b: BlockIndex)
    requires b.Linked() && MainOk(w, b)
    ensures AcceptedTo(b) && OnDiskTo(w, b)
  {
  }

  lemma StaysFormed(c: Chain)
    requires c.Valid()
    ensures c.Formed() && c.pindexBest.Linked() && c.disk.best.Linked()
  {
  }

  /** The disk fails until the whole chain is known. */
  method DiskDown(nCoinbaseMaturity: nat, nStartPosv2Block: int, nStartPosvFork1Block: int)
    returns (c: Chain, ghost w: World, ghost g: BlockIndex, b: BlockIndex)
    ensures c.w == w == RunWorld(nCoinbaseMaturity, nStartPosv2Block, nStartPosvFork1Block)
    ensures Stretch(w, g, b) && b.nHeight == Top(w) && MainAt(w, b, b.nHeight) && At(c, w, g, Db(map[], g)) && b in c.mapBlockIndex
    ensures WorksFrom(c, Top(w)) && c.device.nAccesses == Top(w)
    ensures fresh(c) && fresh(c.device) && fresh(c.mapBlockIndex)
  {
    hide Chain.Valid, Chain.Ahead, MainOk, OnMain, On;
    var world := RunWorld(nCoinbaseMaturity, nStartPosv2Block, nStartPosvFork1Block);
    w := world;
    var top := Top(world);
    var device := new Device(k => k >= top);
    b := new BlockIndex(null, 1, 0, 1, MainBlock(top, 0));
    g := b;
    MainRoot(w, g);
    c := new Chain(world, device, b);
    while b.nHeight < top
      invariant Stretch(w, g, b) && b.nHeight <= top && At(c, w, g, Db(map[], g)) && b in c.mapBlockIndex
      invariant c.device == device && c.device.nAccesses == b.nHeight && MainAt(w, b, b.nHeight)
      invariant fresh(c) && fresh(c.device) && fresh(c.mapBlockIndex)
      decreases top - b.nHeight
    {
      var h := b.nHeight + 1;
      var next := new BlockIndex(b, 1, 1000 * h, 1, MainBlock(top, h));
      AddMain(c, w, g, b, next);
      b := next;
    }
  }

  /** Reorganizing from the root goes to the first block in one go, and connects the rest after it. */
  lemma RootRoute(w: World, g: BlockIndex, x: BlockIndex, first: BlockIndex, fork: BlockIndex?)
    requires OnMain(w, x) && x.nHeight > 1 && g.Linked() && g.pprev == null && g.nChainTrust == 1 && On(x, g) && Route(g, x, first, fork)
    ensures fork == g && first.nHeight == 1
  {
    hide BlockIndex.Path;
    var p := x.Path();
    assert MainAt(w, p[0], 0) && MainAt(w, p[1], 1);
    assert g == p[0] && g.nHeight == 0;
    PathPrefix(x, first.nHeight);
    if first.nHeight > 1 {
      Parent(x, first);
    }
    assert first.Path()[0] == g && g.Path()[0] == g by {
      OnItself(g);
      OnLower(x, first, g);
    }
  }

  lemma FromRoot(w: World, g: BlockIndex, b: BlockIndex)
    requires g.Linked() && g.pprev == null && b.Linked()
    ensures Takes(w, map[], g, b, g, 0) <==> Accepts(w, map[], b, 0, 0)
    ensures Moved(map[], g, b, g) == ReplayTo(b)
  {
    FromEmpty(b);
  }

  /** The double spend ends the chain that is connected. */
  lemma LandsAtTop(w: World, g: BlockIndex, d: BlockIndex, x: BlockIndex, first: BlockIndex, db: Db)
    requires Stretch(w, g, d) && OnMain(w, x) && x.pprev == d && d.nHeight == Top(w) && On(x, first) && first.Linked() && first.nHeight == 1
    ensures Takes(w, map[], g, first, g, 0) && !Takes(w, map[], g, x, g, 0)
    ensures (&& On(x, db.best) && db.best.Linked() && db.best.nHeight < x.nHeight && db.index == Moved(map[], g, db.best, g)
             && var next := x.Path()[db.best.nHeight + 1]; next.Linked() && !BlockConnects(w, db.index, next, 0)) ==>
              db == Db(ReplayTo(d), d)
  {
    hide BlockConnects, OnMain, ReplayTo, AcceptedTo, OnDiskTo, ConnectsTo, TxsTo, KeysWithin, Premine, Accepts, Redo;
    DoubleSpendFails(w, x, 0);
    FromEmpty(d);
    OneAbove(w, map[], x, 0, 0);
    OnBelow(x, first);
    AcceptsBelow(w, map[], d, first, 0, 0);
    FromRoot(w, g, first);
    FromRoot(w, g, x);
    if On(x, db.best) && db.best.Linked() && db.best.nHeight < x.nHeight && db.index == Moved(map[], g, db.best, g) {
      FromRoot(w, g, db.best);
      NextOn(x, db.best);
      var next := x.Path()[db.best.nHeight + 1];
      OnBelow(x, db.best);
      OnBelow(x, next);
      if next != x {
        AcceptsBelow(w, map[], d, next, 0, 0);
        OneAbove(w, map[], next, 0, 0);
        FromEmpty(db.best);
      }
    }
  }

  lemma OnlyTip(z: BlockIndex, e: BlockIndex)
    requires z.Linked() && On(z, e) && z.nHeight <= e.nHeight
    ensures e == z
  {
  }

  /** The database is not right at the fork after disconnecting the double spend. */
  lemma NotClean(w: World, d: BlockIndex, x: BlockIndex)
    requires IsRunWorld(w) && d.Linked() && MainOk(w, d) && OnMain(w, x) && x.pprev == d && d.nHeight == Top(w)
    ensures !Clean(Db(ReplayTo(d), d), x, d)
  {
    hide MainOk, ReplayTo, UndoDown;
    UndoFrees(w, x);
  }

  /** Where the double spend leaves the node. */
  lemma DoubleSpendLeaves(c: Chain, w: World, g: BlockIndex, d: BlockIndex, x: BlockIndex, first: BlockIndex, fork: BlockIndex?)
    requires Stretch(w, g, d) && d.nHeight == Top(w) && OnMain(w, x) && x.pprev == d && c.w == w && Route(g, x, first, fork)
    ensures fork == g && first.Linked() && Takes(w, map[], g, first, g, 0) && !Takes(w, map[], g, x, g, 0)
    ensures c.Landed(map[], g, x, first, g, 0) && c.NextStops(x, 0) ==> c.disk == Db(ReplayTo(d), d)
  {
    hide Takes, Moved, Clean, ConnectsAbove, AcceptedTo, OnDiskTo, MainOk, ReplayTo, OnMain, IsIntermediate, IsFork, Disjoint;
    MainOn(w, d, x, g);
    RootRoute(w, g, x, first, fork);
    LandsAtTop(w, g, d, x, first, c.disk);
  }

  lemma MainOn(w: World, d: BlockIndex, x: BlockIndex, g: BlockIndex)
    requires OnMain(w, d) && OnMain(w, x) && x.pprev == d && On(d, g)
    ensures On(x, g) && x.nHeight == d.nHeight + 1
  {
  }

  /** When the disk works again, the double spend comes: the database gets to the block below it. */
  method AddDoubleSpend(c: Chain, ghost w: World, ghost g: BlockIndex, d: BlockIndex, x: BlockIndex)
    requires Stretch(w, g, d) && d.nHeight == Top(w) && At(c, w, g, Db(map[], g)) && WorksFrom(c, Top(w)) && c.device.nAccesses >= Top(w)
    requires d in c.mapBlockIndex && x !in c.mapBlockIndex && x.Linked() && x.pprev == d && x.pnext == null && MainAt(w, x, x.nHeight)
    modifies c, c.device, c.mapBlockIndex, x
    ensures OnMain(w, x) && At(c, w, x, Db(ReplayTo(d), d))
    ensures c.mapBlockIndex == old(c.mapBlockIndex) + {x} && c.device.nAccesses >= Top(w)
  {
    hide Chain.Valid, Chain.Ahead, OnMain, Takes, Moved, Route, Clean, ConnectsAbove, AcceptedTo, OnDiskTo, On, MainOk, ReplayTo,
         Chain.Landed, Chain.NextStops, Chain.Formed, Replays;
    MainNext(w, d, x);
    assert AcceptedTo(x) && OnDiskTo(w, x) by {
      MainTxs(w, x);
    }
    StaysFormed(c);
    var ok;
    ghost var first, fork;
    ok, first, fork := c.AddToBlockIndex(x);
    assert c.device.Worked(old(c.device.nAccesses), c.device.nAccesses);
    DoubleSpendLeaves(c, w, g, d, x, first, fork);
  }

  /** The other branch does not outweigh it with its first block, but does with its second: the double
      spend is disconnected although it was never connected. */
  method AddBranch(c: Chain, ghost w: World, d: BlockIndex, x: BlockIndex, y: BlockIndex, z: BlockIndex)
    requires d.Linked() && MainOk(w, d) && MainAt(w, d, d.nHeight) && OnMain(w, x) && x.pprev == d && MainAt(w, x, x.nHeight)
    requires IsRunWorld(w) && Branch(w, d, y, z)
    requires At(c, w, x, Db(ReplayTo(d), d)) && WorksFrom(c, Top(w)) && c.device.nAccesses >= Top(w)
    requires y !in c.mapBlockIndex && z !in c.mapBlockIndex && y != z && y.pnext == z.pnext == null
    modifies c, c.device, c.mapBlockIndex, y, z
    ensures c.disk.best == c.pindexBest == z && z.Linked()
    ensures OutPoint(4, 0) in SpentOutPoints(z) && IsFree(c.disk.index, OutPoint(4, 0)) && !c.Describes(c.disk)
  {
    hide Chain.Valid, Chain.Ahead, OnMain, Takes, Moved, Route, Clean, ConnectsAbove, AcceptedTo, OnDiskTo, On, MainOk, ReplayTo, SpentOutPoints, Replays;
    BranchAccepted(w, d, y, z);
    StaysFormed(c);
    var ok;
    ghost var first, fork;
    ok, first, fork := c.AddToBlockIndex(y);
    ghost var db, before := c.disk, c.device.nAccesses;
    ok, first, fork := c.AddToBlockIndex(z);
    assert c.device.Worked(before, c.device.nAccesses);
    BranchRoute(w, d, x, y, z, first, fork);
    BranchTaken(w, d, x, y, z, x.nHeight);
    assert c.disk.best == z by {
      OnlyTip(z, c.disk.best);
    }
    CoinIsSpent(w, d, y, z);
    NotClean(w, d, x);
  }

  /** On every network there is such a run: in the end the best chain has spent a coin that its
      database says is free. */
  method SpendAgain(nCoinbaseMaturity: nat, nStartPosv2Block: int, nStartPosvFork1Block: int) returns (c: Chain, z: BlockIndex)
    ensures c.w == RunWorld(nCoinbaseMaturity, nStartPosv2Block, nStartPosvFork1Block)
    ensures c.disk.best == c.pindexBest == z && z.Linked() && !c.Describes(c.disk)
    ensures OutPoint(4, 0) in SpentOutPoints(z) && IsFree(c.disk.index, OutPoint(4, 0))
  {
    hide MainOk, OnMain, On, Stretch, At, ReplayTo, SpentOutPoints, Replays;
    ghost var w, g;
    var d;
    c, w, g, d := DiskDown(nCoinbaseMaturity, nStartPosv2Block, nStartPosvFork1Block);
    var top := d.nHeight;
    StretchParts(w, g, d);
    var x := new BlockIndex(d, 1, 1000 * (top + 1), 1, MainBlock(top, top + 1));
    AddDoubleSpend(c, w, g, d, x);
    var y := new BlockIndex(d, 1, 1000 * (top + 3), 1, Block([OtherBase(top + 1)]));
    z := new BlockIndex(y, 1, 1000 * (top + 4), 1, Block([OtherBase(top + 2)]));
    AddBranch(c, w, d, x, y, z);
  }

  lemma StretchParts(w: World, g: BlockIndex, b: BlockIndex)
    requires Stretch(w, g, b)
    ensures b.Linked() && MainOk(w, b) && OnMain(w, b) && IsRunWorld(w)
  {
  }
}
