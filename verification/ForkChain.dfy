/** A chain of proof-of-stake blocks up to the last height before the first script fork, on every
    network with these heights. */
module ForkChain {
  import opened Transactions
  import opened SpentIndex
  import opened BlockTree
  import opened TxInputs
  import opened BlockConnect
  import opened BlockUndo
  import opened Replay
  import opened Supply
  import opened StrayStake

  /** The maturity and the fork height of a network. */
  datatype Plan = Plan(nCoinbaseMaturity: nat, nFork: nat) {
    predicate Ok() { nFork >= 2 * nCoinbaseMaturity + 2 && nFork < 200_000_000 }
    function FirstStake(): nat { nCoinbaseMaturity + 2 }
    function Outputs(): nat { nFork + 2 }
  }

  // ----- the blocks

  /** The time of a block, and of what is new in it. */
  function TimeOf(h: nat): nat {
    16 * h
  }

  function Coins(n: nat): (vout: seq<TxOut>)
    ensures |vout| == n && forall i | 0 <= i < n :: vout[i] == TxOut(COIN, [1])
  {
    seq(n, _ => TxOut(COIN, [1]))
  }

  /** The coinbase of a height: the premine at height 1, and nothing above. */
  function CoinbaseOf(p: Plan, h: nat): Tx {
    Tx(3 * h, TimeOf(h), [OutPoint(0, 0xffff_ffff)], if h == 1 then Coins(p.Outputs()) else [TxOut(0, [])], 2, h, 100, 0)
  }

  /** The coinstake of a height spends the output of the premine with that number. */
  function StakeOf(h: nat): Tx {
    Tx(3 * h + 1, TimeOf(h), [OutPoint(3, h)], [TxOut(0, []), TxOut(COIN, [1])], 0, 0, 100, 0)
  }

  /** It spends both outputs of the first coinstake, the marker and the coin. */
  function Spender(p: Plan): Tx {
    Tx(3 * p.nFork + 5, TimeOf(p.nFork + 1), [OutPoint(3 * p.FirstStake() + 1, 0), OutPoint(3 * p.FirstStake() + 1, 1)], [TxOut(COIN - MIN_TX_FEE, [1])], 0, 0, 100, 0)
  }

  /** Proof-of-stake blocks as soon as the premine is mature. */
  function BlockOf(p: Plan, h: nat): Block {
    Block([CoinbaseOf(p, h)] + (if h < p.FirstStake() then [] else [StakeOf(h)]) + if h == p.nFork + 1 then [Spender(p)] else [])
  }

  /** A coinstake above the fork that takes the subsidy and the least fee. */
  function Paid(p: Plan): Tx {
    Tx(3 * p.nFork + 7, TimeOf(p.nFork + 1), [OutPoint(3, p.nFork + 1)], [TxOut(0, []), TxOut(COIN + ProofOfStakeSubsidy(p.nFork) + MIN_TX_FEE, [1])], 0, 0, 100, 0)
  }

  /** A second later, it spends the coin of the first coinstake and pays the least fee. */
  function Late(p: Plan): Tx {
    Tx(3 * p.nFork + 8, TimeOf(p.nFork + 1) + 1, [OutPoint(3 * p.FirstStake() + 1, 1)], [TxOut(COIN - MIN_TX_FEE, [1])], 0, 0, 100, 0)
  }

  function TxOfHash(p: Plan, h: Txid): Tx {
    if h == 3 * p.nFork + 7 then Paid(p) else if h == 3 * p.nFork + 8 then Late(p)
    else if h % 3 == 0 then CoinbaseOf(p, h / 3) else if h % 3 == 1 then StakeOf(h / 3) else Spender(p)
  }

  /** The block files have all of these; every signature holds. */
  function ForkWorld(p: Plan, nStartPosv2Block: int): World {
    World((h: Txid, pos: DiskTxPos) => TxOfHash(p, h),
          (from: Tx, tx: Tx, i: nat, rules: ScriptRules) => true, (tx: Tx, i: nat, out: TxOut) => 0,
          (b: Block) => true, p.nCoinbaseMaturity, 0, nStartPosv2Block, p.nFork)
  }

  ghost predicate OnForkChain(p: Plan, b: BlockIndex) {
    b.Linked() && b.nHeight <= p.nFork + 1 &&
    forall h: nat | h <= b.nHeight :: b.Path()[h].block == BlockOf(p, h) && b.Path()[h].nFile == 1 && b.Path()[h].nBlockPos == 1000 * h
  }

  // ----- their checks

  lemma {:induction false} CoinsAdd(n: nat, i: nat)
    requires i <= n
    ensures ValueOf(Coins(n)[..i]) == i * COIN
  {
    if i > 0 {
      CoinsAdd(n, i - 1);
      assert Coins(n)[..i][..i - 1] == Coins(n)[..i - 1];
    }
  }

  lemma CoinbaseOfChecks(p: Plan, h: nat)
    requires p.Ok()
    ensures CoinbaseOf(p, h).IsCoinBase() && !CoinbaseOf(p, h).IsCoinStake() && CheckTransaction(CoinbaseOf(p, h))
    ensures ValueOf(CoinbaseOf(p, h).vout) <= ProofOfWorkSubsidy(h)
    ensures h != 1 ==> ValueOf(CoinbaseOf(p, h).vout) == 0
  {
    var vout := CoinbaseOf(p, h).vout;
    if h == 1 {
      forall i | 0 <= i < |vout| ensures vout[i].nValue == COIN && MoneyRange(ValueOf(vout[..i + 1])) {
        CoinsAdd(p.Outputs(), i + 1);
      }
      CoinsAdd(p.Outputs(), p.Outputs());
      assert vout[..p.Outputs()] == vout;
    } else {
      ValueOfOne(vout[0]);
      assert vout[..1] == [vout[0]];
    }
  }

  lemma StakeOfChecks(h: nat)
    ensures !StakeOf(h).IsCoinBase() && StakeOf(h).IsCoinStake() && CheckTransaction(StakeOf(h))
    ensures ValueOf(StakeOf(h).vout) == COIN
  {
    var vout := StakeOf(h).vout;
    ValueOfOne(vout[0]);
    ValueOfTwo(vout[0], vout[1]);
    assert vout[..1] == [vout[0]] && vout[..2] == vout == [vout[0], vout[1]];
  }

  lemma SpenderOk(p: Plan)
    ensures !Spender(p).IsCoinBase() && !Spender(p).IsCoinStake() && CheckTransaction(Spender(p))
    ensures ValueOf(Spender(p).vout) == COIN - MIN_TX_FEE
  {
    ValueOfOne(Spender(p).vout[0]);
    assert Spender(p).vout[..1] == Spender(p).vout;
  }

  lemma BlockOfShape(p: Plan, h: nat)
    requires p.Ok() && h <= p.nFork + 1
    ensures var vtx := BlockOf(p, h).vtx;
            && vtx == if h < p.FirstStake() then [CoinbaseOf(p, h)] else if h <= p.nFork then [CoinbaseOf(p, h), StakeOf(h)] else [CoinbaseOf(p, h), StakeOf(h), Spender(p)]
  {
    hide CoinbaseOf, StakeOf, Spender;
  }

  lemma BlockOfChecks(p: Plan, w: World, h: nat)
    requires p.Ok() && h <= p.nFork + 1 && forall b :: w.otherBlockChecks(b)
    ensures CheckBlock(w, BlockOf(p, h)) && (BlockOf(p, h).IsProofOfStake() <==> h >= p.FirstStake())
  {
    hide CheckTransaction, BlockOf, Coins, LegacySigOps, Distinct, MoneyRange;
    BlockOfShape(p, h);
    CoinbaseOfChecks(p, h);
    StakeOfChecks(h);
    SpenderOk(p);
    NoOps(BlockOf(p, h).vtx);
  }

  lemma {:induction false} NoOps(vtx: seq<Tx>)
    requires forall i | 0 <= i < |vtx| :: vtx[i].nLegacySigOps == 0
    ensures LegacySigOps(vtx) == 0
  {
    if vtx != [] {
      NoOps(vtx[..|vtx| - 1]);
    }
  }

  // ----- what replaying them gives

  /** A coin of the premine that no coinstake down from `b` has taken. */
  predicate PremineLeft(p: Plan, ix: Index, h: nat) {
    && 3 in ix && ix[3].pos.At? && ix[3].pos.nFile == 1 && ix[3].pos.nBlockPos == 1000 && |ix[3].vSpent| == p.Outputs()
    && forall i | h < i < p.Outputs() :: ix[3].vSpent[i] == Null
  }

  predicate StakeLeft(ix: Index, h: nat) {
    && 3 * h + 1 in ix && ix[3 * h + 1].pos.At? && ix[3 * h + 1].pos.nFile == 1 && ix[3 * h + 1].pos.nBlockPos == 1000 * h
    && ix[3 * h + 1].vSpent == [Null, Null]
  }

  /** The entries are of transactions up to this height, and lie in blocks up to it. */
  ghost predicate Within(ix: Index, h: nat) {
    forall i :: i in ix ==> 3 <= i < 3 * h + 3 && ix[i].pos.At? && ix[i].pos.nBlockPos <= 1000 * h
  }

  ghost predicate Replayed(p: Plan, w: World, b: BlockIndex)
    requires b.Linked()
  {
    var ix := ReplayTo(b);
    && ConnectsTo(w, b) && AcceptedTo(b) && OnDiskTo(w, b)
    && Within(ix, b.nHeight)
    && (forall t :: t in TxsTo(b) ==> 3 <= t.hash < 3 * b.nHeight + 3)
    && (b.nHeight > 0 ==> PremineLeft(p, ix, b.nHeight))
    && (b.nHeight >= p.FirstStake() ==> StakeLeft(ix, p.FirstStake()))
  }

  /** The block lies at its place on top of the chain. */
  ghost predicate OnTop(p: Plan, b: BlockIndex)
    requires b.Linked()
  {
    b.pprev != null && OnForkChain(p, b.pprev) && b.nHeight <= p.nFork + 1 && b.nFile == 1 && b.nBlockPos == 1000 * b.nHeight
  }

  lemma TopOfChain(p: Plan, b: BlockIndex)
    requires OnForkChain(p, b) && b.pprev != null
    ensures OnTop(p, b) && b.block == BlockOf(p, b.nHeight)
  {
    hide BlockOf;
    assert b.Path()[b.nHeight] == b;
    forall h: nat | h <= b.pprev.nHeight ensures b.pprev.Path()[h] == b.Path()[h] {
    }
  }

  /** The coin of the premine with the number of the height is mature. */
  lemma CoinMature(p: Plan, w: World, b: BlockIndex, tx: Tx)
    requires p.Ok() && w == ForkWorld(p, w.nStartPosv2Block) && b.Linked() && OnTop(p, b) && Replayed(p, w, b.pprev)
    requires b.nHeight >= p.FirstStake() && tx.vin == [OutPoint(3, b.nHeight)] && TimeOf(b.nHeight) <= tx.nTime
    ensures var ix, o := ReplayTo(b.pprev), OutPoint(3, b.nHeight);
            SpendsLone(w, ix, tx, o, b, BlockMode(w, b, 0)) && OutValue(w, ix, o) == COIN && P2SHSigOps(w, ix, tx, 1) == 0
  {
    hide ReplayTo, AcceptedTo, OnDiskTo, ConnectsTo, TxsTo;
    var h := b.nHeight;
    var ix, o := ReplayTo(b.pprev), OutPoint(3, h);
    assert Fetchable(w, ix, o) && Prev(w, ix, o) == CoinbaseOf(p, 1) && IsFree(ix, o);
    forall g: nat | g <= h && b.Path()[g].HoldsPos(ix[3].pos) ensures g == 1 {
      assert g < h ==> b.Path()[g] == b.pprev.Path()[g];
    }
    assert !ConfirmedWithin(ix[3].pos, b, w.nCoinbaseMaturity);
    assert P2SHSigOps(w, ix, tx, 0) == 0;
  }

  lemma ForkTxs(p: Plan, w: World, b: BlockIndex)
    requires p.Ok() && w == ForkWorld(p, w.nStartPosv2Block) && OnForkChain(p, b) && b.nHeight <= p.nFork && b.pprev != null && Replayed(p, w, b.pprev)
    ensures b.block == BlockOf(p, b.nHeight) && CheckBlock(w, b.block) && b.OnDisk(w) && Fresh(ReplayTo(b.pprev), b)
    ensures AcceptedTo(b) && OnDiskTo(w, b)
    ensures forall t :: t in TxsTo(b) ==> 3 <= t.hash < 3 * b.nHeight + 3
  {
    hide ReplayTo, CheckBlock, ConnectsTo, PremineLeft, StakeLeft, CoinbaseOf, StakeOf, Spender, BlockOf;
    assert b.Path()[b.nHeight] == b;
    BlockOfChecks(p, w, b.nHeight);
    BlockOfHashes(p, w, b.nHeight);
  }

  /** The hashes and the height in a block, and what is read for them. */
  lemma BlockOfHashes(p: Plan, w: World, h: nat)
    requires p.Ok() && h <= p.nFork + 1 && w == ForkWorld(p, w.nStartPosv2Block)
    ensures var vtx := BlockOf(p, h).vtx;
            && vtx != [] && vtx[0].nCoinbaseHeight == h
            && forall k | 0 <= k < |vtx| :: 3 * h <= vtx[k].hash < 3 * h + 3 && forall pos :: w.readTx(vtx[k].hash, pos) == vtx[k]
  {
    BlockOfShape(p, h);
  }

  /** Each block up to the fork height connects on those below it. */
  lemma ForkStep(p: Plan, w: World, b: BlockIndex)
    requires p.Ok() && w == ForkWorld(p, w.nStartPosv2Block) && OnForkChain(p, b) && b.nHeight <= p.nFork && b.pprev != null && Replayed(p, w, b.pprev)
    ensures Replayed(p, w, b)
  {
    hide CheckBlock, AcceptedTo, OnDiskTo, TxsTo, CheckTransaction, TxsIn, SpendsLone, BlockConnects;
    ForkTxs(p, w, b);
    CoinbaseOfChecks(p, b.nHeight);
    var h, ix := b.nHeight, ReplayTo(b.pprev);
    if h < p.FirstStake() {
      LoneCoinbase(w, ix, b, 0);
    } else {
      StakeOfChecks(h);
      TopOfChain(p, b);
      CoinMature(p, w, b, StakeOf(h));
      StakeNeedsNoFee(w, COIN, StakeOf(h), BlockMode(w, b, 0));
      PairConnects(w, ix, b, OutPoint(3, h));
      StakeTaken(p, ix, b);
    }
    assert ConnectsOnParent(w, b);
  }

  /** A coinstake takes its coin and leaves the others. */
  lemma StakeTaken(p: Plan, ix: Index, b: BlockIndex)
    requires p.FirstStake() <= b.nHeight && b.block == BlockOf(p, b.nHeight) && b.nHeight <= p.nFork
    requires PremineLeft(p, ix, b.nHeight - 1) && (b.nHeight > p.FirstStake() ==> StakeLeft(ix, p.FirstStake()))
    requires Within(ix, b.nHeight - 1)
    requires b.nFile == 1 && b.nBlockPos == 1000 * b.nHeight
    ensures var jx := ConnectTx(ConnectTx(ix, b.block.vtx[0], b.TxPos(0)), b.block.vtx[1], b.TxPos(1));
            && PremineLeft(p, jx, b.nHeight) && StakeLeft(jx, p.FirstStake())
            && Within(jx, b.nHeight)
  {
    var i1 := ix[3 * b.nHeight := NewEntry(CoinbaseOf(p, b.nHeight), b.TxPos(0))];
    var stake := StakeOf(b.nHeight);
    assert stake.vin[..0] == [] && MarkAll(i1, stake.vin, b.TxPos(1)) == Mark(i1, OutPoint(3, b.nHeight), b.TxPos(1));
  }

  // ----- at the fork

  ghost predicate AtFork(p: Plan, w: World, prev: BlockIndex) {
    p.Ok() && w == ForkWorld(p, w.nStartPosv2Block) && OnForkChain(p, prev) && prev.nHeight == p.nFork && Replayed(p, w, prev)
  }

  /** Both outputs of the first coinstake can be spent, as far as the rules before the fork go. */
  lemma StakeOutput(p: Plan, w: World, prev: BlockIndex, tx: Tx, k: nat)
    requires prev.Linked() && AtFork(p, w, prev) && k < 2 && TimeOf(p.nFork + 1) <= tx.nTime
    ensures var ix, o := ReplayTo(prev), OutPoint(3 * p.FirstStake() + 1, k);
            && IsFree(ix, o) && PrevoutOk(w, ix, tx, o, prev) && Fetchable(w, ix, o)
            && PrevOut(w, ix, o) == [TxOut(0, []), TxOut(COIN, [1])][k]
  {
    hide ReplayTo, AcceptedTo, OnDiskTo, ConnectsTo, TxsTo, Within;
    var ix, s := ReplayTo(prev), p.FirstStake();
    var o := OutPoint(3 * s + 1, k);
    assert StakeLeft(ix, s) && Prev(w, ix, o) == StakeOf(s);
    forall g: nat | g <= prev.nHeight && prev.Path()[g].HoldsPos(ix[o.hash].pos) ensures g == s {
    }
    assert !ConfirmedWithin(ix[o.hash].pos, prev, w.nCoinbaseMaturity);
  }

  lemma SignaturesOf(p: Plan, w: World, prev: BlockIndex)
    requires prev.Linked() && AtFork(p, w, prev)
    ensures forall from, tx, i: nat, r :: w.verifySignature(from, tx, i, r)
    ensures forall tx, i: nat, out :: w.p2shSigOps(tx, i, out) == 0
  {
  }

  lemma CoinbaseHash(p: Plan, h: nat)
    ensures CoinbaseOf(p, h).hash == 3 * h && CoinbaseOf(p, h).nLegacySigOps == 0
  {
  }

  /** On every network with these heights there is such a chain. */
  method BuildToFork(p: Plan, nStartPosv2Block: int) returns (w: World, b: BlockIndex)
    requires p.Ok()
    ensures w == ForkWorld(p, nStartPosv2Block) && b.Linked() && AtFork(p, w, b)
    ensures ConnectsTo(w, b) && AcceptedTo(b) && OnDiskTo(w, b)
    ensures forall h: nat | p.FirstStake() <= h <= b.nHeight :: b.Path()[h].block.IsProofOfStake()
  {
    hide Replayed, ConnectsTo, AcceptedTo, OnDiskTo, ReplayTo, BlockOf, CheckBlock;
    w := ForkWorld(p, nStartPosv2Block);
    b := new BlockIndex(null, 1, 0, 1, BlockOf(p, 0));
    NothingReplayed(p, w, b);
    while b.nHeight < p.nFork
      invariant OnForkChain(p, b) && b.nHeight <= p.nFork && Replayed(p, w, b)
      decreases p.nFork - b.nHeight
    {
      var h := b.nHeight + 1;
      b := new BlockIndex(b, 1, 1000 * h, 1, BlockOf(p, h));
      ForkStep(p, w, b);
    }
    ForkChainOk(p, w, b);
    forall h: nat | p.FirstStake() <= h <= b.nHeight ensures b.Path()[h].block.IsProofOfStake() {
      BlockOfChecks(p, w, h);
    }
  }

  lemma ForkChainOk(p: Plan, w: World, b: BlockIndex)
    requires b.Linked() && Replayed(p, w, b)
    ensures ConnectsTo(w, b) && AcceptedTo(b) && OnDiskTo(w, b)
  {
  }

  lemma NothingReplayed(p: Plan, w: World, b: BlockIndex)
    requires b.Linked() && b.pprev == null
    ensures Replayed(p, w, b)
  {
  }
}
