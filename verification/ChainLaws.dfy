/** What connecting means for the chain itself, in terms of its blocks: where each output that a
    transaction spends comes from, how old it is, and which outputs are left. */
module ChainLaws {
  import opened Transactions
  import opened SpentIndex
  import opened BlockTree
  import opened TxInputs
  import opened BlockConnect
  import opened BlockUndo
  import opened Replay
  import opened Supply

  // ----- where transactions are

  /** Transaction `k` of the block at height `g` stands before transaction `i` of `b` and has this
      hash. */
  ghost predicate Source(b: BlockIndex, i: nat, h: Txid, g: nat, k: nat)
    requires b.Linked()
  {
    0 < g <= b.nHeight && k < |b.Path()[g].block.vtx| && (g == b.nHeight ==> k < i) && b.Path()[g].block.vtx[k].hash == h
  }

  ghost predicate Seen(b: BlockIndex, i: nat, h: Txid)
    requires b.Linked()
  {
    exists g: nat, k: nat :: Source(b, i, h, g, k)
  }

  ghost predicate OneSource(b: BlockIndex, i: nat, h: Txid)
    requires b.Linked()
  {
    forall g: nat, k: nat, g': nat, k': nat | Source(b, i, h, g, k) && Source(b, i, h, g', k') :: g == g' && k == k'
  }

  ghost predicate Entered(b: BlockIndex, i: nat, e: TxIndex, h: Txid)
    requires b.Linked()
  {
    forall g: nat, k: nat | Source(b, i, h, g, k) :: e.pos == b.Path()[g].TxPos(k) && |e.vSpent| == |b.Path()[g].block.vtx[k].vout|
  }

  /** The index has one entry for each transaction before number `i` of `b`, with its place and the
      number of its outputs. */
  ghost predicate Located(b: BlockIndex, i: nat, ix: Index)
    requires b.Linked()
  {
    forall h :: (h in ix <==> Seen(b, i, h)) && (h in ix ==> OneSource(b, i, h) && Entered(b, i, ix[h], h))
  }

  /** The next transaction is one more. */
  lemma SourceNext(b: BlockIndex, i: nat, n: nat, h: Txid, g: nat, k: nat)
    requires b.Linked() && b.nHeight > 0 && n == i + 1 <= |b.block.vtx|
    ensures Source(b, n, h, g, k) <==> Source(b, i, h, g, k) || (g == b.nHeight && k == i && h == b.block.vtx[i].hash)
  {
  }

  lemma SeenNext(b: BlockIndex, i: nat, n: nat, h: Txid)
    requires b.Linked() && b.nHeight > 0 && n == i + 1 <= |b.block.vtx|
    ensures Seen(b, n, h) <==> Seen(b, i, h) || h == b.block.vtx[i].hash
    ensures h != b.block.vtx[i].hash ==> forall g: nat, k: nat :: Source(b, n, h, g, k) <==> Source(b, i, h, g, k)
    ensures h == b.block.vtx[i].hash && !Seen(b, i, h) ==>
              forall g: nat, k: nat | Source(b, n, h, g, k) :: g == b.nHeight && k == i
  {
    hide Source;
    forall g: nat, k: nat
      ensures Source(b, n, h, g, k) <==> Source(b, i, h, g, k) || (g == b.nHeight && k == i && h == b.block.vtx[i].hash)
    {
      SourceNext(b, i, n, h, g, k);
    }
    if Seen(b, i, h) {
      var g: nat, k: nat :| Source(b, i, h, g, k);
      assert Source(b, n, h, g, k);
    }
    SourceNext(b, i, n, h, b.nHeight, i);
  }

  lemma LocatedNext(b: BlockIndex, i: nat, n: nat, ix: Index)
    requires b.Linked() && b.nHeight > 0 && n == i + 1 <= |b.block.vtx| && Located(b, i, ix) && b.block.vtx[i].hash !in ix
    ensures Located(b, n, ConnectTx(ix, b.block.vtx[i], b.TxPos(i)))
  {
    hide Source, Seen, MarkAll;
    var tx := b.block.vtx[i];
    MarkAllSlots(ix, tx.vin, b.TxPos(i));
    var jx := ConnectTx(ix, tx, b.TxPos(i));
    forall h ensures (h in jx <==> Seen(b, n, h)) && (h in jx ==> OneSource(b, n, h) && Entered(b, n, jx[h], h)) {
      SeenNext(b, i, n, h);
      assert h in ix <==> Seen(b, i, h);
      if h in ix {
        assert OneSource(b, i, h) && Entered(b, i, ix[h], h);
      }
    }
  }

  /** What stands before the first transaction of a block is what the chain below has. */
  lemma SourceBelow(b: BlockIndex, h: Txid, g: nat, k: nat)
    requires b.Linked() && b.pprev != null
    ensures Source(b, 0, h, g, k) <==> Source(b.pprev, |b.pprev.block.vtx|, h, g, k)
    ensures g < b.nHeight ==> b.Path()[g] == b.pprev.Path()[g]
  {
  }

  lemma LocatedBelow(b: BlockIndex, ix: Index)
    requires b.Linked() && b.pprev != null && Located(b.pprev, |b.pprev.block.vtx|, ix)
    ensures Located(b, 0, ix)
  {
    hide Source, BlockIndex.Path;
    var c, n := b.pprev, |b.pprev.block.vtx|;
    forall h ensures (h in ix <==> Seen(b, 0, h)) && (h in ix ==> OneSource(b, 0, h) && Entered(b, 0, ix[h], h)) {
      assert (h in ix <==> Seen(c, n, h)) && (h in ix ==> OneSource(c, n, h) && Entered(c, n, ix[h], h));
      forall g: nat, k: nat ensures Source(b, 0, h, g, k) <==> Source(c, n, h, g, k) {
        SourceBelow(b, h, g, k);
      }
      forall g: nat, k: nat | Source(b, 0, h, g, k) ensures g < b.nHeight && b.Path()[g] == c.Path()[g] {
        SourceBelow(b, h, g, k);
        SourceHeight(c, n, h, g, k);
      }
    }
  }

  lemma SourceHeight(b: BlockIndex, i: nat, h: Txid, g: nat, k: nat)
    requires b.Linked() && Source(b, i, h, g, k)
    ensures 0 < g <= b.nHeight
  {
  }

  lemma {:induction false} LocatedUpTo(b: BlockIndex, ix: Index, i: nat)
    requires b.Linked() && b.nHeight > 0 && i <= |b.block.vtx| && Located(b, 0, ix)
    requires forall k | 0 <= k < i :: StepClean(ix, b, k)
    ensures Located(b, i, ConnectTxs(ix, b, i))
  {
    hide Located, Source, ConnectTx;
    if i > 0 {
      LocatedUpTo(b, ix, i - 1);
      assert StepClean(ix, b, i - 1);
      LocatedNext(b, i - 1, i, ConnectTxs(ix, b, i - 1));
    }
  }

  /** The chain below `b` connects, and so did the first `i` transactions of `b`, which were new. */
  ghost predicate Ready(w: World, b: BlockIndex, i: nat) {
    && b.Linked() && b.pprev != null && ConnectsTo(w, b.pprev) && AcceptedTo(b.pprev) && OnDiskTo(w, b) && i <= |b.block.vtx|
    && forall k | 0 <= k < i :: StepClean(ReplayTo(b.pprev), b, k)
  }

  lemma ReadyOnChain(w: World, b: BlockIndex)
    requires b.Linked() && b.pprev != null && ConnectsTo(w, b) && AcceptedTo(b) && OnDiskTo(w, b)
    ensures forall i: nat | i <= |b.block.vtx| :: Ready(w, b, i)
  {
    hide StepClean, BlockConnects, ReplayTo;
    ChainIsFresh(w, b.pprev);
    CleanOnChain(w, b);
  }

  /** The replayed index has exactly the transactions of the chain, where they are. */
  lemma {:induction false} ChainLocated(w: World, b: BlockIndex)
    requires b.Linked() && ConnectsTo(w, b) && AcceptedTo(b)
    ensures Located(b, |b.block.vtx|, ReplayTo(b))
    decreases b.nHeight
  {
    hide Located, ConnectTxs, StepClean;
    if b.pprev != null {
      ChainLocated(w, b.pprev);
      LocatedBelow(b, ReplayTo(b.pprev));
      ChainIsFresh(w, b.pprev);
      CleanOnChain(w, b);
      LocatedUpTo(b, ReplayTo(b.pprev), |b.block.vtx|);
    } else {
      NothingSeen(b);
    }
  }

  lemma NothingSeen(b: BlockIndex)
    requires b.Linked() && b.pprev == null
    ensures Located(b, |b.block.vtx|, map[])
  {
  }

  /** And so has the index in which a transaction of the next block finds its inputs. */
  lemma StepLocated(w: World, b: BlockIndex, i: nat)
    requires Ready(w, b, i)
    ensures Located(b, i, ConnectTxs(ReplayTo(b.pprev), b, i))
  {
    hide Located, ConnectTxs, StepClean, ConnectsTo, AcceptedTo, ReplayTo;
    ChainLocated(w, b.pprev);
    LocatedBelow(b, ReplayTo(b.pprev));
    LocatedUpTo(b, ReplayTo(b.pprev), i);
  }

  // ----- where the money comes from

  /** The transaction at that place. */
  ghost function TxAt(b: BlockIndex, g: nat, k: nat): Tx
    requires b.Linked() && g <= b.nHeight && k < |b.Path()[g].block.vtx|
  {
    b.Path()[g].block.vtx[k]
  }

  /** The output `o` of the transaction at that place may be spent by `tx` in the block `b`: it is
      there, the transaction is no later, it has matured if it is new money, and it is no marker
      after the fork. */
  ghost predicate Ripe(w: World, b: BlockIndex, tx: Tx, o: OutPoint, g: nat, k: nat)
    requires b.Linked() && g <= b.nHeight && k < |b.Path()[g].block.vtx|
  {
    var from := TxAt(b, g, k);
    && o.n < |from.vout| && MoneyRange(from.vout[o.n].nValue) && from.nTime <= tx.nTime
    && (from.IsCoinBase() || from.IsCoinStake() ==> b.nHeight >= g + w.nCoinbaseMaturity)
    && (b.nHeight > w.nStartPosvFork1Block ==> !from.vout[o.n].IsEmpty())
  }

  /** The blocks lie at different places in the block files. */
  ghost predicate Apart(b: BlockIndex)
    requires b.Linked()
  {
    forall g, h | 0 <= g < h <= b.nHeight :: b.Path()[g].nFile != b.Path()[h].nFile || b.Path()[g].nBlockPos != b.Path()[h].nBlockPos
  }

  lemma {:induction false} ReadsBack(w: World, b: BlockIndex, g: nat, k: nat)
    requires b.Linked() && OnDiskTo(w, b) && 0 < g <= b.nHeight && k < |b.Path()[g].block.vtx|
    ensures w.readTx(TxAt(b, g, k).hash, b.Path()[g].TxPos(k)) == TxAt(b, g, k)
    decreases b.nHeight
  {
    if g < b.nHeight {
      ReadsBack(w, b.pprev, g, k);
    }
  }

  /** When ConnectInputs accepts one input of a transaction of the chain: exactly when the output is
      of an earlier transaction of the chain, and is ripe. */
  lemma PrevoutOkIff(w: World, b: BlockIndex, i: nat, tx: Tx, o: OutPoint, g: nat, k: nat)
    requires Ready(w, b, i)
    requires Source(b, i, o.hash, g, k)
    ensures PrevoutOk(w, ConnectTxs(ReplayTo(b.pprev), b, i), tx, o, b) ==> Ripe(w, b, tx, o, g, k)
    ensures Apart(b) && Ripe(w, b, tx, o, g, k) ==> PrevoutOk(w, ConnectTxs(ReplayTo(b.pprev), b, i), tx, o, b)
  {
    hide ConnectsTo, AcceptedTo, ReplayTo, ConnectTxs;
    var ix := ConnectTxs(ReplayTo(b.pprev), b, i);
    StepLocated(w, b, i);
    assert Seen(b, i, o.hash);
    assert Entered(b, i, ix[o.hash], o.hash);
    ReadsBack(w, b, g, k);
    assert Prev(w, ix, o) == TxAt(b, g, k);
    assert b.Path()[g].HoldsPos(ix[o.hash].pos);
    if Apart(b) {
      forall h: nat | h <= b.nHeight && b.Path()[h].HoldsPos(ix[o.hash].pos) ensures h == g {
      }
    }
  }

  // ----- what is left

  /** The outputs that the chain has spent before transaction `i` of `b`. */
  ghost function SpentBefore(b: BlockIndex, i: nat): seq<OutPoint>
    requires b.Linked() && b.pprev != null && i <= |b.block.vtx|
  {
    SpentOutPoints(b.pprev) + OutPointsOf(b.block.vtx[..i])
  }

  ghost predicate OnlySpent(ix: Index, os: seq<OutPoint>) {
    forall o | HasSlot(ix, o) && !IsFree(ix, o) :: o in os
  }

  lemma OnlySpentNext(ix: Index, os: seq<OutPoint>, tx: Tx, p: DiskTxPos)
    requires OnlySpent(ix, os)
    ensures OnlySpent(ConnectTx(ix, tx, p), os + if tx.IsCoinBase() then [] else tx.vin)
  {
    MarkAllSlots(ix, tx.vin, p);
    var jx := ConnectTx(ix, tx, p);
    forall o | HasSlot(jx, o) && !IsFree(jx, o) ensures o in os + if tx.IsCoinBase() then [] else tx.vin {
      assert HasSlot(ix, o) && (IsFree(ix, o) ==> !tx.IsCoinBase() && o in tx.vin);
    }
  }

  lemma {:induction false} OnlySpentUpTo(ix: Index, os: seq<OutPoint>, b: BlockIndex, k: nat)
    requires k <= |b.block.vtx| && OnlySpent(ix, os)
    ensures OnlySpent(ConnectTxs(ix, b, k), os + OutPointsOf(b.block.vtx[..k]))
  {
    hide OnlySpent, ConnectTx;
    if k == 0 {
      assert os + [] == os;
    } else {
      OnlySpentUpTo(ix, os, b, k - 1);
      OnlySpentNext(ConnectTxs(ix, b, k - 1), os + OutPointsOf(b.block.vtx[..k - 1]), b.block.vtx[k - 1], b.TxPos(k - 1));
      OutPointsStep(os, b.block.vtx, k);
    }
  }

  lemma {:induction false} OnlySpentTo(b: BlockIndex)
    requires b.Linked()
    ensures OnlySpent(ReplayTo(b), SpentOutPoints(b))
    decreases b.nHeight
  {
    if b.pprev != null {
      OnlySpentTo(b.pprev);
      OnlySpentUpTo(ReplayTo(b.pprev), SpentOutPoints(b.pprev), b, |b.block.vtx|);
      assert b.block.vtx[..|b.block.vtx|] == b.block.vtx;
    }
  }

  /** An earlier transaction of the chain has this output. */
  ghost predicate Created(b: BlockIndex, i: nat, o: OutPoint)
    requires b.Linked()
  {
    exists g: nat, k: nat :: Source(b, i, o.hash, g, k) && o.n < |TxAt(b, g, k).vout|
  }

  /** The index has an output as free exactly when the chain has created it and not spent it. */
  lemma FreeIff(w: World, b: BlockIndex, i: nat, o: OutPoint)
    requires Ready(w, b, i)
    ensures IsFree(ConnectTxs(ReplayTo(b.pprev), b, i), o) <==> Created(b, i, o) && o !in SpentBefore(b, i)
  {
    hide BlockConnects, ReplayTo, ConnectTxs, SpentOutPoints, OutPointsOf, StepClean, Source;
    var ix := ConnectTxs(ReplayTo(b.pprev), b, i);
    StepLocated(w, b, i);
    OnlySpentTo(b.pprev);
    OnlySpentUpTo(ReplayTo(b.pprev), SpentOutPoints(b.pprev), b, i);
    NoDoubleSpend(w, b.pprev);
    SpendsUpTo(ReplayTo(b.pprev), SpentOutPoints(b.pprev), b, i);
    assert HasSlot(ix, o) <==> Created(b, i, o) by {
      SlotIff(b, i, ix, o);
    }
  }

  lemma SlotIff(b: BlockIndex, i: nat, ix: Index, o: OutPoint)
    requires b.Linked() && Located(b, i, ix)
    ensures HasSlot(ix, o) <==> Created(b, i, o)
  {
    hide BlockIndex.Path;
    if HasSlot(ix, o) {
      assert Seen(b, i, o.hash) && Entered(b, i, ix[o.hash], o.hash);
      var g: nat, k: nat :| Source(b, i, o.hash, g, k);
    }
    if Created(b, i, o) {
      var g: nat, k: nat :| Source(b, i, o.hash, g, k) && o.n < |TxAt(b, g, k).vout|;
      assert Seen(b, i, o.hash);
      assert Entered(b, i, ix[o.hash], o.hash);
    }
  }

  // ----- when a transaction connects

  /** What an output of the chain is worth; nothing if the chain has not created it. */
  ghost function Worth(b: BlockIndex, i: nat, o: OutPoint): int
    requires b.Linked()
  {
    if Created(b, i, o) then
      var g: nat, k: nat :| Source(b, i, o.hash, g, k) && o.n < |TxAt(b, g, k).vout|;
      TxAt(b, g, k).vout[o.n].nValue
    else 0
  }

  ghost function MoneyIn(b: BlockIndex, i: nat, vin: seq<OutPoint>): int
    requires b.Linked()
  {
    if vin == [] then 0 else MoneyIn(b, i, vin[..|vin| - 1]) + Worth(b, i, vin[|vin| - 1])
  }

  lemma WorthIs(w: World, b: BlockIndex, i: nat, o: OutPoint)
    requires Ready(w, b, i)
    ensures OutValue(w, ConnectTxs(ReplayTo(b.pprev), b, i), o) == Worth(b, i, o)
    ensures forall g: nat, k: nat | Source(b, i, o.hash, g, k) && o.n < |TxAt(b, g, k).vout| :: Worth(b, i, o) == TxAt(b, g, k).vout[o.n].nValue
  {
    hide ConnectsTo, AcceptedTo, ReplayTo, ConnectTxs, BlockIndex.Path;
    var ix := ConnectTxs(ReplayTo(b.pprev), b, i);
    StepLocated(w, b, i);
    SlotIff(b, i, ix, o);
    if HasSlot(ix, o) {
      var g: nat, k: nat :| Source(b, i, o.hash, g, k) && o.n < |TxAt(b, g, k).vout|;
      assert OneSource(b, i, o.hash);
      FromSource(w, b, i, ix, o.hash, g, k);
    }
  }

  /** What is read for an entry is the transaction at its source. */
  lemma FromSource(w: World, b: BlockIndex, i: nat, ix: Index, h: Txid, g: nat, k: nat)
    requires b.Linked() && OnDiskTo(w, b) && Located(b, i, ix) && Source(b, i, h, g, k)
    ensures h in ix && w.readTx(h, ix[h].pos) == TxAt(b, g, k)
  {
    assert Seen(b, i, h);
    assert Entered(b, i, ix[h], h);
    ReadsBack(w, b, g, k);
  }

  lemma {:induction false} MoneyInIs(w: World, b: BlockIndex, i: nat, vin: seq<OutPoint>)
    requires Ready(w, b, i)
    ensures ValueIn(w, ConnectTxs(ReplayTo(b.pprev), b, i), vin) == MoneyIn(b, i, vin)
  {
    hide ConnectsTo, AcceptedTo, ReplayTo, ConnectTxs, OnDiskTo, Worth, OutValue;
    if vin != [] {
      MoneyInIs(w, b, i, vin[..|vin| - 1]);
      WorthIs(w, b, i, vin[|vin| - 1]);
    }
  }

  /** Signatures are looked at: not in blocks while the chain is below the last checkpoint. */
  predicate Verifies(w: World, m: Mode) {
    !m.fBlock || m.nBestHeight >= w.nCheckpointHeight
  }

  /** Input `j` spends a ripe output of an earlier transaction of the chain, which is signed for; the
      values up to it are in range. */
  ghost predicate InputGood(w: World, b: BlockIndex, i: nat, tx: Tx, m: Mode, j: nat)
    requires b.Linked() && j < |tx.vin|
  {
    && MoneyRange(MoneyIn(b, i, tx.vin[..j + 1]))
    && exists g: nat, k: nat :: Source(b, i, tx.vin[j].hash, g, k) && Ripe(w, b, tx, tx.vin[j], g, k) &&
                                (Verifies(w, m) ==> w.verifySignature(TxAt(b, g, k), tx, j, m.rules))
  }

  /** The transaction takes in no less than it pays out, and leaves the least fee unless it is of
      the first protocol; a coinstake need not. */
  ghost predicate LeavesFee(w: World, b: BlockIndex, i: nat, tx: Tx, m: Mode)
    requires b.Linked()
  {
    var nFee := MoneyIn(b, i, tx.vin) - ValueOf(tx.vout);
    0 <= nFee <= MAX_MONEY && (nFee >= MIN_TX_FEE || m.nBestHeight + 1 < w.nStartPosv2Block)
  }

  /** Everything ConnectInputs demands of transaction `tx` as number `i` of `b`, by the chain alone. */
  ghost predicate Lawful(w: World, b: BlockIndex, i: nat, tx: Tx, m: Mode)
    requires b.Linked() && b.pprev != null && i <= |b.block.vtx|
  {
    && (forall j: nat | j < |tx.vin| :: InputGood(w, b, i, tx, m, j))
    && (forall j: nat | j < |tx.vin| :: tx.vin[j] !in SpentBefore(b, i)) && Distinct(tx.vin)
    && (!tx.IsCoinStake() ==> LeavesFee(w, b, i, tx, m))
  }

  /** A transaction connects on a chain only if it is lawful; and if, as the blocks lie at different
      places. */
  lemma TxConnectsIff(w: World, b: BlockIndex, i: nat, tx: Tx, m: Mode)
    requires Ready(w, b, i) && !tx.IsCoinBase()
    ensures TxConnects(w, ConnectTxs(ReplayTo(b.pprev), b, i), tx, b, m) ==> Lawful(w, b, i, tx, m)
    ensures Apart(b) && Lawful(w, b, i, tx, m) ==> TxConnects(w, ConnectTxs(ReplayTo(b.pprev), b, i), tx, b, m)
  {
    hide ConnectsTo, AcceptedTo, OnDiskTo, ReplayTo, ConnectTxs, PrevoutOk, IsFree, InputGood, SpentBefore, MoneyIn, ValueIn, Apart, Distinct;
    var ix := ConnectTxs(ReplayTo(b.pprev), b, i);
    MoneyInIs(w, b, i, tx.vin);
    assert tx.vin[..|tx.vin|] == tx.vin;
    forall j: nat | j < |tx.vin|
      ensures InputTaken(w, ix, b, tx, m, j) ==> InputGood(w, b, i, tx, m, j) && tx.vin[j] !in SpentBefore(b, i)
      ensures Apart(b) && InputGood(w, b, i, tx, m, j) && tx.vin[j] !in SpentBefore(b, i) ==> InputTaken(w, ix, b, tx, m, j)
    {
      InputGoodIff(w, b, i, tx, m, j);
    }
    TakenAll(w, ix, b, tx, m);
  }

  /** The checks on one input. */
  ghost predicate InputTaken(w: World, ix: Index, b: BlockIndex, tx: Tx, m: Mode, j: nat)
    requires b.Linked() && j < |tx.vin|
  {
    && PrevoutOk(w, ix, tx, tx.vin[j], b) && IsFree(ix, tx.vin[j]) && MoneyRange(ValueIn(w, ix, tx.vin[..j + 1]))
    && (Verifies(w, m) ==> tx.vin[j].hash in ix && w.verifySignature(Prev(w, ix, tx.vin[j]), tx, j, m.rules))
  }

  lemma TakenAll(w: World, ix: Index, b: BlockIndex, tx: Tx, m: Mode)
    requires b.Linked() && !tx.IsCoinBase()
    ensures TxConnects(w, ix, tx, b, m) <==>
            && (forall j: nat | j < |tx.vin| :: InputTaken(w, ix, b, tx, m, j)) && Distinct(tx.vin)
            && FeeOk(w, ValueIn(w, ix, tx.vin), tx, m)
  {
    hide PrevoutOk, IsFree, Distinct, FeeOk, ValueIn;
    var n := |tx.vin|;
    assert tx.vin[..n] == tx.vin;
    if TxConnects(w, ix, tx, b, m) {
      forall j: nat | j < n ensures InputTaken(w, ix, b, tx, m, j) {
        assert PrevoutOk(w, ix, tx, tx.vin[j], b) && IsFree(ix, tx.vin[j]);
      }
    }
    if forall j: nat | j < n :: InputTaken(w, ix, b, tx, m, j) {
      forall j | 0 <= j < n
        ensures PrevoutOk(w, ix, tx, tx.vin[j], b) && MoneyRange(ValueIn(w, ix, tx.vin[..j + 1])) && IsFree(ix, tx.vin[j])
        ensures Verifies(w, m) ==> tx.vin[j].hash in ix && w.verifySignature(Prev(w, ix, tx.vin[j]), tx, j, m.rules)
      {
        assert InputTaken(w, ix, b, tx, m, j);
      }
    }
  }

  lemma InputGoodIff(w: World, b: BlockIndex, i: nat, tx: Tx, m: Mode, j: nat)
    requires Ready(w, b, i) && j < |tx.vin|
    ensures var ix := ConnectTxs(ReplayTo(b.pprev), b, i);
            && (InputTaken(w, ix, b, tx, m, j) ==> InputGood(w, b, i, tx, m, j) && tx.vin[j] !in SpentBefore(b, i))
            && (Apart(b) && InputGood(w, b, i, tx, m, j) && tx.vin[j] !in SpentBefore(b, i) ==> InputTaken(w, ix, b, tx, m, j))
  {
    hide ConnectsTo, AcceptedTo, OnDiskTo, ReplayTo, ConnectTxs, PrevoutOk, SpentBefore, Apart, BlockIndex.Path, Ripe, TxAt, MoneyIn, ValueIn;
    var ix, o := ConnectTxs(ReplayTo(b.pprev), b, i), tx.vin[j];
    StepLocated(w, b, i);
    FreeIff(w, b, i, o);
    MoneyInIs(w, b, i, tx.vin[..j + 1]);
    forall g: nat, k: nat | Source(b, i, o.hash, g, k)
      ensures PrevoutOk(w, ix, tx, o, b) ==> Ripe(w, b, tx, o, g, k)
      ensures Apart(b) && Ripe(w, b, tx, o, g, k) ==> PrevoutOk(w, ix, tx, o, b)
      ensures o.hash in ix && Prev(w, ix, o) == TxAt(b, g, k)
      ensures Ripe(w, b, tx, o, g, k) ==> Created(b, i, o)
    {
      RipeIsCreated(w, b, i, tx, o, g, k);
      PrevoutOkIff(w, b, i, tx, o, g, k);
      FromSource(w, b, i, ix, o.hash, g, k);
    }
  }

  lemma RipeIsCreated(w: World, b: BlockIndex, i: nat, tx: Tx, o: OutPoint, g: nat, k: nat)
    requires b.Linked() && Source(b, i, o.hash, g, k)
    ensures Ripe(w, b, tx, o, g, k) ==> Created(b, i, o)
  {
  }

  // ----- when a block connects

  /** Every transaction with inputs among the first `n` of the block is lawful. */
  ghost predicate LawfulTo(w: World, b: BlockIndex, n: nat, nBestHeight: int)
    requires b.Linked() && b.pprev != null && n <= |b.block.vtx|
  {
    forall i: nat | i < n && !b.block.vtx[i].IsCoinBase() :: Lawful(w, b, i, b.block.vtx[i], BlockMode(w, b, nBestHeight))
  }

  lemma NewHash(ix: Index, b: BlockIndex, i: nat)
    requires i < |b.block.vtx| && Fresh(ix, b) && forall k | 0 <= k < i :: b.block.vtx[k].hash != b.block.vtx[i].hash
    ensures b.block.vtx[i].hash !in ConnectTxs(ix, b, i)
  {
    ConnectTxsKeys(ix, b, i);
  }

  /** In a block of new transactions, the first `n` connect one after the other exactly when they are
      lawful. */
  lemma {:induction false} StepsIff(w: World, b: BlockIndex, n: nat, nBestHeight: int)
    requires Ready(w, b, 0) && Apart(b) && Fresh(ReplayTo(b.pprev), b) && n <= |b.block.vtx|
    requires forall i, j | 0 <= i < j < |b.block.vtx| :: b.block.vtx[i].hash != b.block.vtx[j].hash
    ensures TxStepsOk(w, ReplayTo(b.pprev), b, n, nBestHeight) <==> LawfulTo(w, b, n, nBestHeight)
    ensures TxStepsOk(w, ReplayTo(b.pprev), b, n, nBestHeight) ==> Ready(w, b, n)
  {
    hide ConnectsTo, AcceptedTo, OnDiskTo, ReplayTo, ConnectTxs, TxConnects, Lawful, Apart;
    if n > 0 {
      StepsIff(w, b, n - 1, nBestHeight);
      var ix, tx, m := ReplayTo(b.pprev), b.block.vtx[n - 1], BlockMode(w, b, nBestHeight);
      NewHash(ix, b, n - 1);
      if TxStepsOk(w, ix, b, n - 1, nBestHeight) {
        if !tx.IsCoinBase() {
          TxConnectsIff(w, b, n - 1, tx, m);
        }
        CoinbaseTaken(w, ix, b, n - 1, m);
        if TxStepOk(w, ix, b, n - 1, nBestHeight) {
          ConnectsFree(w, ConnectTxs(ix, b, n - 1), tx, b, m);
        }
      }
    }
  }

  lemma CoinbaseTaken(w: World, ix: Index, b: BlockIndex, k: nat, m: Mode)
    requires b.Linked() && k < |b.block.vtx|
    ensures b.block.vtx[k].IsCoinBase() ==> TxConnects(w, ConnectTxs(ix, b, k), b.block.vtx[k], b, m)
  {
  }

  // ----- the whole block

  /** The fees that the first `n` transactions leave. */
  ghost function FeesBefore(b: BlockIndex, n: nat): int
    requires b.Linked() && n <= |b.block.vtx|
  {
    if n == 0 then 0 else
      var tx := b.block.vtx[n - 1];
      FeesBefore(b, n - 1) + if tx.IsCoinBase() || tx.IsCoinStake() then 0 else MoneyIn(b, n - 1, tx.vin) - ValueOf(tx.vout)
  }

  /** The signature operations that the first `k` inputs add, by the outputs they spend. */
  ghost function SpentOps(w: World, b: BlockIndex, i: nat, tx: Tx, k: nat): nat
    requires b.Linked() && k <= |tx.vin|
  {
    if k == 0 then 0 else
      SpentOps(w, b, i, tx, k - 1) +
      if Created(b, i, tx.vin[k - 1]) then
        var g: nat, m: nat :| Source(b, i, tx.vin[k - 1].hash, g, m) && tx.vin[k - 1].n < |TxAt(b, g, m).vout|;
        w.p2shSigOps(tx, k - 1, TxAt(b, g, m).vout[tx.vin[k - 1].n])
      else 0
  }

  ghost function OpsBefore(w: World, b: BlockIndex, n: nat): nat
    requires b.Linked() && n <= |b.block.vtx|
  {
    if n == 0 then 0 else
      var tx := b.block.vtx[n - 1];
      OpsBefore(w, b, n - 1) + tx.nLegacySigOps + if tx.IsCoinBase() then 0 else SpentOps(w, b, n - 1, tx, |tx.vin|)
  }

  lemma {:induction false} SpentOpsAre(w: World, b: BlockIndex, i: nat, tx: Tx, k: nat)
    requires Ready(w, b, i) && k <= |tx.vin|
    ensures P2SHSigOps(w, ConnectTxs(ReplayTo(b.pprev), b, i), tx, k) == SpentOps(w, b, i, tx, k)
  {
    hide ConnectsTo, AcceptedTo, ReplayTo, ConnectTxs, BlockIndex.Path, OnDiskTo, StepClean;
    if k > 0 {
      SpentOpsAre(w, b, i, tx, k - 1);
      var ix, o := ConnectTxs(ReplayTo(b.pprev), b, i), tx.vin[k - 1];
      StepLocated(w, b, i);
      SlotIff(b, i, ix, o);
      if Created(b, i, o) {
        var g: nat, m: nat :| Source(b, i, o.hash, g, m) && o.n < |TxAt(b, g, m).vout| &&
                              SpentOps(w, b, i, tx, k) == SpentOps(w, b, i, tx, k - 1) + w.p2shSigOps(tx, k - 1, TxAt(b, g, m).vout[o.n]);
        FromSource(w, b, i, ix, o.hash, g, m);
      }
    }
  }

  /** The totals of the loop over the block, by the chain. */
  lemma {:induction false} TotalsAre(w: World, b: BlockIndex, n: nat)
    requires Ready(w, b, n)
    ensures var t := TotalsUpTo(w, ReplayTo(b.pprev), b, n); t.nFees == FeesBefore(b, n) && t.nSigOps == OpsBefore(w, b, n)
  {
    hide ConnectsTo, AcceptedTo, ReplayTo, ConnectTxs, OnDiskTo, StepClean, MoneyIn, SpentOps, ValueIn, P2SHSigOps;
    if n > 0 {
      TotalsAre(w, b, n - 1);
      var tx := b.block.vtx[n - 1];
      MoneyInIs(w, b, n - 1, tx.vin);
      SpentOpsAre(w, b, n - 1, tx, |tx.vin|);
    }
  }

  /** What the coinstake at index 1 takes, where there is no other. */
  lemma {:induction false} StakeIs(w: World, b: BlockIndex, n: nat)
    requires Ready(w, b, n) && n >= 2 && b.block.vtx[1].IsCoinStake() && !b.block.vtx[1].IsCoinBase()
    requires forall i | 2 <= i < |b.block.vtx| :: !b.block.vtx[i].IsCoinStake()
    ensures TotalsUpTo(w, ReplayTo(b.pprev), b, n).nStakeReward == ValueOf(b.block.vtx[1].vout) - MoneyIn(b, 1, b.block.vtx[1].vin)
  {
    hide ConnectsTo, AcceptedTo, ReplayTo, ConnectTxs, OnDiskTo, StepClean, MoneyIn, ValueIn, P2SHSigOps;
    if n == 2 {
      MoneyInIs(w, b, 1, b.block.vtx[1].vin);
    } else {
      StakeIs(w, b, n - 1);
    }
  }

  /** What a block may issue beyond the fees in it. */
  ghost predicate RewardLawful(b: BlockIndex)
    requires b.Linked() && b.pprev != null && b.block.vtx != []
  {
    var fees := FeesBefore(b, |b.block.vtx|);
    if b.block.IsProofOfStake()
    then ValueOf(b.block.vtx[1].vout) - MoneyIn(b, 1, b.block.vtx[1].vin) <= (if b.nHeight <= 899_790 then 15 * COIN else 10 * COIN) + fees
    else ValueOf(b.block.vtx[0].vout) <= (if b.nHeight == 1 then 15_000_000_000 * COIN else 0) + fees
  }

  /** A block of new transactions connects on a chain exactly when its own checks pass, each of its
      transactions is lawful, their operations are within the limit, and it issues no more than it
      may: all by the blocks of the chain alone. */
  lemma ConnectsIff(w: World, b: BlockIndex, nBestHeight: int)
    requires Ready(w, b, 0) && Apart(b) && Fresh(ReplayTo(b.pprev), b)
    ensures BlockConnects(w, ReplayTo(b.pprev), b, nBestHeight) <==>
            && CheckBlock(w, b.block) && LawfulTo(w, b, |b.block.vtx|, nBestHeight)
            && OpsBefore(w, b, |b.block.vtx|) <= 400_000 && RewardLawful(b)
  {
    hide ConnectsTo, AcceptedTo, ReplayTo, ConnectTxs, OnDiskTo, TxStepsOk, LawfulTo, TotalsUpTo, OpsBefore, FeesBefore, MoneyIn, StepClean, Apart;
    if CheckBlock(w, b.block) {
      var vtx := b.block.vtx;
      StepsIff(w, b, |vtx|, nBestHeight);
      if LawfulTo(w, b, |vtx|, nBestHeight) {
        TotalsAre(w, b, |vtx|);
        if b.block.IsProofOfStake() {
          StakeIs(w, b, |vtx|);
        }
      }
    }
  }

  /** Whatever index a block connects to, it loses no output: what was free and is not spent by the
      block is free afterwards. */
  lemma NoOutputLost(w: World, ix: Index, b: BlockIndex, nBestHeight: int, o: OutPoint)
    requires b.Linked() && BlockConnects(w, ix, b, nBestHeight) && IsFree(ix, o)
    ensures IsFree(ConnectAll(ix, b), o) <==> o !in OutPointsOf(b.block.vtx)
  {
    hide ConnectTxs, CheckTransaction, RewardOk, TotalsUpTo;
    var vtx := b.block.vtx;
    StillFree(w, ix, b, nBestHeight, o, |vtx|);
    assert vtx[..|vtx|] == vtx;
  }

  lemma {:induction false} StillFree(w: World, ix: Index, b: BlockIndex, nBestHeight: int, o: OutPoint, k: nat)
    requires b.Linked() && k <= |b.block.vtx| && TxStepsOk(w, ix, b, |b.block.vtx|, nBestHeight) && IsFree(ix, o)
    ensures o.hash in ConnectTxs(ix, b, k) && HasSlot(ConnectTxs(ix, b, k), o)
    ensures IsFree(ConnectTxs(ix, b, k), o) <==> o !in OutPointsOf(b.block.vtx[..k])
  {
    hide TxConnects, MarkAll, OutPointsOf;
    if k == 0 {
      OutPointsOfNone(b.block.vtx);
    } else {
      StillFree(w, ix, b, nBestHeight, o, k - 1);
      var tx, jx := b.block.vtx[k - 1], ConnectTxs(ix, b, k - 1);
      assert TxStepOk(w, ix, b, k - 1, nBestHeight);
      MarkAllSlots(jx, tx.vin, b.TxPos(k - 1));
      OutPointsStep([], b.block.vtx, k);
      var was, now := OutPointsOf(b.block.vtx[..k - 1]), OutPointsOf(b.block.vtx[..k]);
      assert now == was + if tx.IsCoinBase() then [] else tx.vin by {
        assert [] + now == now && [] + was == was;
      }
      assert tx.hash != o.hash;
    }
  }

  lemma OutPointsOfNone(vtx: seq<Tx>)
    ensures OutPointsOf(vtx[..0]) == []
  {
  }

  // ----- what holds on every chain

  lemma {:induction false} BelowConnects(w: World, tip: BlockIndex, h: nat)
    requires tip.Linked() && ConnectsTo(w, tip) && AcceptedTo(tip) && OnDiskTo(w, tip) && h <= tip.nHeight
    ensures var b := tip.Path()[h]; b.Linked() && b.nHeight == h && ConnectsTo(w, b) && AcceptedTo(b) && OnDiskTo(w, b)
    decreases tip.nHeight
  {
    hide ConnectsOnParent;
    if h < tip.nHeight {
      BelowConnects(w, tip.pprev, h);
    }
  }

  /** The index of a chain has an output as free exactly when a transaction of the chain has it and no
      transaction of the chain spends it. */
  lemma UnspentIff(w: World, tip: BlockIndex, o: OutPoint)
    requires tip.Linked() && tip.pprev != null && ConnectsTo(w, tip) && AcceptedTo(tip) && OnDiskTo(w, tip)
    ensures IsFree(ReplayTo(tip), o) <==>
            o !in SpentOutPoints(tip) &&
            exists g: nat, k: nat :: 0 < g <= tip.nHeight && k < |tip.Path()[g].block.vtx| && tip.Path()[g].block.vtx[k].hash == o.hash &&
                                     o.n < |tip.Path()[g].block.vtx[k].vout|
  {
    hide ConnectTxs, ConnectsTo, AcceptedTo, OnDiskTo, OutPointsOf;
    ReadyOnChain(w, tip);
    FreeIff(w, tip, |tip.block.vtx|, o);
    assert tip.block.vtx[..|tip.block.vtx|] == tip.block.vtx;
    if Created(tip, |tip.block.vtx|, o) {
      var g: nat, k: nat :| Source(tip, |tip.block.vtx|, o.hash, g, k) && o.n < |TxAt(tip, g, k).vout|;
      assert tip.Path()[g].block.vtx[k].hash == o.hash;
    }
    forall g: nat, k: nat | 0 < g <= tip.nHeight && k < |tip.Path()[g].block.vtx| && tip.Path()[g].block.vtx[k].hash == o.hash && o.n < |tip.Path()[g].block.vtx[k].vout|
      ensures Created(tip, |tip.block.vtx|, o)
    {
      assert Source(tip, |tip.block.vtx|, o.hash, g, k) && o.n < |TxAt(tip, g, k).vout|;
    }
  }

  /** On every chain that connects, a transaction in the block at height `h` spends an output of
      transaction `k` of the block at height `g` only if that one is earlier on the chain and has the
      output, is not later in time, and, if it is new money, is `nCoinbaseMaturity` blocks deep; and
      after the fork only if it is no marker. */
  lemma SpendsRipe(w: World, tip: BlockIndex, h: nat, i: nat, j: nat, g: nat, k: nat)
    requires tip.Linked() && ConnectsTo(w, tip) && AcceptedTo(tip) && OnDiskTo(w, tip)
    requires 0 < h <= tip.nHeight && i < |tip.Path()[h].block.vtx| && 0 < g <= tip.nHeight && k < |tip.Path()[g].block.vtx|
    requires var tx := tip.Path()[h].block.vtx[i];
             !tx.IsCoinBase() && j < |tx.vin| && tx.vin[j].hash == tip.Path()[g].block.vtx[k].hash
    ensures var tx, from := tip.Path()[h].block.vtx[i], tip.Path()[g].block.vtx[k];
            && (g < h || (g == h && k < i)) && tx.vin[j].n < |from.vout| && from.nTime <= tx.nTime
            && (from.IsCoinBase() || from.IsCoinStake() ==> h >= g + w.nCoinbaseMaturity)
            && (h > w.nStartPosvFork1Block ==> !from.vout[tx.vin[j].n].IsEmpty())
  {
    hide ReplayTo, ConnectTxs, AcceptedTo, OnDiskTo, Lawful;
    var b := tip.Path()[h];
    var tx := b.block.vtx[i];
    BelowConnects(w, tip, h);
    PathPrefix(tip, h);
    ReadyOnChain(w, b);
    var nBestHeight: int :| BlockConnects(w, ReplayTo(b.pprev), b, nBestHeight);
    assert TxStepOk(w, ReplayTo(b.pprev), b, i, nBestHeight);
    TxConnectsIff(w, b, i, tx, BlockMode(w, b, nBestHeight));
    var g', k' := InputSource(w, b, i, tx, BlockMode(w, b, nBestHeight), j);
    assert b.Path()[g'] == tip.Path()[g'];
    assert Source(tip, |tip.block.vtx|, tx.vin[j].hash, g, k);
    assert Source(tip, |tip.block.vtx|, tx.vin[j].hash, g', k');
    ChainLocated(w, tip);
    SameSource(tip, ReplayTo(tip), tx.vin[j].hash, g, k, g', k');
  }

  lemma InputSource(w: World, b: BlockIndex, i: nat, tx: Tx, m: Mode, j: nat) returns (g: nat, k: nat)
    requires b.Linked() && b.pprev != null && i <= |b.block.vtx| && Lawful(w, b, i, tx, m) && j < |tx.vin|
    ensures Source(b, i, tx.vin[j].hash, g, k) && Ripe(w, b, tx, tx.vin[j], g, k)
    ensures Verifies(w, m) ==> w.verifySignature(TxAt(b, g, k), tx, j, m.rules)
  {
    hide BlockIndex.Path;
    assert InputGood(w, b, i, tx, m, j);
    g, k :| Source(b, i, tx.vin[j].hash, g, k) && Ripe(w, b, tx, tx.vin[j], g, k) &&
            (Verifies(w, m) ==> w.verifySignature(TxAt(b, g, k), tx, j, m.rules));
  }

  lemma SameSource(b: BlockIndex, ix: Index, h: Txid, g: nat, k: nat, g': nat, k': nat)
    requires b.Linked() && Located(b, |b.block.vtx|, ix)
    requires Source(b, |b.block.vtx|, h, g, k) && Source(b, |b.block.vtx|, h, g', k')
    ensures g == g' && k == k'
  {
    assert Seen(b, |b.block.vtx|, h);
    assert OneSource(b, |b.block.vtx|, h);
  }
}
