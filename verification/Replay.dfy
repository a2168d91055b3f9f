/** Replaying a chain from its root, and what follows for every chain that connects: its
    transactions are new, and it spends no output twice. */
module Replay {
  import opened Transactions
  import opened SpentIndex
  import opened BlockTree
  import opened TxInputs
  import opened BlockConnect
  import opened BlockUndo

  /** The index after connecting every block from the root to `b`; the root itself is never
      connected. */
  ghost function ReplayTo(b: BlockIndex): Index
    requires b.Linked()
    decreases b.nHeight
  {
    if b.pprev == null then map[] else ConnectAll(ReplayTo(b.pprev), b)
  }

  /** Every block from the root to `b` was connectable on top of the ones below it. */
  ghost predicate ConnectsTo(w: World, b: BlockIndex)
    requires b.Linked()
    decreases b.nHeight
  {
    b.pprev != null ==> ConnectsTo(w, b.pprev) && ConnectsOnParent(w, b)
  }

  ghost predicate ConnectsOnParent(w: World, b: BlockIndex)
    requires b.Linked() && b.pprev != null
  {
    exists nBestHeight: int :: BlockConnects(w, ReplayTo(b.pprev), b, nBestHeight)
  }

  ghost function TxsIn(vtx: seq<Tx>, k: nat): set<Tx>
    requires k <= |vtx|
  {
    set i | 0 <= i < k :: vtx[i]
  }

  /** The transactions of the blocks above the root, down from `b`. */
  ghost function TxsTo(b: BlockIndex): set<Tx>
    requires b.Linked()
    decreases b.nHeight
  {
    if b.pprev == null then {} else TxsTo(b.pprev) + TxsIn(b.block.vtx, |b.block.vtx|)
  }

  /** What AcceptBlock and the hash function guarantee about the blocks down from `b`: a
      coinbase starts with the height of its block, and equal hashes mean equal transactions. */
  ghost predicate AcceptedTo(b: BlockIndex)
    requires b.Linked()
    decreases b.nHeight
  {
    b.pprev != null ==>
      && AcceptedTo(b.pprev)
      && b.block.vtx != [] && b.block.vtx[0].nCoinbaseHeight == b.nHeight
      && forall k, t | 0 <= k < |b.block.vtx| && t in TxsTo(b.pprev) && t.hash == b.block.vtx[k].hash :: t == b.block.vtx[k]
  }

  /** Every output that `t` spends is marked as spent. */
  ghost predicate Spends(ix: Index, t: Tx) {
    t.IsCoinBase() || forall i | 0 <= i < |t.vin| :: HasSlot(ix, t.vin[i]) && !IsFree(ix, t.vin[i])
  }

  ghost function Hashes(ts: set<Tx>): set<Txid> {
    set t | t in ts :: t.hash
  }

  /** The index describes the transactions `ts`: it has their entries and no other, and every
      output they spend is marked. */
  ghost predicate Describes(ix: Index, ts: set<Tx>) {
    && ix.Keys == Hashes(ts)
    && forall t | t in ts :: Spends(ix, t)
  }

  /** Connecting a transaction with a new hash keeps every mark and sets its own. */
  lemma MarksKept(ix: Index, tx: Tx, p: DiskTxPos, o: OutPoint)
    requires InputsFree(ix, tx) && tx.hash !in ix && p != Null
    requires HasSlot(ix, o) && (IsFree(ix, o) ==> !tx.IsCoinBase() && o in tx.vin)
    ensures HasSlot(ConnectTx(ix, tx, p), o) && !IsFree(ConnectTx(ix, tx, p), o)
  {
    MarkAllSlots(ix, tx.vin, p);
  }

  lemma SpendsStep(ix: Index, tx: Tx, p: DiskTxPos, t: Tx)
    requires InputsFree(ix, tx) && tx.hash !in ix && p != Null
    requires t == tx || Spends(ix, t)
    ensures Spends(ConnectTx(ix, tx, p), t)
  {
    if !t.IsCoinBase() {
      forall i | 0 <= i < |t.vin| ensures HasSlot(ConnectTx(ix, tx, p), t.vin[i]) && !IsFree(ConnectTx(ix, tx, p), t.vin[i]) {
        MarksKept(ix, tx, p, t.vin[i]);
      }
    }
  }

  lemma DescribesStep(ix: Index, ts: set<Tx>, tx: Tx, p: DiskTxPos)
    requires InputsFree(ix, tx) && tx.hash !in ix && p != Null
    requires Describes(ix, ts)
    ensures Describes(ConnectTx(ix, tx, p), ts + {tx})
  {
    forall t | t in ts + {tx} ensures Spends(ConnectTx(ix, tx, p), t) {
      SpendsStep(ix, tx, p, t);
    }
    MarkAllSlots(ix, tx.vin, p);
    assert Hashes(ts + {tx}) == Hashes(ts) + {tx.hash};
  }

  /** A transaction with inputs does not connect when its outputs are spent already. */
  lemma NoRespend(ix: Index, tx: Tx)
    requires !tx.IsCoinBase() && tx.vin != [] && Spends(ix, tx)
    ensures !InputsFree(ix, tx)
  {
    assert !IsFree(ix, tx.vin[0]);
  }

  /** When its turn comes, transaction `k` of `b` is new and its inputs are free. */
  ghost predicate StepClean(ix: Index, b: BlockIndex, k: nat)
    requires k < |b.block.vtx|
  {
    var jx := ConnectTxs(ix, b, k);
    b.block.vtx[k].hash !in jx && InputsFree(jx, b.block.vtx[k])
  }

  ghost predicate StepsFree(ix: Index, b: BlockIndex) {
    forall k | 0 <= k < |b.block.vtx| :: InputsFree(ConnectTxs(ix, b, k), b.block.vtx[k])
  }

  lemma ConnectsStepsFree(w: World, ix: Index, b: BlockIndex, nBestHeight: int)
    requires b.Linked() && BlockConnects(w, ix, b, nBestHeight)
    ensures StepsFree(ix, b)
  {
    forall k | 0 <= k < |b.block.vtx| ensures InputsFree(ConnectTxs(ix, b, k), b.block.vtx[k]) {
      assert TxStepOk(w, ix, b, k, nBestHeight);
      ConnectsFree(w, ConnectTxs(ix, b, k), b.block.vtx[k], b, BlockMode(w, b, nBestHeight));
    }
  }

  /** A transaction of `vtx` shares its hash with no other of them, and with one of `ts` only
      if it is that transaction and has inputs to spend. */
  predicate Novel(ts: set<Tx>, vtx: seq<Tx>) {
    && (forall k | 0 <= k < |vtx| :: vtx[k].vin != [])
    && (forall i, k | 0 <= i < k < |vtx| :: vtx[i].hash != vtx[k].hash)
    && (forall k, t | 0 <= k < |vtx| && t in ts && t.hash == vtx[k].hash :: t == vtx[k] && !t.IsCoinBase())
  }

  /** A coinbase of an accepted block is in no block below it. */
  lemma {:induction false} CoinbasesBelow(w: World, b: BlockIndex, t: Tx)
    requires b.Linked() && ConnectsTo(w, b) && AcceptedTo(b)
    requires t in TxsTo(b) && t.IsCoinBase()
    ensures t.nCoinbaseHeight <= b.nHeight
    decreases b.nHeight
  {
    if t in TxsTo(b.pprev) {
      CoinbasesBelow(w, b.pprev, t);
    }
  }

  lemma ChainIsNovel(w: World, b: BlockIndex, nBestHeight: int)
    requires b.Linked() && ConnectsTo(w, b) && AcceptedTo(b) && b.pprev != null
    requires BlockConnects(w, ReplayTo(b.pprev), b, nBestHeight)
    ensures Novel(TxsTo(b.pprev), b.block.vtx)
  {
    var vtx := b.block.vtx;
    forall k, t | 0 <= k < |vtx| && t in TxsTo(b.pprev) && t.hash == vtx[k].hash ensures t == vtx[k] && !t.IsCoinBase() {
      if t.IsCoinBase() {
        CoinbasesBelow(w, b.pprev, t);
      }
    }
    forall k | 0 <= k < |vtx| ensures vtx[k].vin != [] {
      assert CheckTransaction(vtx[k]);
    }
  }

  lemma StepIsNew(jx: Index, us: set<Tx>, tx: Tx)
    requires Describes(jx, us) && InputsFree(jx, tx) && tx.vin != []
    requires forall t | t in us && t.hash == tx.hash :: t == tx && !t.IsCoinBase()
    ensures tx.hash !in jx
  {
    if tx.hash in jx {
      var t :| t in us && t.hash == tx.hash;
      NoRespend(jx, t);
    }
  }

  lemma CleanStep(jx: Index, ts: set<Tx>, vtx: seq<Tx>, k: nat, p: DiskTxPos)
    requires k < |vtx| && p != Null
    requires Novel(ts, vtx)
    requires Describes(jx, ts + TxsIn(vtx, k))
    requires InputsFree(jx, vtx[k])
    ensures vtx[k].hash !in jx
    ensures Describes(ConnectTx(jx, vtx[k], p), ts + TxsIn(vtx, k + 1))
  {
    StepIsNew(jx, ts + TxsIn(vtx, k), vtx[k]);
    DescribesStep(jx, ts + TxsIn(vtx, k), vtx[k], p);
    assert ts + TxsIn(vtx, k) + {vtx[k]} == ts + TxsIn(vtx, k + 1);
  }

  /** The index after the first `k` transactions of a block describes them together with the
      transactions `ts` that it described before. */
  lemma {:induction false} CleanUpTo(ix: Index, ts: set<Tx>, b: BlockIndex, k: nat)
    requires k <= |b.block.vtx| && StepsFree(ix, b) && Novel(ts, b.block.vtx) && Describes(ix, ts)
    ensures Describes(ConnectTxs(ix, b, k), ts + TxsIn(b.block.vtx, k))
  {
    hide Describes, Novel, InputsFree, ConnectTx, TxsIn, StepsFree;
    if k == 0 {
      NoTxsIn(b.block.vtx);
      assert ts + {} == ts;
    } else {
      CleanUpTo(ix, ts, b, k - 1);
      StepIsFree(ix, b, k - 1);
      CleanStep(ConnectTxs(ix, b, k - 1), ts, b.block.vtx, k - 1, b.TxPos(k - 1));
    }
  }

  lemma StepIsFree(ix: Index, b: BlockIndex, k: nat)
    requires k < |b.block.vtx| && StepsFree(ix, b)
    ensures InputsFree(ConnectTxs(ix, b, k), b.block.vtx[k])
  {
    hide ConnectTxs, InputsFree;
  }

  lemma NoTxsIn(vtx: seq<Tx>)
    ensures TxsIn(vtx, 0) == {}
  {
  }

  lemma StepIsClean(ix: Index, ts: set<Tx>, b: BlockIndex, k: nat)
    requires k < |b.block.vtx| && StepsFree(ix, b) && Novel(ts, b.block.vtx) && Describes(ix, ts)
    ensures StepClean(ix, b, k)
  {
    CleanUpTo(ix, ts, b, k);
    assert InputsFree(ConnectTxs(ix, b, k), b.block.vtx[k]);
    CleanStep(ConnectTxs(ix, b, k), ts, b.block.vtx, k, b.TxPos(k));
  }

  /** The steps of a block that connects on a chain are clean. */
  lemma CleanOnChain(w: World, b: BlockIndex)
    requires b.Linked() && b.pprev != null && ConnectsTo(w, b) && AcceptedTo(b)
    requires Describes(ReplayTo(b.pprev), TxsTo(b.pprev))
    ensures forall k | 0 <= k < |b.block.vtx| :: StepClean(ReplayTo(b.pprev), b, k)
    ensures Describes(ReplayTo(b), TxsTo(b))
  {
    var nBestHeight: int :| BlockConnects(w, ReplayTo(b.pprev), b, nBestHeight);
    ChainIsNovel(w, b, nBestHeight);
    ConnectsStepsFree(w, ReplayTo(b.pprev), b, nBestHeight);
    forall k | 0 <= k < |b.block.vtx| ensures StepClean(ReplayTo(b.pprev), b, k) {
      StepIsClean(ReplayTo(b.pprev), TxsTo(b.pprev), b, k);
    }
    CleanUpTo(ReplayTo(b.pprev), TxsTo(b.pprev), b, |b.block.vtx|);
  }

  lemma CleanIsFresh(ix: Index, b: BlockIndex)
    requires forall k | 0 <= k < |b.block.vtx| :: StepClean(ix, b, k)
    ensures Fresh(ix, b)
  {
    forall k | 0 <= k < |b.block.vtx| ensures b.block.vtx[k].hash !in ix {
      assert StepClean(ix, b, k);
      ConnectTxsKeys(ix, b, k);
    }
  }

  /** On a chain that connects, no transaction has been seen before. */
  lemma {:induction false} ChainIsFresh(w: World, b: BlockIndex)
    requires b.Linked() && ConnectsTo(w, b) && AcceptedTo(b)
    ensures Describes(ReplayTo(b), TxsTo(b))
    ensures b.pprev != null ==> Fresh(ReplayTo(b.pprev), b)
    decreases b.nHeight
  {
    if b.pprev != null {
      ChainIsFresh(w, b.pprev);
      CleanOnChain(w, b);
      CleanIsFresh(ReplayTo(b.pprev), b);
    }
  }

  // ----- no output is spent twice

  ghost function OutPointsOf(vtx: seq<Tx>): seq<OutPoint> {
    if vtx == [] then [] else
      var tx := vtx[|vtx| - 1];
      OutPointsOf(vtx[..|vtx| - 1]) + if tx.IsCoinBase() then [] else tx.vin
  }

  /** All outputs spent on the chain down from `b`, in order. */
  ghost function SpentOutPoints(b: BlockIndex): seq<OutPoint>
    requires b.Linked()
    decreases b.nHeight
  {
    if b.pprev == null then [] else SpentOutPoints(b.pprev) + OutPointsOf(b.block.vtx)
  }

  ghost predicate Marked(ix: Index, os: seq<OutPoint>) {
    forall i | 0 <= i < |os| :: HasSlot(ix, os[i]) && !IsFree(ix, os[i])
  }

  lemma SpendStep(ix: Index, os: seq<OutPoint>, tx: Tx, p: DiskTxPos)
    requires InputsFree(ix, tx) && tx.hash !in ix && p != Null
    requires Marked(ix, os) && Distinct(os)
    ensures var os' := os + if tx.IsCoinBase() then [] else tx.vin;
            Marked(ConnectTx(ix, tx, p), os') && Distinct(os')
  {
    var os' := os + if tx.IsCoinBase() then [] else tx.vin;
    forall i | 0 <= i < |os'| ensures HasSlot(ConnectTx(ix, tx, p), os'[i]) && !IsFree(ConnectTx(ix, tx, p), os'[i]) {
      assert i >= |os| ==> os'[i] == tx.vin[i - |os|];
      MarksKept(ix, tx, p, os'[i]);
    }
  }

  lemma {:induction false} SpendsUpTo(ix: Index, os: seq<OutPoint>, b: BlockIndex, k: nat)
    requires k <= |b.block.vtx| && forall j | 0 <= j < k :: StepClean(ix, b, j)
    requires Marked(ix, os) && Distinct(os)
    ensures Marked(ConnectTxs(ix, b, k), os + OutPointsOf(b.block.vtx[..k])) && Distinct(os + OutPointsOf(b.block.vtx[..k]))
  {
    if k == 0 {
      assert os + [] == os;
    } else {
      SpendsUpTo(ix, os, b, k - 1);
      assert StepClean(ix, b, k - 1);
      SpendStep(ConnectTxs(ix, b, k - 1), os + OutPointsOf(b.block.vtx[..k - 1]), b.block.vtx[k - 1], b.TxPos(k - 1));
      OutPointsStep(os, b.block.vtx, k);
    }
  }

  lemma OutPointsStep(os: seq<OutPoint>, vtx: seq<Tx>, k: nat)
    requires 0 < k <= |vtx|
    ensures os + OutPointsOf(vtx[..k]) == os + OutPointsOf(vtx[..k - 1]) + if vtx[k - 1].IsCoinBase() then [] else vtx[k - 1].vin
  {
    assert vtx[..k][..k - 1] == vtx[..k - 1];
  }

  /** No output is spent twice on a chain that connects, and each one spent is marked. */
  lemma {:induction false} NoDoubleSpend(w: World, b: BlockIndex)
    requires b.Linked() && ConnectsTo(w, b) && AcceptedTo(b)
    ensures Distinct(SpentOutPoints(b))
    ensures Marked(ReplayTo(b), SpentOutPoints(b))
    decreases b.nHeight
  {
    if b.pprev != null {
      NoDoubleSpend(w, b.pprev);
      ChainIsFresh(w, b.pprev);
      CleanOnChain(w, b);
      SpendsUpTo(ReplayTo(b.pprev), SpentOutPoints(b.pprev), b, |b.block.vtx|);
      assert b.block.vtx[..|b.block.vtx|] == b.block.vtx;
    }
  }
}
