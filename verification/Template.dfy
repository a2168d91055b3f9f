/** What a block template is to be: which pool transactions may go in, in which order, within
    which limits; and what follows for every template built so. */
module Template {
  import opened Transactions
  import opened SpentIndex
  import opened BlockTree
  import opened TxInputs

  /** What the template is built from: the chain's index, the memory pool, the limits the node is
      configured with, and the clock. */
  datatype Node = Node(
    w: World,
    db: Index,
    pool: map<Txid, Tx>,
    nBestHeight: int,
    isFinal: Tx -> bool,
    depth: TxIndex -> int,
    nBlockMaxSize: nat,
    nBlockMinSize: nat,
    nBlockPrioritySize: nat,
    nMinTxFee: real,
    nAdjustedTime: int,
    fProofOfStake: bool,
    nCoinbaseTime: int)

  function PoolMode(n: Node): Mode {
    Mode(false, Mandatory, n.nBestHeight)
  }

  /** The pool lists transactions under their hashes; what is read for a hash, from the pool or
      from the chain, is the transaction with that hash. */
  ghost predicate PoolOk(n: Node) {
    forall h | h in n.pool ::
      && n.pool[h].hash == h && n.pool[h].nSize > 0
      && n.w.readTx(h, MEMPOOL_POS) == n.pool[h]
      && (h in n.db ==> n.w.readTx(h, n.db[h].pos) == n.pool[h])
  }

  predicate OnChain(n: Node, o: OutPoint) {
    o.hash in n.db && o.n < |Prev(n.w, n.db, o).vout|
  }

  /** The output is one of another pool transaction. */
  predicate Waits(n: Node, o: OutPoint) {
    !OnChain(n, o) && o.hash in n.pool
  }

  predicate Missing(n: Node, o: OutPoint) {
    !OnChain(n, o) && o.hash !in n.pool
  }

  function ParentsOf(n: Node, vin: seq<OutPoint>): set<Txid> {
    set o | o in vin && Waits(n, o) :: o.hash
  }

  function Parents(n: Node, tx: Tx): set<Txid> {
    ParentsOf(n, tx.vin)
  }

  predicate Candidate(n: Node, tx: Tx) {
    !tx.IsCoinBase() && !tx.IsCoinStake() && n.isFinal(tx) && forall o | o in tx.vin :: !Missing(n, o)
  }

  /** What an output is worth: that of the chain, or else that of the pool. */
  function Worth(n: Node, o: OutPoint): int {
    if OnChain(n, o) then Prev(n.w, n.db, o).vout[o.n].nValue
    else if o.hash in n.pool && o.n < |n.pool[o.hash].vout| then n.pool[o.hash].vout[o.n].nValue
    else 0
  }

  function WorthOf(n: Node, vin: seq<OutPoint>): int {
    if vin == [] then 0 else WorthOf(n, vin[..|vin| - 1]) + Worth(n, vin[|vin| - 1])
  }

  /** The value of the outputs on the chain, each times its depth there. */
  function AgedWorth(n: Node, vin: seq<OutPoint>): real {
    if vin == [] then 0.0
    else
      var o := vin[|vin| - 1];
      AgedWorth(n, vin[..|vin| - 1]) + if OnChain(n, o) then (Worth(n, o) * n.depth(n.db[o.hash])) as real else 0.0
  }

  function Fee(n: Node, tx: Tx): int {
    WorthOf(n, tx.vin) - ValueOf(tx.vout)
  }

  function FeePerKb(n: Node, tx: Tx): real
    requires tx.nSize > 0
  {
    Fee(n, tx) as real / (tx.nSize as real / 1000.0)
  }

  // ----- the state that a prefix of the template leaves

  /** The chain's index after connecting the transactions in order. */
  function After(ix: Index, vtx: seq<Tx>): Index {
    if vtx == [] then ix else ConnectTx(After(ix, vtx[..|vtx| - 1]), vtx[|vtx| - 1], MEMPOOL_POS)
  }

  function BlockSize(vtx: seq<Tx>): nat {
    1000 + SizesUpTo(vtx, |vtx|)
  }

  function TxSigOps(n: Node, done: seq<Tx>, tx: Tx): nat {
    tx.nLegacySigOps + P2SHSigOps(n.w, After(n.db, done), tx, |tx.vin|)
  }

  function SigOps(n: Node, vtx: seq<Tx>): nat {
    if vtx == [] then 100 else var k := |vtx| - 1; SigOps(n, vtx[..k]) + TxSigOps(n, vtx[..k], vtx[k])
  }

  function Fees(n: Node, vtx: seq<Tx>): int {
    if vtx == [] then 0 else Fees(n, vtx[..|vtx| - 1]) + Fee(n, vtx[|vtx| - 1])
  }

  /** `tx` may follow `done`. */
  ghost predicate Fits(n: Node, at: BlockIndex, done: seq<Tx>, tx: Tx)
    requires at.Linked()
  {
    && BlockSize(done) + tx.nSize < n.nBlockMaxSize
    && SigOps(n, done) + TxSigOps(n, done, tx) < MAX_BLOCK_SIGOPS
    && tx.nTime <= n.nAdjustedTime && (n.fProofOfStake ==> tx.nTime <= n.nCoinbaseTime)
    && Fee(n, tx) >= MIN_TX_FEE
    && TxConnects(n.w, After(n.db, done), tx, at, PoolMode(n))
  }

  /** Transactions that pay too little per byte are left out once the block has its least size. */
  predicate TooCheap(n: Node, done: seq<Tx>, tx: Tx)
    requires tx.nSize > 0
  {
    FeePerKb(n, tx) < n.nMinTxFee && BlockSize(done) + tx.nSize >= n.nBlockMinSize
  }

  function Hashes(vtx: seq<Tx>): set<Txid> {
    set tx | tx in vtx :: tx.hash
  }

  predicate FromPool(n: Node, tx: Tx) {
    tx.hash in n.pool && n.pool[tx.hash] == tx && Candidate(n, tx)
  }

  /** Transaction `k` may stand where it does. */
  ghost predicate WellPlaced(n: Node, at: BlockIndex, vtx: seq<Tx>, k: nat)
    requires at.Linked() && k < |vtx|
  {
    && FromPool(n, vtx[k]) && vtx[k].hash !in Hashes(vtx[..k])
    && Parents(n, vtx[k]) <= Hashes(vtx[..k])
    && Fits(n, at, vtx[..k], vtx[k])
  }

  /** Every transaction is a candidate, comes once, after its parents, and fits where it is. */
  ghost predicate Assembled(n: Node, at: BlockIndex, vtx: seq<Tx>)
    requires at.Linked()
  {
    forall k | 0 <= k < |vtx| :: WellPlaced(n, at, vtx, k)
  }

  lemma HashesNext(vtx: seq<Tx>, tx: Tx)
    ensures Hashes(vtx + [tx]) == Hashes(vtx) + {tx.hash}
    ensures (vtx + [tx])[..|vtx|] == vtx
  {
    assert forall t :: t in vtx + [tx] <==> t in vtx || t == tx;
  }

  lemma AssembledNext(n: Node, at: BlockIndex, vtx: seq<Tx>, tx: Tx)
    requires at.Linked() && Assembled(n, at, vtx)
    requires FromPool(n, tx) && tx.hash !in Hashes(vtx) && Parents(n, tx) <= Hashes(vtx) && Fits(n, at, vtx, tx)
    ensures Assembled(n, at, vtx + [tx])
  {
    hide FromPool, Hashes, Parents, Fits;
    var wtx := vtx + [tx];
    forall k | 0 <= k < |wtx| ensures WellPlaced(n, at, wtx, k) {
      assert wtx[..k] == vtx[..k];
      if k < |vtx| {
        assert WellPlaced(n, at, vtx, k);
      } else {
        assert vtx[..k] == vtx;
      }
    }
  }

  lemma AssembledPrefix(n: Node, at: BlockIndex, vtx: seq<Tx>, m: nat)
    requires at.Linked() && Assembled(n, at, vtx) && m <= |vtx|
    ensures Assembled(n, at, vtx[..m])
  {
    hide FromPool, Hashes, Parents, Fits;
    forall k | 0 <= k < m ensures WellPlaced(n, at, vtx[..m], k) {
      assert WellPlaced(n, at, vtx, k);
      assert vtx[..m][..k] == vtx[..k];
    }
  }

  // ----- limits

  lemma WithinLimits(n: Node, at: BlockIndex, vtx: seq<Tx>)
    requires at.Linked() && Assembled(n, at, vtx) && vtx != []
    ensures BlockSize(vtx) < n.nBlockMaxSize && SigOps(n, vtx) < MAX_BLOCK_SIGOPS
  {
    var k := |vtx| - 1;
    assert WellPlaced(n, at, vtx, k);
    SizesOfPrefix(vtx, vtx[..k], k);
  }

  lemma {:induction false} SizesOfPrefix(a: seq<Tx>, b: seq<Tx>, k: nat)
    requires k <= |a| && k <= |b| && a[..k] == b[..k]
    ensures SizesUpTo(a, k) == SizesUpTo(b, k)
  {
    if k > 0 {
      assert a[k - 1] == a[..k][k - 1] == b[..k][k - 1];
      assert a[..k - 1] == a[..k][..k - 1];
      assert b[..k - 1] == b[..k][..k - 1];
      SizesOfPrefix(a, b, k - 1);
    }
  }

  // ----- reading the outputs of the template

  /** The transaction with this hash. */
  function TxOf(n: Node, h: Txid): Tx
    requires h in n.db || h in n.pool
  {
    if h in n.db then n.w.readTx(h, n.db[h].pos) else n.pool[h]
  }

  /** Every entry of the index is the chain's or that of a template transaction, and leads to
      the transaction with its hash. */
  ghost predicate Reads(n: Node, ix: Index) {
    forall h | h in ix ::
      && (h in n.db || h in n.pool)
      && n.w.readTx(h, ix[h].pos) == TxOf(n, h)
      && ((h in n.db && ix[h].pos == n.db[h].pos) || (h in n.pool && ix[h].pos == MEMPOOL_POS))
  }

  lemma ReadsNext(n: Node, ix: Index, tx: Tx)
    requires PoolOk(n) && Reads(n, ix) && FromPool(n, tx)
    ensures Reads(n, ConnectTx(ix, tx, MEMPOOL_POS))
  {
    MarkAllSlots(ix, tx.vin, MEMPOOL_POS);
  }

  lemma {:induction false} AfterReads(n: Node, at: BlockIndex, vtx: seq<Tx>)
    requires PoolOk(n) && at.Linked() && Assembled(n, at, vtx)
    ensures Reads(n, After(n.db, vtx))
  {
    hide PoolOk, Fits, Parents, Candidate;
    if vtx != [] {
      var k := |vtx| - 1;
      AssembledPrefix(n, at, vtx, k);
      AfterReads(n, at, vtx[..k]);
      assert WellPlaced(n, at, vtx, k);
      ReadsNext(n, After(n.db, vtx[..k]), vtx[k]);
    } else {
      assert Reads(n, n.db);
    }
  }

  /** The values the index gives are the worth of the outputs. */
  lemma {:induction false} ValueIsWorth(n: Node, ix: Index, vin: seq<OutPoint>)
    requires PoolOk(n) && Reads(n, ix) && forall i | 0 <= i < |vin| :: Fetchable(n.w, ix, vin[i])
    ensures ValueIn(n.w, ix, vin) == WorthOf(n, vin)
  {
    if vin != [] {
      var k := |vin| - 1;
      ValueIsWorth(n, ix, vin[..k]);
      assert Fetchable(n.w, ix, vin[k]);
    }
  }

  /** The sum of what the transactions of the template take in, each as the index then had it. */
  function Taken(n: Node, vtx: seq<Tx>): int {
    if vtx == [] then 0
    else var k := |vtx| - 1; Taken(n, vtx[..k]) + ValueIn(n.w, After(n.db, vtx[..k]), vtx[k].vin)
  }

  function Given(vtx: seq<Tx>): int {
    if vtx == [] then 0 else Given(vtx[..|vtx| - 1]) + ValueOf(vtx[|vtx| - 1].vout)
  }

  /** The fees are what goes in less what comes out. */
  lemma {:induction false} FeesBalance(n: Node, at: BlockIndex, vtx: seq<Tx>)
    requires PoolOk(n) && at.Linked() && Assembled(n, at, vtx)
    ensures Fees(n, vtx) == Taken(n, vtx) - Given(vtx)
  {
    if vtx != [] {
      var k := |vtx| - 1;
      AssembledPrefix(n, at, vtx, k);
      FeesBalance(n, at, vtx[..k]);
      assert WellPlaced(n, at, vtx, k);
      AfterReads(n, at, vtx[..k]);
      assert PrevoutsOk(n.w, After(n.db, vtx[..k]), vtx[k], |vtx[k].vin|, at);
      AllFetchable(n.w, After(n.db, vtx[..k]), vtx[k], at);
      ValueIsWorth(n, After(n.db, vtx[..k]), vtx[k].vin);
    }
  }

  lemma AllFetchable(w: World, ix: Index, tx: Tx, at: BlockIndex)
    requires at.Linked() && PrevoutsOk(w, ix, tx, |tx.vin|, at)
    ensures forall i | 0 <= i < |tx.vin| :: Fetchable(w, ix, tx.vin[i])
  {
    forall i | 0 <= i < |tx.vin| ensures Fetchable(w, ix, tx.vin[i]) {
      assert PrevoutOk(w, ix, tx, tx.vin[i], at);
    }
  }

  // ----- no output twice

  /** What a template transaction spends stays marked, unless its own source is added anew. */
  lemma {:induction false} StaysMarked(n: Node, vtx: seq<Tx>, i: nat, o: OutPoint)
    requires i < |vtx| && o in vtx[i].vin && FromPool(n, vtx[i]) && HasSlot(After(n.db, vtx[..i]), o)
    requires forall k | i <= k < |vtx| :: vtx[k].hash != o.hash
    ensures var ix := After(n.db, vtx); HasSlot(ix, o) && ix[o.hash].vSpent[o.n] != Null
  {
    var k := |vtx| - 1;
    var jx := After(n.db, vtx[..k]);
    if i < k {
      assert vtx[..k][..i] == vtx[..i];
      StaysMarked(n, vtx[..k], i, o);
    }
    if !vtx[k].IsCoinBase() {
      MarkAllSlots(jx, vtx[k].vin, MEMPOOL_POS);
    }
  }

  lemma {:induction false} KnownAfter(n: Node, vtx: seq<Tx>, h: Txid)
    ensures h in After(n.db, vtx) <==> h in n.db || h in Hashes(vtx)
  {
    if vtx != [] {
      var k := |vtx| - 1;
      KnownAfter(n, vtx[..k], h);
      assert vtx == vtx[..k] + [vtx[k]];
      HashesNext(vtx[..k], vtx[k]);
      if !vtx[k].IsCoinBase() {
        MarkAllSlots(After(n.db, vtx[..k]), vtx[k].vin, MEMPOOL_POS);
      }
    }
  }

  /** No output is spent twice in a template, unless its source is on the chain and comes again in
      the template. */
  lemma NoOutputTwice(n: Node, at: BlockIndex, vtx: seq<Tx>, i: nat, j: nat, o: OutPoint)
    requires at.Linked() && Assembled(n, at, vtx)
    requires i < j < |vtx|
    requires o.hash in n.db ==> forall k | i <= k < j :: vtx[k].hash != o.hash
    ensures !(o in vtx[i].vin && o in vtx[j].vin)
  {
    hide Fits, Parents, FromPool, After, Hashes, HasSlot;
    if o in vtx[i].vin && o in vtx[j].vin {
      assert WellPlaced(n, at, vtx, i) && WellPlaced(n, at, vtx, j);
      FreeInput(n, at, vtx[..i], vtx[i], o);
      FreeInput(n, at, vtx[..j], vtx[j], o);
      forall k | i <= k < j ensures vtx[..j][k].hash != o.hash {
        if o.hash !in n.db {
          SourceStays(n, at, vtx, i, k, o);
        }
      }
      assert vtx[..j][..i] == vtx[..i];
      StaysMarked(n, vtx[..j], i, o);
      assert false;
    }
  }

  /** The source of an output that is spent is not added again. */
  lemma SourceStays(n: Node, at: BlockIndex, vtx: seq<Tx>, i: nat, k: nat, o: OutPoint)
    requires at.Linked() && Assembled(n, at, vtx) && i <= k < |vtx| && o.hash !in n.db
    requires HasSlot(After(n.db, vtx[..i]), o)
    ensures vtx[k].hash != o.hash
  {
    hide Fits, Parents, FromPool, After, Hashes;
    KnownAfter(n, vtx[..i], o.hash);
    assert WellPlaced(n, at, vtx, k);
    if o.hash in Hashes(vtx[..i]) {
      InLonger(vtx, i, k, o.hash);
    }
  }

  lemma InLonger(vtx: seq<Tx>, i: nat, k: nat, h: Txid)
    requires i <= k <= |vtx| && h in Hashes(vtx[..i])
    ensures h in Hashes(vtx[..k])
  {
    var tx :| tx in vtx[..i] && tx.hash == h;
    assert tx in vtx[..k];
  }

  lemma FreeInput(n: Node, at: BlockIndex, done: seq<Tx>, tx: Tx, o: OutPoint)
    requires at.Linked() && Fits(n, at, done, tx) && FromPool(n, tx) && o in tx.vin
    ensures IsFree(After(n.db, done), o) && HasSlot(After(n.db, done), o)
  {
    ConnectsFree(n.w, After(n.db, done), tx, at, PoolMode(n));
    var i :| 0 <= i < |tx.vin| && tx.vin[i] == o;
    assert IsFree(After(n.db, done), tx.vin[i]);
  }
}
