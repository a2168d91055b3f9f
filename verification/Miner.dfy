/** Assembling a block template from the memory pool: CreateNewBlock. */
module Miner {
  import opened Transactions
  import opened SpentIndex
  import opened BlockTree
  import opened TxInputs
  import opened BlockConnect
  import opened Template
  import opened Storage

  /** An entry of the priority queue. */
  datatype TxPriority = TxPriority(dPriority: real, dFeePerKb: real, nFee: int, tx: Tx)

  /** A transaction that waits for others of the pool. */
  datatype COrphan = COrphan(tx: Tx, setDependsOn: set<Txid>, dPriority: real, dFeePerKb: real, nFee: int)

  predicate Less(byFee: bool, a: TxPriority, b: TxPriority) {
    if byFee then a.dFeePerKb < b.dFeePerKb || (a.dFeePerKb == b.dFeePerKb && a.dPriority < b.dPriority)
    else a.dPriority < b.dPriority || (a.dPriority == b.dPriority && a.dFeePerKb < b.dFeePerKb)
  }

  /** Where the entry is that comes off the queue next: none is ahead of it. */
  method Front(vecPriority: seq<TxPriority>, byFee: bool) returns (i: nat)
    requires vecPriority != []
    ensures i < |vecPriority| && forall j | 0 <= j < |vecPriority| :: !Less(byFee, vecPriority[i], vecPriority[j])
  {
    i := 0;
    for k := 1 to |vecPriority|
      invariant i < k && forall j | 0 <= j < k :: !Less(byFee, vecPriority[i], vecPriority[j])
    {
      if Less(byFee, vecPriority[i], vecPriority[k]) {
        i := k;
      }
    }
  }

  /** No input is found missing after another was found waiting: the source would then leave a
      pointer to a dropped orphan behind. */
  ghost predicate MissingFirst(n: Node, tx: Tx) {
    forall i, j | 0 <= i < j < |tx.vin| && Waits(n, tx.vin[i]) :: !Missing(n, tx.vin[j])
  }

  type Dependers = map<Txid, seq<Txid>>

  function Waiting(dep: Dependers, h: Txid): seq<Txid> {
    if h in dep then dep[h] else []
  }

  /** `dep` with `h` noted as waiting for `parents`. */
  ghost predicate Noted(dep: Dependers, h: Txid, parents: set<Txid>, dep': Dependers) {
    forall p, x :: x in Waiting(dep', p) <==> x in Waiting(dep, p) || (p in parents && x == h)
  }

  method NoteWaiting(dep: Dependers, p: Txid, h: Txid) returns (dep': Dependers)
    ensures Noted(dep, h, {p}, dep')
  {
    dep' := dep[p := Waiting(dep, p) + [h]];
  }

  lemma NotedOneMore(dep: Dependers, h: Txid, ps: set<Txid>, dep': Dependers, p: Txid, dep'': Dependers)
    requires Noted(dep, h, ps, dep') && Noted(dep', h, {p}, dep'')
    ensures Noted(dep, h, ps + {p}, dep'')
  {
  }

  lemma ParentsNext(n: Node, vin: seq<OutPoint>, i: nat)
    requires i < |vin|
    ensures ParentsOf(n, vin[..i + 1]) == ParentsOf(n, vin[..i]) + if Waits(n, vin[i]) then {vin[i].hash} else {}
  {
    assert forall o :: o in vin[..i + 1] <==> o in vin[..i] || o == vin[i];
  }

  lemma NothingNoted(n: Node, dep: Dependers, h: Txid)
    ensures Noted(dep, h, {}, dep) && ParentsOf(n, []) == {}
  {
  }

  lemma NothingWaits(n: Node, tx: Tx, i: nat)
    requires MissingFirst(n, tx) && i < |tx.vin| && Missing(n, tx.vin[i])
    ensures forall k | 0 <= k < i :: !Waits(n, tx.vin[k])
  {
  }

  /** Look at the inputs of a pool transaction: is one missing, which others does it wait for,
      what are its inputs worth together? */
  method ExamineInputs(n: Node, tx: Tx, mapDependers: Dependers)
    returns (fMissingInputs: bool, setDependsOn: set<Txid>, mapDependers': Dependers, nTotalIn: int, dPriority: real)
    requires MissingFirst(n, tx)
    ensures fMissingInputs <==> exists o :: o in tx.vin && Missing(n, o)
    ensures fMissingInputs ==> mapDependers' == mapDependers
    ensures !fMissingInputs ==> setDependsOn == Parents(n, tx) && Noted(mapDependers, tx.hash, Parents(n, tx), mapDependers')
    ensures !fMissingInputs ==> nTotalIn == WorthOf(n, tx.vin) && dPriority == AgedWorth(n, tx.vin)
  {
    hide Noted, MissingFirst, ParentsOf;
    fMissingInputs, setDependsOn, mapDependers', nTotalIn, dPriority := false, {}, mapDependers, 0, 0.0;
    NothingNoted(n, mapDependers, tx.hash);
    for i := 0 to |tx.vin|
      invariant !fMissingInputs && forall o | o in tx.vin[..i] :: !Missing(n, o)
      invariant setDependsOn == ParentsOf(n, tx.vin[..i]) && Noted(mapDependers, tx.hash, setDependsOn, mapDependers')
      invariant (forall k | 0 <= k < i :: !Waits(n, tx.vin[k])) ==> mapDependers' == mapDependers
      invariant nTotalIn == WorthOf(n, tx.vin[..i]) && dPriority == AgedWorth(n, tx.vin[..i])
    {
      var txin := tx.vin[i];
      assert tx.vin[..i + 1][..i] == tx.vin[..i];
      ParentsNext(n, tx.vin, i);
      if !OnChain(n, txin) {
        if txin.hash !in n.pool {
          assert Missing(n, txin);
          NothingWaits(n, tx, i);
          fMissingInputs := true;
          return;
        }
        ghost var before := mapDependers';
        mapDependers' := NoteWaiting(mapDependers', txin.hash, tx.hash);
        NotedOneMore(mapDependers, tx.hash, setDependsOn, before, txin.hash, mapDependers');
        setDependsOn := setDependsOn + {txin.hash};
        var vout := n.pool[txin.hash].vout;
        nTotalIn := nTotalIn + if txin.n < |vout| then vout[txin.n].nValue else 0;
      } else {
        var nValueIn := Prev(n.w, n.db, txin).vout[txin.n].nValue;
        nTotalIn := nTotalIn + nValueIn;
        dPriority := dPriority + (nValueIn * n.depth(n.db[txin.hash])) as real;
      }
    }
    assert tx.vin[..|tx.vin|] == tx.vin;
  }

  // ----- the schedule

  /** The priority queue, the orphans by their hashes, and who waits for whom. */
  datatype Pending = Pending(vecPriority: seq<TxPriority>, orphans: map<Txid, COrphan>, mapDependers: Dependers)

  function Queued(vecPriority: seq<TxPriority>): set<Txid> {
    set q | q in vecPriority :: q.tx.hash
  }

  /** The orphans that still wait. */
  function Blocked(orphans: map<Txid, COrphan>): set<Txid> {
    set h | h in orphans && orphans[h].setDependsOn != {}
  }

  /** The value of the inputs on the chain, each times its age, by size. */
  function Priority(n: Node, tx: Tx): real {
    if tx.nSize == 0 then 0.0 else AgedWorth(n, tx.vin) / tx.nSize as real
  }

  ghost predicate EntryOk(n: Node, q: TxPriority) {
    && FromPool(n, q.tx) && q.tx.nSize > 0 && q.dPriority == Priority(n, q.tx)
    && q.dFeePerKb == FeePerKb(n, q.tx) && (q.nFee == Fee(n, q.tx) || q.nFee == 0)
  }

  /** What is queued has nothing left to wait for, and is queued once. */
  ghost predicate QueueOk(n: Node, vecPriority: seq<TxPriority>, ready: set<Txid>) {
    && (forall q | q in vecPriority :: EntryOk(n, q) && Parents(n, q.tx) <= ready)
    && forall i, j | 0 <= i < j < |vecPriority| :: vecPriority[i].tx.hash != vecPriority[j].tx.hash
  }

  ghost predicate OrphanOk(n: Node, h: Txid, orphan: COrphan) {
    orphan.tx.hash == h && EntryOk(n, TxPriority(orphan.dPriority, orphan.dFeePerKb, orphan.nFee, orphan.tx))
  }

  /** An orphan waits for those of its parents that are not in the block; those in `late` may
      not know yet that `last` is. */
  ghost predicate OrphansOk(n: Node, orphans: map<Txid, COrphan>, ready: set<Txid>, late: seq<Txid>, last: Txid) {
    forall h | h in orphans ::
      && OrphanOk(n, h, orphans[h])
      && (orphans[h].setDependsOn == Parents(n, orphans[h].tx) - ready ||
          (h in late && orphans[h].setDependsOn == Parents(n, orphans[h].tx) - (ready - {last})))
  }

  ghost predicate DependersOk(n: Node, orphans: map<Txid, COrphan>, dep: Dependers) {
    && (forall h, p | h in orphans && p in Parents(n, orphans[h].tx) :: h in Waiting(dep, p))
    && forall p, h | h in Waiting(dep, p) :: h in orphans
  }

  /** Each candidate seen was tried, is queued, or is blocked, and nothing is two of these. */
  ghost predicate Parted(n: Node, seen: set<Txid>, tried: set<Txid>, queued: set<Txid>, blocked: set<Txid>) {
    && tried !! queued !! blocked
    && forall h | h in seen && h in n.pool && Candidate(n, n.pool[h]) :: h in tried + queued + blocked
  }

  /** A transaction that was turned down had no place, or paid too little, in the block as it
      then was. */
  ghost predicate Refused(n: Node, at: BlockIndex, done: seq<Tx>, tx: Tx)
    requires at.Linked()
  {
    !Fits(n, at, done, tx) || (tx.nSize > 0 && TooCheap(n, done, tx))
  }

  ghost predicate PendingOk(n: Node, p: Pending, ready: set<Txid>, late: seq<Txid>, last: Txid) {
    && QueueOk(n, p.vecPriority, ready)
    && OrphansOk(n, p.orphans, ready, late, last)
    && DependersOk(n, p.orphans, p.mapDependers)
  }

  // ----- collecting

  lemma QueuedNext(vecPriority: seq<TxPriority>, q: TxPriority)
    ensures Queued(vecPriority + [q]) == Queued(vecPriority) + {q.tx.hash}
  {
    assert forall t :: t in vecPriority + [q] <==> t in vecPriority || t == q;
  }

  lemma QueueNext(n: Node, vecPriority: seq<TxPriority>, ready: set<Txid>, q: TxPriority)
    requires QueueOk(n, vecPriority, ready) && EntryOk(n, q) && Parents(n, q.tx) <= ready && q.tx.hash !in Queued(vecPriority)
    ensures QueueOk(n, vecPriority + [q], ready)
  {
    assert forall t :: t in vecPriority + [q] <==> t in vecPriority || t == q;
  }

  /** A new orphan, noted with those it waits for. */
  lemma OrphanNext(n: Node, p: Pending, h: Txid, orphan: COrphan, dep': Dependers)
    requires PendingOk(n, p, {}, [], 0) && h !in p.orphans && OrphanOk(n, h, orphan) && orphan.setDependsOn == Parents(n, orphan.tx)
    requires Noted(p.mapDependers, h, Parents(n, orphan.tx), dep')
    ensures PendingOk(n, Pending(p.vecPriority, p.orphans[h := orphan], dep'), {}, [], 0)
  {
  }

  lemma BlockedNext(orphans: map<Txid, COrphan>, h: Txid, orphan: COrphan)
    ensures Blocked(orphans[h := orphan]) == Blocked(orphans) - {h} + if orphan.setDependsOn != {} then {h} else {}
  {
  }

  /** The pass over the pool that fills the queue and the orphans: one transaction. */
  method CollectOne(n: Node, h: Txid, p: Pending) returns (p': Pending)
    requires PoolOk(n) && h in n.pool && MissingFirst(n, n.pool[h])
    requires PendingOk(n, p, {}, [], 0) && h !in Queued(p.vecPriority) && h !in p.orphans
    ensures PendingOk(n, p', {}, [], 0) && p'.orphans.Keys <= p.orphans.Keys + {h}
    ensures Queued(p'.vecPriority) == Queued(p.vecPriority) + if Candidate(n, n.pool[h]) && Parents(n, n.pool[h]) == {} then {h} else {}
    ensures Blocked(p'.orphans) == Blocked(p.orphans) + if Candidate(n, n.pool[h]) && Parents(n, n.pool[h]) != {} then {h} else {}
  {
    hide DependersOk, OrphansOk, QueueOk, Blocked, Queued, Noted, Parents;
    p' := p;
    var tx := n.pool[h];
    if tx.IsCoinBase() || tx.IsCoinStake() || !n.isFinal(tx) {
      return;
    }
    var fMissingInputs, setDependsOn, mapDependers, nTotalIn, dPriority := ExamineInputs(n, tx, p.mapDependers);
    if fMissingInputs {
      return;
    }
    dPriority := dPriority / tx.nSize as real;
    var nFee := nTotalIn - ValueOf(tx.vout);
    var dFeePerKb := nFee as real / (tx.nSize as real / 1000.0);
    if setDependsOn != {} {
      var orphan := COrphan(tx, setDependsOn, dPriority, dFeePerKb, 0);
      OrphanNext(n, p, h, orphan, mapDependers);
      BlockedNext(p.orphans, h, orphan);
      p' := Pending(p.vecPriority, p.orphans[h := orphan], mapDependers);
      NotBlocked(p.orphans, h);
    } else {
      var q := TxPriority(dPriority, dFeePerKb, nFee, tx);
      QueueNext(n, p.vecPriority, {}, q);
      QueuedNext(p.vecPriority, q);
      SameDependers(n, p.orphans, p.mapDependers, h, mapDependers);
      p' := p.(vecPriority := p.vecPriority + [q], mapDependers := mapDependers);
    }
  }

  lemma NotBlocked(orphans: map<Txid, COrphan>, h: Txid)
    ensures h !in orphans ==> h !in Blocked(orphans)
  {
  }

  lemma SameDependers(n: Node, orphans: map<Txid, COrphan>, dep: Dependers, h: Txid, dep': Dependers)
    requires DependersOk(n, orphans, dep) && Noted(dep, h, {}, dep')
    ensures DependersOk(n, orphans, dep')
  {
  }

  /** The pass over the pool. */
  method Collect(n: Node) returns (p: Pending)
    requires PoolOk(n) && forall h | h in n.pool :: MissingFirst(n, n.pool[h])
    ensures PendingOk(n, p, {}, [], 0) && Parted(n, n.pool.Keys, {}, Queued(p.vecPriority), Blocked(p.orphans))
  {
    hide PendingOk, PoolOk, Candidate, MissingFirst, Parted, Parents, Queued, Blocked;
    p := Pending([], map[], map[]);
    NothingPending(n);
    var rest := n.pool.Keys;
    assert n.pool.Keys - rest == {};
    while rest != {}
      invariant rest <= n.pool.Keys && PendingOk(n, p, {}, [], 0)
      invariant Queued(p.vecPriority) !! rest && p.orphans.Keys !! rest
      invariant Parted(n, n.pool.Keys - rest, {}, Queued(p.vecPriority), Blocked(p.orphans))
      decreases |rest|
    {
      var h :| h in rest;
      NotBlocked(p.orphans, h);
      ghost var was := p;
      p := CollectOne(n, h, p);
      PartedSeen(n, n.pool.Keys - rest, h, Queued(was.vecPriority), Blocked(was.orphans), Queued(p.vecPriority), Blocked(p.orphans));
      assert n.pool.Keys - rest + {h} == n.pool.Keys - (rest - {h});
      rest := rest - {h};
    }
    assert n.pool.Keys - rest == n.pool.Keys;
  }

  lemma PartedSeen(n: Node, seen: set<Txid>, h: Txid, queued: set<Txid>, blocked: set<Txid>, queued': set<Txid>, blocked': set<Txid>)
    requires Parted(n, seen, {}, queued, blocked) && h in n.pool && h !in queued && h !in blocked
    requires queued' == queued + if Candidate(n, n.pool[h]) && Parents(n, n.pool[h]) == {} then {h} else {}
    requires blocked' == blocked + if Candidate(n, n.pool[h]) && Parents(n, n.pool[h]) != {} then {h} else {}
    ensures Parted(n, seen + {h}, {}, queued', blocked')
  {
    hide Candidate, Parents;
  }

  lemma NothingPending(n: Node)
    ensures PendingOk(n, Pending([], map[], map[]), {}, [], 0)
    ensures Parted(n, {}, {}, Queued([]), Blocked(map[])) && Queued([]) == {}
  {
  }

  // ----- choosing

  lemma Dequeued(vecPriority: seq<TxPriority>, i: nat, n: Node, ready: set<Txid>)
    requires i < |vecPriority| && QueueOk(n, vecPriority, ready)
    ensures var rest := vecPriority[..i] + vecPriority[i + 1..]; var h := vecPriority[i].tx.hash;
            QueueOk(n, rest, ready) && h in Queued(vecPriority) && Queued(rest) == Queued(vecPriority) - {h}
    ensures EntryOk(n, vecPriority[i]) && Parents(n, vecPriority[i].tx) <= ready
  {
    hide EntryOk, Parents;
    var rest, h := vecPriority[..i] + vecPriority[i + 1..], vecPriority[i].tx.hash;
    assert forall q :: q in rest ==> q in vecPriority;
    assert vecPriority[i] in vecPriority;
    forall x | x in Queued(vecPriority) - {h} ensures x in Queued(rest) {
      var q :| q in vecPriority && q.tx.hash == x;
      var j :| 0 <= j < |vecPriority| && vecPriority[j] == q;
      assert q == if j < i then rest[j] else rest[j - 1];
    }
    forall x | x in Queued(rest) ensures x in Queued(vecPriority) && x != h {
      var j :| 0 <= j < |rest| && rest[j].tx.hash == x;
      assert rest[j] == if j < i then vecPriority[j] else vecPriority[j + 1];
    }
  }

  /** The transaction passes the first checks: size, operations without those of its inputs, time. */
  predicate Considered(n: Node, done: seq<Tx>, tx: Tx) {
    && BlockSize(done) + tx.nSize < n.nBlockMaxSize && SigOps(n, done) + tx.nLegacySigOps < MAX_BLOCK_SIGOPS
    && tx.nTime <= n.nAdjustedTime && (n.fProofOfStake ==> tx.nTime <= n.nCoinbaseTime)
  }

  /** With this transaction the part of the block that is for high priorities is full, or there are
      none left. */
  predicate RunsOut(n: Node, done: seq<Tx>, tx: Tx) {
    Considered(n, done, tx) && (BlockSize(done) + tx.nSize >= n.nBlockPrioritySize || Priority(n, tx) < (COIN * 144 / 250) as real)
  }

  /** A transaction is taken in if it fits and, when fees count, does not pay too little per byte. */
  ghost predicate TakesIn(n: Node, at: BlockIndex, done: seq<Tx>, tx: Tx, byFee: bool)
    requires at.Linked()
  {
    Fits(n, at, done, tx) && !(byFee && tx.nSize > 0 && TooCheap(n, done, tx))
  }

  /** Try to add a transaction to the block. */
  method TryTransaction(n: Node, device: Device, at: BlockIndex, q: TxPriority, ghost done: seq<Tx>, mapTestPool: Index,
                        nBlockSize: nat, nBlockSigOps: nat, fSortedByFee: bool)
    returns (ok: bool, fSortedByFee': bool, mapTestPool': Index, nTxSigOps: nat, nFee: int)
    requires PoolOk(n) && at.Linked() && Assembled(n, at, done) && EntryOk(n, q)
    requires n.db + mapTestPool == After(n.db, done) && nBlockSize == BlockSize(done) && nBlockSigOps == SigOps(n, done)
    modifies device
    ensures device.nAccesses >= old(device.nAccesses)
    ensures ok ==> Fits(n, at, done, q.tx) && nTxSigOps == TxSigOps(n, done, q.tx) && nFee == Fee(n, q.tx)
    ensures ok ==> n.db + mapTestPool' == ConnectTx(After(n.db, done), q.tx, MEMPOOL_POS)
    ensures !ok ==> mapTestPool' == mapTestPool
    ensures ok <==> TakesIn(n, at, done, q.tx, fSortedByFee) && device.Worked(old(device.nAccesses), device.nAccesses)
    ensures fSortedByFee' <==> fSortedByFee || RunsOut(n, done, q.tx)
  {
    hide PoolOk, Assembled, After, BlockSize, SigOps, Candidate, TxConnects, Fetchable, P2SHSigOps, AgedWorth, Fee;
    var tx := q.tx;
    ok, fSortedByFee', mapTestPool', nTxSigOps, nFee := false, fSortedByFee, mapTestPool, tx.nLegacySigOps, q.nFee;
    if nBlockSize + tx.nSize >= n.nBlockMaxSize {
      return;
    }
    if nBlockSigOps + nTxSigOps >= MAX_BLOCK_SIGOPS {
      return;
    }
    if tx.nTime > n.nAdjustedTime || (n.fProofOfStake && tx.nTime > n.nCoinbaseTime) {
      return;
    }
    if fSortedByFee && q.dFeePerKb < n.nMinTxFee && nBlockSize + tx.nSize >= n.nBlockMinSize {
      return;
    }
    if !fSortedByFee && (nBlockSize + tx.nSize >= n.nBlockPrioritySize || q.dPriority < (COIN * 144 / 250) as real) {
      fSortedByFee' := true;
    }
    ok, mapTestPool', nTxSigOps, nFee := ConnectToTemplate(n, device, at, q, done, mapTestPool, nBlockSigOps);
  }

  /** The expensive part: fetch the inputs, check the fee and the signature operations, and spend
      the inputs in a copy of the pending changes. */
  method ConnectToTemplate(n: Node, device: Device, at: BlockIndex, q: TxPriority, ghost done: seq<Tx>, mapTestPool: Index, nBlockSigOps: nat)
    returns (ok: bool, mapTestPool': Index, nTxSigOps: nat, nFee: int)
    requires PoolOk(n) && at.Linked() && Assembled(n, at, done) && EntryOk(n, q)
    requires n.db + mapTestPool == After(n.db, done) && nBlockSigOps == SigOps(n, done)
    modifies device
    ensures device.nAccesses >= old(device.nAccesses)
    ensures ok <==> && nBlockSigOps + TxSigOps(n, done, q.tx) < MAX_BLOCK_SIGOPS && Fee(n, q.tx) >= MIN_TX_FEE
                    && TxConnects(n.w, After(n.db, done), q.tx, at, PoolMode(n))
                    && device.Worked(old(device.nAccesses), device.nAccesses)
    ensures ok ==> nTxSigOps == TxSigOps(n, done, q.tx) && nFee == Fee(n, q.tx)
    ensures ok ==> n.db + mapTestPool' == ConnectTx(After(n.db, done), q.tx, MEMPOOL_POS)
    ensures !ok ==> mapTestPool' == mapTestPool
  {
    hide PoolOk, Assembled, After, SigOps, Fetchable, TxConnects, Reads, WorthOf;
    var tx := q.tx;
    mapTestPool', nTxSigOps, nFee := mapTestPool, tx.nLegacySigOps, q.nFee;
    ghost var ix := n.db + mapTestPool;
    var mapInputs, fInvalid;
    ok, mapInputs, fInvalid := FetchInputs(n.w, device, tx, n.db, mapTestPool);
    if !ok {
      if device.Worked(old(device.nAccesses), device.nAccesses) {
        NotFetchable(n.w, ix, tx, at, PoolMode(n));
      }
      return;
    }
    AfterReads(n, at, done);
    ValueIsWorth(n, ix, tx.vin);
    if nFee == 0 {
      var nValueIn := GetValueIn(n.w, ix, tx, mapInputs);
      nFee := nValueIn - ValueOf(tx.vout);
    }
    if nFee < MIN_TX_FEE {
      ok := false;
      return;
    }
    var nP2SHSigOps := GetP2SHSigOpCount(n.w, ix, tx, mapInputs);
    nTxSigOps := nTxSigOps + nP2SHSigOps;
    if nBlockSigOps + nTxSigOps >= MAX_BLOCK_SIGOPS {
      ok := false;
      return;
    }
    var mapTestPoolTmp;
    ok, mapTestPoolTmp := ConnectInputs(n.w, n.db, tx, mapInputs, mapTestPool, MEMPOOL_POS, at, PoolMode(n));
    if ok {
      MergeUpdate(n.db, mapTestPoolTmp, tx.hash, NewEntry(tx, MEMPOOL_POS));
      mapTestPool' := mapTestPoolTmp[tx.hash := NewEntry(tx, MEMPOOL_POS)];
    }
  }

  /** A transaction has gone into the block: those waiting for it may not know yet. */
  lemma ReadyGrows(n: Node, p: Pending, ready: set<Txid>, tx: Tx)
    requires PendingOk(n, p, ready, [], 0) && tx.hash !in ready
    ensures PendingOk(n, p, ready + {tx.hash}, Waiting(p.mapDependers, tx.hash), tx.hash)
  {
    hide OrphanOk, EntryOk, Parents;
    var h := tx.hash;
    assert (ready + {h}) - {h} == ready;
    forall x | x in p.orphans && x !in Waiting(p.mapDependers, h)
      ensures Parents(n, p.orphans[x].tx) - (ready + {h}) == Parents(n, p.orphans[x].tx) - ready
    {
    }
  }

  /** All that waited for the last transaction know of it. */
  lemma AllTold(n: Node, p: Pending, ready: set<Txid>, last: Txid)
    requires PendingOk(n, p, ready, [], last)
    ensures PendingOk(n, p, ready, [], 0)
  {
  }

  lemma UnblockedReady(n: Node, p: Pending, ready: set<Txid>, late: seq<Txid>, last: Txid)
    requires PendingOk(n, p, ready, late, last) && late != [] && late[0] in p.orphans && last in ready
    ensures var h := late[0]; var orphan := p.orphans[h].(setDependsOn := p.orphans[h].setDependsOn - {last});
            && orphan.setDependsOn == Parents(n, orphan.tx) - ready
            && OrphansOk(n, p.orphans[h := orphan], ready, late[1..], last)
            && DependersOk(n, p.orphans[h := orphan], p.mapDependers)
  {
    hide EntryOk, Parents;
    assert forall x :: x in late <==> x == late[0] || x in late[1..];
  }

  /** Tell one orphan of the transaction `last` that it waited for; if that was all, queue it. */
  method Tell(n: Node, p: Pending, ghost ready: set<Txid>, ghost late: seq<Txid>, last: Txid, h: Txid) returns (p': Pending)
    requires PendingOk(n, p, ready, late, last) && late != [] && late[0] == h && h in p.orphans && last in ready
    requires Queued(p.vecPriority) !! Blocked(p.orphans)
    ensures PendingOk(n, p', ready, late[1..], last) && p'.orphans.Keys == p.orphans.Keys && p'.mapDependers == p.mapDependers
    ensures Queued(p'.vecPriority) !! Blocked(p'.orphans)
    ensures Queued(p'.vecPriority) + Blocked(p'.orphans) == Queued(p.vecPriority) + Blocked(p.orphans)
    ensures |p'.vecPriority| + |Blocked(p'.orphans)| == |p.vecPriority| + |Blocked(p.orphans)|
  {
    hide DependersOk, OrphansOk, QueueOk, Queued, Parents, EntryOk;
    p' := p;
    var orphan := p.orphans[h];
    UnblockedReady(n, p, ready, late, last);
    if orphan.setDependsOn != {} {
      orphan := orphan.(setDependsOn := orphan.setDependsOn - {last});
      BlockedNext(p.orphans, h, orphan);
      p' := p'.(orphans := p'.orphans[h := orphan]);
      if orphan.setDependsOn == {} {
        var q := TxPriority(orphan.dPriority, orphan.dFeePerKb, orphan.nFee, orphan.tx);
        OrphanEntry(n, p, ready, late, last, h);
        NoneLeft(Parents(n, q.tx), ready);
        QueueNext(n, p.vecPriority, ready, q);
        QueuedNext(p.vecPriority, q);
        p' := p'.(vecPriority := p'.vecPriority + [q]);
      }
    } else {
      assert orphan.setDependsOn - {last} == orphan.setDependsOn;
      assert p.orphans[h := orphan] == p.orphans;
    }
  }

  lemma NoneLeft(a: set<Txid>, b: set<Txid>)
    requires a - b == {}
    ensures a <= b
  {
    forall x | x in a ensures x in b {
      assert x !in a - b;
    }
  }

  lemma OrphanEntry(n: Node, p: Pending, ready: set<Txid>, late: seq<Txid>, last: Txid, h: Txid)
    requires PendingOk(n, p, ready, late, last) && h in p.orphans
    ensures var o := p.orphans[h]; o.tx.hash == h && EntryOk(n, TxPriority(o.dPriority, o.dFeePerKb, o.nFee, o.tx))
  {
    hide EntryOk, Parents;
    assert OrphanOk(n, h, p.orphans[h]);
  }

  /** Tell everyone who waited for the transaction that went in last. */
  method TellDependers(n: Node, p: Pending, ghost ready: set<Txid>, last: Txid) returns (p': Pending)
    requires PendingOk(n, p, ready, Waiting(p.mapDependers, last), last) && last in ready
    requires Queued(p.vecPriority) !! Blocked(p.orphans)
    ensures PendingOk(n, p', ready, [], 0) && Queued(p'.vecPriority) !! Blocked(p'.orphans)
    ensures Queued(p'.vecPriority) + Blocked(p'.orphans) == Queued(p.vecPriority) + Blocked(p.orphans)
    ensures |p'.vecPriority| + |Blocked(p'.orphans)| == |p.vecPriority| + |Blocked(p.orphans)|
  {
    hide PendingOk, Queued, Blocked;
    p' := p;
    var told := Waiting(p.mapDependers, last);
    DependersKnown(n, p, ready, told, last);
    for k := 0 to |told|
      invariant PendingOk(n, p', ready, told[k..], last) && p'.orphans.Keys == p.orphans.Keys
      invariant Queued(p'.vecPriority) !! Blocked(p'.orphans)
      invariant Queued(p'.vecPriority) + Blocked(p'.orphans) == Queued(p.vecPriority) + Blocked(p.orphans)
      invariant |p'.vecPriority| + |Blocked(p'.orphans)| == |p.vecPriority| + |Blocked(p.orphans)|
    {
      assert told[k..][1..] == told[k + 1..];
      p' := Tell(n, p', ready, told[k..], last, told[k]);
    }
    AllTold(n, p', ready, last);
  }

  lemma DependersKnown(n: Node, p: Pending, ready: set<Txid>, late: seq<Txid>, last: Txid)
    requires PendingOk(n, p, ready, late, last)
    ensures forall h | h in Waiting(p.mapDependers, last) :: h in p.orphans
  {
  }

  lemma BlockGrows(n: Node, vtx: seq<Tx>, tx: Tx)
    ensures BlockSize(vtx + [tx]) == BlockSize(vtx) + tx.nSize
    ensures SigOps(n, vtx + [tx]) == SigOps(n, vtx) + TxSigOps(n, vtx, tx)
    ensures Fees(n, vtx + [tx]) == Fees(n, vtx) + Fee(n, tx)
    ensures After(n.db, vtx + [tx]) == ConnectTx(After(n.db, vtx), tx, MEMPOOL_POS)
  {
    hide TxSigOps, Fee, ConnectTx;
    HashesNext(vtx, tx);
    SizesOfPrefix(vtx + [tx], vtx, |vtx|);
  }

  /** The block so far, the changes it makes to the index, and its totals. */
  ghost predicate Built(n: Node, at: BlockIndex, vtx: seq<Tx>, mapTestPool: Index, nBlockSize: nat, nBlockSigOps: nat, nFees: int)
    requires at.Linked()
  {
    && Assembled(n, at, vtx) && n.db + mapTestPool == After(n.db, vtx)
    && nBlockSize == BlockSize(vtx) && nBlockSigOps == SigOps(n, vtx) && nFees == Fees(n, vtx)
  }

  lemma BuiltNext(n: Node, at: BlockIndex, vtx: seq<Tx>, mapTestPool: Index, nBlockSize: nat, nBlockSigOps: nat, nFees: int, tx: Tx, mapTestPool': Index)
    requires at.Linked() && Built(n, at, vtx, mapTestPool, nBlockSize, nBlockSigOps, nFees)
    requires FromPool(n, tx) && tx.hash !in Hashes(vtx) && Parents(n, tx) <= Hashes(vtx) && Fits(n, at, vtx, tx)
    requires n.db + mapTestPool' == ConnectTx(After(n.db, vtx), tx, MEMPOOL_POS)
    ensures Built(n, at, vtx + [tx], mapTestPool', nBlockSize + tx.nSize, nBlockSigOps + TxSigOps(n, vtx, tx), nFees + Fee(n, tx))
  {
    hide FromPool, Hashes, Parents, Fits, ConnectTx, After, SigOps, Fees;
    AssembledNext(n, at, vtx, tx);
    BlockGrows(n, vtx, tx);
  }

  /** Why a candidate of the pool is not in the block. */
  ghost predicate LeftOut(n: Node, at: BlockIndex, vtx: seq<Tx>, tx: Tx)
    requires at.Linked()
  {
    || !(Parents(n, tx) <= Hashes(vtx))
    || exists k: nat :: k <= |vtx| && Refused(n, at, vtx[..k], tx)
  }

  // ----- the order of the attempts

  /** A transaction that came off the queue, and whether it was taken. */
  datatype Attempt = Attempt(tx: Tx, taken: bool)

  /** The transactions taken, in order. */
  function Taken(log: seq<Attempt>): seq<Tx> {
    if log == [] then [] else
      var k := |log| - 1;
      Taken(log[..k]) + if log[k].taken then [log[k].tx] else []
  }

  function Tried(log: seq<Attempt>): set<Txid> {
    set a | a in log :: a.tx.hash
  }

  /** Whether fees count first after these attempts. */
  predicate ByFee(n: Node, log: seq<Attempt>) {
    if log == [] then n.nBlockPrioritySize <= 0 else
      var k := |log| - 1;
      ByFee(n, log[..k]) || RunsOut(n, Taken(log[..k]), log[k].tx)
  }

  /** `b` is not ahead of `a`: by fee per kilobyte and then priority, or the other way round. */
  predicate NotBehind(n: Node, byFee: bool, a: Tx, b: Tx)
    requires a.nSize > 0 && b.nSize > 0
  {
    if byFee then FeePerKb(n, b) < FeePerKb(n, a) || (FeePerKb(n, b) == FeePerKb(n, a) && Priority(n, b) <= Priority(n, a))
    else Priority(n, b) < Priority(n, a) || (Priority(n, b) == Priority(n, a) && FeePerKb(n, b) <= FeePerKb(n, a))
  }

  /** A candidate that was not tried yet, and all of whose parents in the pool are in the block. */
  ghost predicate Open(n: Node, log: seq<Attempt>, tx: Tx) {
    FromPool(n, tx) && tx.nSize > 0 && tx.hash !in Tried(log) && Parents(n, tx) <= Hashes(Taken(log))
  }

  /** After the attempts of `log`, `a` is the next: it is open, none that is open is ahead of it, and
      it is taken exactly if it can be, as far as the disk works. */
  ghost predicate AttemptOk(n: Node, at: BlockIndex, log: seq<Attempt>, a: Attempt, worked: bool)
    requires at.Linked()
  {
    && Open(n, log, a.tx)
    && (forall c: Tx | Open(n, log, c) :: NotBehind(n, ByFee(n, log), a.tx, c))
    && (a.taken ==> TakesIn(n, at, Taken(log), a.tx, ByFee(n, log)))
    && (worked && TakesIn(n, at, Taken(log), a.tx, ByFee(n, log)) ==> a.taken)
  }

  ghost predicate Schedule(n: Node, at: BlockIndex, log: seq<Attempt>, worked: bool)
    requires at.Linked()
  {
    forall s | 0 <= s < |log| :: AttemptOk(n, at, log[..s], log[s], worked)
  }

  lemma LogNext(n: Node, at: BlockIndex, log: seq<Attempt>, a: Attempt, was: bool, worked: bool)
    requires at.Linked() && Schedule(n, at, log, was) && (worked ==> was) && AttemptOk(n, at, log, a, worked)
    ensures Schedule(n, at, log + [a], worked) && (log + [a])[..|log|] == log && Tried(log + [a]) == Tried(log) + {a.tx.hash}
  {
    hide Open, TakesIn, ByFee, NotBehind;
    var more := log + [a];
    assert more[..|log|] == log;
    assert forall x :: x in more <==> x in log || x == a;
    forall s | 0 <= s < |more| ensures AttemptOk(n, at, more[..s], more[s], worked) {
      if s < |log| {
        assert more[..s] == log[..s];
        assert AttemptOk(n, at, log[..s], log[s], was);
      }
    }
  }

  /** What is queued, blocked and tried are all candidates of the pool. */
  ghost predicate Pend(n: Node, p: Pending, log: seq<Attempt>) {
    && PendingOk(n, p, Hashes(Taken(log)), [], 0) && Hashes(Taken(log)) <= Tried(log)
    && Parted(n, n.pool.Keys, Tried(log), Queued(p.vecPriority), Blocked(p.orphans))
  }

  /** Whatever is open is queued, so what comes off the queue is not behind it. */
  lemma Foremost(n: Node, p: Pending, log: seq<Attempt>, byFee: bool, q: TxPriority)
    requires PoolOk(n) && Pend(n, p, log) && q in p.vecPriority && forall r | r in p.vecPriority :: !Less(byFee, q, r)
    ensures Open(n, log, q.tx) && forall c: Tx | Open(n, log, c) :: NotBehind(n, byFee, q.tx, c)
  {
    hide PoolOk, Candidate, Parents, Hashes, Tried, Taken, OrphanOk, FeePerKb, Priority;
    assert EntryOk(n, q) && q.tx.hash in Queued(p.vecPriority);
    forall c: Tx | Open(n, log, c) ensures NotBehind(n, byFee, q.tx, c) {
      assert c.hash in n.pool && n.pool[c.hash] == c;
      if c.hash in Blocked(p.orphans) {
        assert OrphanOk(n, c.hash, p.orphans[c.hash]);
        BlockedIsOrphan(n, p, log, c);
      }
      assert c.hash in Queued(p.vecPriority);
      var r :| r in p.vecPriority && r.tx.hash == c.hash;
      assert EntryOk(n, r) && !Less(byFee, q, r);
    }
  }

  lemma BlockedIsOrphan(n: Node, p: Pending, log: seq<Attempt>, c: Tx)
    requires Pend(n, p, log) && c.hash in Blocked(p.orphans) && FromPool(n, c)
    ensures !(Parents(n, c) <= Hashes(Taken(log)))
  {
    hide Candidate, Parents, Hashes, Taken, FeePerKb, Priority;
    assert OrphanOk(n, c.hash, p.orphans[c.hash]);
  }

  /** Nothing is open at the end. */
  lemma NothingOpen(n: Node, p: Pending, log: seq<Attempt>)
    requires Pend(n, p, log) && p.vecPriority == []
    ensures forall c: Tx :: !Open(n, log, c)
  {
    hide Candidate, Parents, Hashes, Tried, Taken;
    forall c: Tx | FromPool(n, c) && c.hash !in Tried(log) ensures !(Parents(n, c) <= Hashes(Taken(log))) {
      assert n.pool[c.hash] == c && c.hash in Blocked(p.orphans);
      BlockedIsOrphan(n, p, log, c);
    }
  }

  lemma {:induction false} TakenPrefix(log: seq<Attempt>, s: nat)
    requires s <= |log|
    ensures |Taken(log[..s])| <= |Taken(log)| && Taken(log[..s]) == Taken(log)[..|Taken(log[..s])|]
  {
    if s < |log| {
      var k := |log| - 1;
      TakenPrefix(log[..k], s);
      assert log[..k][..s] == log[..s];
    } else {
      assert log[..s] == log;
    }
  }

  /** A transaction that was tried and is not in the block was turned down. */
  lemma TurnedDown(n: Node, at: BlockIndex, log: seq<Attempt>, s: nat)
    requires at.Linked() && Schedule(n, at, log, true) && s < |log|
    ensures if log[s].taken then log[s].tx in Taken(log) else exists k: nat :: k <= |Taken(log)| && Refused(n, at, Taken(log)[..k], log[s].tx)
  {
    hide Open, NotBehind, Fits, TooCheap, ByFee, Taken;
    assert AttemptOk(n, at, log[..s], log[s], true);
    if log[s].taken {
      TakenIn(log, s);
    } else {
      TakenPrefix(log, s);
      assert Refused(n, at, Taken(log)[..|Taken(log[..s])|], log[s].tx);
    }
  }

  lemma TriedFromPool(n: Node, at: BlockIndex, log: seq<Attempt>, s: nat, worked: bool)
    requires at.Linked() && Schedule(n, at, log, worked) && s < |log|
    ensures log[s].tx.hash in n.pool && n.pool[log[s].tx.hash] == log[s].tx
  {
    hide NotBehind, TakesIn, ByFee, Taken, Tried, Parents, Hashes;
    assert AttemptOk(n, at, log[..s], log[s], worked);
    assert Open(n, log[..s], log[s].tx);
  }

  /** Each candidate that is not in the block waits, or was turned down. */
  lemma AllAccounted(n: Node, at: BlockIndex, log: seq<Attempt>)
    requires PoolOk(n) && at.Linked() && Schedule(n, at, log, true) && forall c: Tx :: !Open(n, log, c)
    ensures forall h | h in n.pool && Candidate(n, n.pool[h]) :: h in Hashes(Taken(log)) || LeftOut(n, at, Taken(log), n.pool[h])
  {
    hide Candidate, Parents, Fits, Refused, Schedule, Taken;
    forall h | h in n.pool && Candidate(n, n.pool[h]) && h !in Hashes(Taken(log)) ensures LeftOut(n, at, Taken(log), n.pool[h]) {
      assert !Open(n, log, n.pool[h]);
      if h in Tried(log) {
        var a :| a in log && a.tx.hash == h;
        var s :| 0 <= s < |log| && log[s] == a;
        TurnedDown(n, at, log, s);
        TriedFromPool(n, at, log, s, true);
      }
    }
  }

  lemma {:induction false} TakenIn(log: seq<Attempt>, s: nat)
    requires s < |log| && log[s].taken
    ensures |Taken(log[..s])| < |Taken(log)| && Taken(log)[|Taken(log[..s])|] == log[s].tx
  {
    assert log[..s + 1][..s] == log[..s];
    TakenPrefix(log, s + 1);
  }

  /** The attempt at which transaction `i` of the block was taken. */
  lemma {:induction false} TakenAt(log: seq<Attempt>, i: nat) returns (s: nat)
    requires i < |Taken(log)|
    ensures s < |log| && log[s].taken && log[s].tx == Taken(log)[i] && Taken(log[..s]) == Taken(log)[..i]
  {
    var k := |log| - 1;
    if i < |Taken(log[..k])| {
      s := TakenAt(log[..k], i);
      assert log[..k][..s] == log[..s];
    } else {
      s := k;
      assert Taken(log)[..i] == Taken(log[..k]);
    }
  }

  lemma TakenGrows(log: seq<Attempt>, t: nat, s: nat)
    requires t <= s <= |log|
    ensures |Taken(log[..t])| <= |Taken(log[..s])|
  {
    TakenPrefix(log[..s], t);
    assert log[..s][..t] == log[..t];
  }

  /** What could have been taken in an earlier place is not ahead of what was, in the order that
      counted there. */
  lemma InOrder(n: Node, at: BlockIndex, log: seq<Attempt>, worked: bool, i: nat, j: nat) returns (s: nat)
    requires at.Linked() && Schedule(n, at, log, worked) && i < j < |Taken(log)| && Parents(n, Taken(log)[j]) <= Hashes(Taken(log)[..i])
    ensures s < |log| && log[s].tx == Taken(log)[i] && Taken(log[..s]) == Taken(log)[..i]
    ensures Taken(log)[i].nSize > 0 && Taken(log)[j].nSize > 0 && NotBehind(n, ByFee(n, log[..s]), Taken(log)[i], Taken(log)[j])
  {
    hide Taken, NotBehind, ByFee, TakesIn, Parents, Hashes, FromPool;
    s := TakenAt(log, i);
    var t := TakenAt(log, j);
    TakenPrefix(log, s);
    TakenPrefix(log, t);
    if t <= s {
      TakenGrows(log, t, s);
    }
    assert AttemptOk(n, at, log[..s], log[s], worked) && AttemptOk(n, at, log[..t], log[t], worked);
    forall a | a in log[..s] ensures a in log[..t] {
      var r :| 0 <= r < s && log[r] == a;
      assert log[..t][r] == a;
    }
    assert Open(n, log[..s], log[t].tx);
  }

  lemma {:induction false} FeesFirst(n: Node, log: seq<Attempt>)
    requires n.nBlockPrioritySize <= 0
    ensures ByFee(n, log)
  {
    hide RunsOut;
    if log != [] {
      FeesFirst(n, log[..|log| - 1]);
    }
  }

  /** Without a part for high priorities, the block goes by fee per kilobyte, and by priority where
      these are equal: no transaction that could stand before another has more. */
  ghost predicate GoesByFee(n: Node, vtx: seq<Tx>) {
    forall i, j | 0 <= i < j < |vtx| && Parents(n, vtx[j]) <= Hashes(vtx[..i]) ::
      && vtx[i].nSize > 0 && vtx[j].nSize > 0 && FeePerKb(n, vtx[j]) <= FeePerKb(n, vtx[i])
      && (FeePerKb(n, vtx[j]) == FeePerKb(n, vtx[i]) ==> Priority(n, vtx[j]) <= Priority(n, vtx[i]))
  }

  lemma AllByFee(n: Node, at: BlockIndex, log: seq<Attempt>, worked: bool)
    requires at.Linked() && Schedule(n, at, log, worked) && n.nBlockPrioritySize <= 0
    ensures GoesByFee(n, Taken(log))
  {
    hide Schedule, Parents, Hashes, Taken, ByFee, FeePerKb, Priority;
    var vtx := Taken(log);
    forall i, j | 0 <= i < j < |vtx| && Parents(n, vtx[j]) <= Hashes(vtx[..i])
      ensures vtx[i].nSize > 0 && vtx[j].nSize > 0 && NotBehind(n, true, vtx[i], vtx[j])
    {
      var s := InOrder(n, at, log, worked, i, j);
      FeesFirst(n, log[..s]);
    }
  }

  /** The order changes at most once, from priorities to fees: before attempt `c`, right after one
      with which the part for high priorities runs out; `c` is past the end if it never does. */
  lemma {:induction false} OrderChanges(n: Node, log: seq<Attempt>) returns (c: nat)
    ensures forall s | 0 <= s <= |log| :: ByFee(n, log[..s]) <==> c <= s
    ensures c == 0 <==> n.nBlockPrioritySize <= 0
    ensures c <= |log| + 1 && (0 < c <= |log| ==> RunsOut(n, Taken(log[..c - 1]), log[c - 1].tx))
    ensures forall s | 0 <= s < |log| && s + 1 < c :: !RunsOut(n, Taken(log[..s]), log[s].tx)
  {
    hide RunsOut, Taken, ByFee;
    if log == [] {
      c := if n.nBlockPrioritySize <= 0 then 0 else 1;
      ByFeeFirst(n);
      assert log[..0] == [];
    } else {
      var k := |log| - 1;
      ghost var before := log[..k];
      c := OrderChanges(n, before);
      ByFeeNext(n, log);
      assert log[..|log|] == log && before[..k] == before;
      forall s | 0 <= s <= k ensures before[..s] == log[..s] {
      }
      if c == k + 1 && !RunsOut(n, Taken(before), log[k].tx) {
        c := k + 2;
      }
    }
  }

  lemma ByFeeFirst(n: Node)
    ensures ByFee(n, []) <==> n.nBlockPrioritySize <= 0
  {
  }

  lemma ByFeeNext(n: Node, log: seq<Attempt>)
    requires log != []
    ensures var k := |log| - 1; ByFee(n, log) <==> ByFee(n, log[..k]) || RunsOut(n, Taken(log[..k]), log[k].tx)
  {
    hide RunsOut, Taken;
  }

  lemma AttemptNext(n: Node, at: BlockIndex, log: seq<Attempt>, a: Attempt, was: bool, worked: bool)
    requires at.Linked() && Schedule(n, at, log, was) && (worked ==> was) && Open(n, log, a.tx)
    requires forall c: Tx | Open(n, log, c) :: NotBehind(n, ByFee(n, log), a.tx, c)
    requires (a.taken ==> TakesIn(n, at, Taken(log), a.tx, ByFee(n, log))) && (worked && TakesIn(n, at, Taken(log), a.tx, ByFee(n, log)) ==> a.taken)
    ensures Schedule(n, at, log + [a], worked)
    ensures Taken(log + [a]) == Taken(log) + (if a.taken then [a.tx] else []) && Tried(log + [a]) == Tried(log) + {a.tx.hash}
    ensures ByFee(n, log + [a]) <==> ByFee(n, log) || RunsOut(n, Taken(log), a.tx)
  {
    hide Open, TakesIn, NotBehind, Schedule, RunsOut, Tried;
    LogNext(n, at, log, a, was, worked);
  }

  /** A transaction has come off the queue. */
  ghost predicate Removed(n: Node, p: Pending, p': Pending, log: seq<Attempt>, tx: Tx) {
    && PendingOk(n, p', Hashes(Taken(log)), [], 0) && p'.orphans == p.orphans && p'.mapDependers == p.mapDependers
    && tx.hash in Queued(p.vecPriority) && Queued(p'.vecPriority) == Queued(p.vecPriority) - {tx.hash}
  }

  /** Take the next transaction off the queue: none that is open is ahead of it. */
  method TakeNext(n: Node, p: Pending, byFee: bool, ghost log: seq<Attempt>) returns (q: TxPriority, p': Pending)
    requires PoolOk(n) && Pend(n, p, log) && p.vecPriority != []
    ensures EntryOk(n, q) && FromPool(n, q.tx) && Open(n, log, q.tx) && forall c: Tx | Open(n, log, c) :: NotBehind(n, byFee, q.tx, c)
    ensures Removed(n, p, p', log, q.tx) && |p'.vecPriority| < |p.vecPriority| && q.tx.hash !in Hashes(Taken(log))
  {
    hide PoolOk, PendingOk, Parted, EntryOk, Less, Open, NotBehind, Parents, FromPool, Queued, Hashes, Tried, Taken;
    q, p' := TakeFront(n, p, byFee, Hashes(Taken(log)));
    Foremost(n, p, log, byFee, q);
    EntryFromPool(n, q);
    OpenNotTried(n, log, q.tx);
  }

  lemma PendTurnedDown(n: Node, p: Pending, p': Pending, log: seq<Attempt>, tx: Tx)
    requires Pend(n, p, log) && Removed(n, p, p', log, tx)
    ensures Taken(log + [Attempt(tx, false)]) == Taken(log) ==> Tried(log + [Attempt(tx, false)]) == Tried(log) + {tx.hash} ==> Pend(n, p', log + [Attempt(tx, false)])
  {
    hide PendingOk, Tried, Taken, Queued, Blocked;
    PartedTaken(n, n.pool.Keys, Tried(log), Queued(p.vecPriority), Blocked(p.orphans), tx.hash);
  }

  /** Tell those that waited for the transaction taken. */
  method TellAll(n: Node, ghost was: Pending, p: Pending, ghost log: seq<Attempt>, tx: Tx) returns (p': Pending)
    requires Pend(n, was, log) && Removed(n, was, p, log, tx) && tx.hash !in Tried(log)
    requires Taken(log + [Attempt(tx, true)]) == Taken(log) + [tx] && Tried(log + [Attempt(tx, true)]) == Tried(log) + {tx.hash}
    ensures Pend(n, p', log + [Attempt(tx, true)])
    ensures |p'.vecPriority| + |Blocked(p'.orphans)| == |p.vecPriority| + |Blocked(p.orphans)|
  {
    hide PendingOk, Tried, Taken, Queued, Blocked, Parted;
    PartedTaken(n, n.pool.Keys, Tried(log), Queued(was.vecPriority), Blocked(was.orphans), tx.hash);
    HashesNext(Taken(log), tx);
    ReadyGrows(n, p, Hashes(Taken(log)), tx);
    PartedDisjoint(n, n.pool.Keys, Tried(log) + {tx.hash}, Queued(p.vecPriority), Blocked(p.orphans));
    p' := TellDependers(n, p, Hashes(Taken(log)) + {tx.hash}, tx.hash);
    PartedMoved(n, n.pool.Keys, Tried(log) + {tx.hash}, Queued(p.vecPriority), Blocked(p.orphans), Queued(p'.vecPriority), Blocked(p'.orphans));
  }

  lemma PartedDisjoint(n: Node, seen: set<Txid>, tried: set<Txid>, queued: set<Txid>, blocked: set<Txid>)
    requires Parted(n, seen, tried, queued, blocked)
    ensures queued !! blocked
  {
  }

  lemma OpenNotTried(n: Node, log: seq<Attempt>, tx: Tx)
    requires Open(n, log, tx)
    ensures tx.hash !in Tried(log) && Parents(n, tx) <= Hashes(Taken(log))
  {
  }

  lemma PartedTaken(n: Node, seen: set<Txid>, tried: set<Txid>, queued: set<Txid>, blocked: set<Txid>, h: Txid)
    requires Parted(n, seen, tried, queued, blocked) && h in queued
    ensures Parted(n, seen, tried + {h}, queued - {h}, blocked)
  {
    hide Candidate;
  }

  lemma PartedMoved(n: Node, seen: set<Txid>, tried: set<Txid>, queued: set<Txid>, blocked: set<Txid>, queued': set<Txid>, blocked': set<Txid>)
    requires Parted(n, seen, tried, queued, blocked) && queued' !! blocked' && queued' + blocked' == queued + blocked
    ensures Parted(n, seen, tried, queued', blocked')
  {
    hide Candidate;
    assert forall h :: h in queued' + blocked' <==> h in queued + blocked;
  }

  lemma NothingChosen(n: Node, at: BlockIndex, p: Pending)
    requires at.Linked() && PendingOk(n, p, {}, [], 0) && Parted(n, n.pool.Keys, {}, Queued(p.vecPriority), Blocked(p.orphans))
    ensures Built(n, at, [], map[], 1000, 100, 0) && Pend(n, p, []) && Taken([]) == [] && (ByFee(n, []) <==> n.nBlockPrioritySize <= 0)
    ensures forall worked :: Schedule(n, at, [], worked)
  {
    hide PendingOk, Parted;
    assert n.db + map[] == n.db;
    assert Hashes([]) == {} && Tried([]) == {};
  }

  /** The template: its transactions but for the coinbase, their fees, and what the coinbase
      gets.  Each time the first of the open transactions is tried, by fee once the part for high
      priorities is over, and taken exactly if it can be; at the end none is open.  If the disk did
      not fail, every candidate of the pool is in it, or waits for one that is not, or was turned
      down when its turn came. */
  method CreateNewBlock(n: Node, device: Device, pindexPrev: BlockIndex)
    returns (vtx: seq<Tx>, nFees: int, nCoinbaseValue: int, ghost log: seq<Attempt>)
    requires PoolOk(n) && pindexPrev.Linked() && forall h | h in n.pool :: MissingFirst(n, n.pool[h])
    modifies device
    ensures Assembled(n, pindexPrev, vtx) && nFees == Fees(n, vtx)
    ensures vtx == Taken(log) && Schedule(n, pindexPrev, log, device.Worked(old(device.nAccesses), device.nAccesses)) && forall c: Tx :: !Open(n, log, c)
    ensures device.Worked(old(device.nAccesses), device.nAccesses) ==>
              forall h | h in n.pool && Candidate(n, n.pool[h]) :: h in Hashes(vtx) || LeftOut(n, pindexPrev, vtx, n.pool[h])
    ensures n.nBlockPrioritySize <= 0 ==> GoesByFee(n, vtx)
    ensures nCoinbaseValue == if n.fProofOfStake then 0 else ProofOfWorkSubsidy(pindexPrev.nHeight + 1) + nFees
  {
    hide GoesByFee, PoolOk, Pend, PendingOk, Assembled, Parted, Queued, Blocked, Hashes, Fits, Candidate, Parents, EntryOk, MissingFirst, Less, LeftOut,
         After, BlockSize, SigOps, Fees, TxSigOps, Fee, ConnectTx, FromPool, Taken, Tried, ByFee, TakesIn, Schedule, AttemptOk, Open, NotBehind, RunsOut;
    var p := Collect(n);
    vtx, nFees, log := [], 0, [];
    var mapTestPool: Index := map[];
    var nBlockSize: nat, nBlockSigOps: nat, fSortedByFee := 1000, 100, n.nBlockPrioritySize <= 0;
    NothingChosen(n, pindexPrev, p);
    while p.vecPriority != []
      invariant vtx == Taken(log) && fSortedByFee == ByFee(n, log) && Pend(n, p, log)
      invariant Built(n, pindexPrev, vtx, mapTestPool, nBlockSize, nBlockSigOps, nFees)
      invariant device.nAccesses >= old(device.nAccesses)
      invariant Schedule(n, pindexPrev, log, device.Worked(old(device.nAccesses), device.nAccesses))
      decreases |p.vecPriority| + |Blocked(p.orphans)|
    {
      var q, ok, nTxSigOps, nFee;
      ghost var before, was, tried := mapTestPool, p, log;
      ghost var worked := device.Worked(old(device.nAccesses), device.nAccesses);
      q, p := TakeNext(n, p, fSortedByFee, log);
      OpenNotTried(n, log, q.tx);
      ok, fSortedByFee, mapTestPool, nTxSigOps, nFee := TryTransaction(n, device, pindexPrev, q, vtx, mapTestPool, nBlockSize, nBlockSigOps, fSortedByFee);
      log := log + [Attempt(q.tx, ok)];
      AttemptNext(n, pindexPrev, tried, Attempt(q.tx, ok), worked, device.Worked(old(device.nAccesses), device.nAccesses));
      if !ok {
        PendTurnedDown(n, was, p, tried, q.tx);
        continue;
      }
      BuiltNext(n, pindexPrev, vtx, before, nBlockSize, nBlockSigOps, nFees, q.tx, mapTestPool);
      vtx := vtx + [q.tx];
      nBlockSize := nBlockSize + q.tx.nSize;
      nBlockSigOps := nBlockSigOps + nTxSigOps;
      nFees := nFees + nFee;
      p := TellAll(n, was, p, tried, q.tx);
    }
    NothingOpen(n, p, log);
    if device.Worked(old(device.nAccesses), device.nAccesses) {
      AllAccounted(n, pindexPrev, log);
    }
    if n.nBlockPrioritySize <= 0 {
      AllByFee(n, pindexPrev, log, device.Worked(old(device.nAccesses), device.nAccesses));
    }
    nCoinbaseValue := if n.fProofOfStake then 0 else ProofOfWorkSubsidy(pindexPrev.nHeight + 1) + nFees;
  }

  lemma EntryFromPool(n: Node, q: TxPriority)
    requires EntryOk(n, q)
    ensures FromPool(n, q.tx)
  {
  }

  /** Take the highest priority transaction off the queue. */
  method TakeFront(n: Node, p: Pending, byFee: bool, ghost ready: set<Txid>) returns (q: TxPriority, p': Pending)
    requires PendingOk(n, p, ready, [], 0) && p.vecPriority != []
    ensures q in p.vecPriority && forall r | r in p.vecPriority :: !Less(byFee, q, r)
    ensures PendingOk(n, p', ready, [], 0) && p'.orphans == p.orphans && p'.mapDependers == p.mapDependers
    ensures EntryOk(n, q) && Parents(n, q.tx) <= ready && |p'.vecPriority| < |p.vecPriority|
    ensures q.tx.hash in Queued(p.vecPriority) && Queued(p'.vecPriority) == Queued(p.vecPriority) - {q.tx.hash}
  {
    hide OrphansOk, DependersOk, EntryOk, Queued, Parents, Less, QueueOk;
    var i := Front(p.vecPriority, byFee);
    Dequeued(p.vecPriority, i, n, ready);
    q := p.vecPriority[i];
    p' := p.(vecPriority := p.vecPriority[..i] + p.vecPriority[i + 1..]);
  }
}
