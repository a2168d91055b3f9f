/** SignBlock: a proof-of-stake block from a template.  Transactions later than the coinstake are
    erased; what remains is a template again, but the coinstake was paid the fees of them all. */
module SignedBlock {
  import opened Transactions
  import opened SpentIndex
  import opened BlockTree
  import opened TxInputs
  import opened BlockConnect
  import opened Template
  import opened TemplateBlock

  /** The transactions that are not later than `t`. */
  function Kept(vtx: seq<Tx>, t: nat): (r: seq<Tx>)
    ensures |r| <= |vtx|
  {
    if vtx == [] then []
    else
      var k := |vtx| - 1;
      Kept(vtx[..k], t) + if vtx[k].nTime <= t then [vtx[k]] else []
  }

  lemma {:induction false} KeptAppend(a: seq<Tx>, b: seq<Tx>, t: nat)
    ensures Kept(a + b, t) == Kept(a, t) + Kept(b, t)
  {
    if b == [] {
      assert a + b == a;
    } else {
      var k := |b| - 1;
      assert (a + b)[..|a| + k] == a + b[..k];
      KeptAppend(a, b[..k], t);
    }
  }

  /** The loop of SignBlock that erases transactions later than the coinstake. */
  method EraseLater(vtx: seq<Tx>, t: nat) returns (vtx': seq<Tx>)
    ensures vtx' == Kept(vtx, t)
  {
    vtx' := vtx;
    var it := 0;
    ghost var done := 0;
    while it < |vtx'|
      invariant done <= |vtx| && it <= |vtx'|
      invariant vtx'[..it] == Kept(vtx[..done], t) && vtx'[it..] == vtx[done..]
      decreases |vtx'| - it
    {
      assert vtx'[it] == vtx'[it..][0] == vtx[done];
      assert vtx[..done + 1][..done] == vtx[..done];
      assert vtx'[it..][1..] == vtx[done..][1..];
      if vtx'[it].nTime > t {
        vtx' := vtx'[..it] + vtx'[it + 1..];
      } else {
        it := it + 1;
      }
      done := done + 1;
    }
    assert vtx[..done] == vtx && vtx'[..it] == vtx';
  }

  /** SignBlock, with the coinstake that the wallet found, if it found one, and the hash of the
      coinbase at the new time.  The signature is not part of the model. */
  method SignBlock(vtx: seq<Tx>, found: bool, txCoinStake: Tx, nPastTimeLimit: nat, hashCoinBase: Txid) returns (ok: bool, vtx': seq<Tx>)
    requires vtx != [] && vtx[0].vout != []
    ensures ok <==> vtx[0].vout[0].IsEmpty() && (Block(vtx).IsProofOfStake() || (found && txCoinStake.nTime > nPastTimeLimit))
    ensures !ok || Block(vtx).IsProofOfStake() ==> vtx' == vtx
    ensures ok && !Block(vtx).IsProofOfStake() ==>
              vtx' == [vtx[0].(nTime := txCoinStake.nTime, hash := hashCoinBase), txCoinStake] + Kept(vtx[1..], txCoinStake.nTime)
  {
    vtx' := vtx;
    if !vtx[0].vout[0].IsEmpty() {
      return false, vtx';
    }
    if Block(vtx).IsProofOfStake() {
      return true, vtx';
    }
    if !found || txCoinStake.nTime < nPastTimeLimit + 1 {
      return false, vtx';
    }
    vtx' := vtx'[0 := vtx'[0].(nTime := txCoinStake.nTime, hash := hashCoinBase)];
    KeptAppend([vtx'[0]], vtx[1..], txCoinStake.nTime);
    assert vtx' == [vtx'[0]] + vtx[1..] && [vtx'[0]][..0] == [];
    vtx' := EraseLater(vtx', txCoinStake.nTime);
    vtx' := vtx'[..1] + [txCoinStake] + vtx'[1..];
    ok := true;
  }

  // ----- what is kept is a template

  lemma {:induction false} KeptIn(vtx: seq<Tx>, t: nat, tx: Tx)
    ensures tx in Kept(vtx, t) <==> tx in vtx && tx.nTime <= t
  {
    if vtx != [] {
      KeptIn(vtx[..|vtx| - 1], t, tx);
      assert tx in vtx <==> tx in vtx[..|vtx| - 1] || tx == vtx[|vtx| - 1];
    }
  }

  /** Whatever is not later than `t` is in both indices, at the same place, and free in the second
      when it is free in the first. */
  ghost predicate Thinner(n: Node, ix: Index, jx: Index, t: nat) {
    forall h | h in ix && (h in n.db || h in n.pool) && TxOf(n, h).nTime <= t ::
      h in jx && SparesEntry(ix[h], jx[h])
  }

  predicate SparesEntry(e: TxIndex, f: TxIndex) {
    f.pos == e.pos && |f.vSpent| == |e.vSpent| && forall m | 0 <= m < |e.vSpent| && e.vSpent[m] == Null :: f.vSpent[m] == Null
  }

  lemma ThinnerBoth(n: Node, ix: Index, jx: Index, t: nat, tx: Tx)
    requires Thinner(n, ix, jx, t) && !tx.IsCoinBase()
    ensures Thinner(n, ConnectTx(ix, tx, MEMPOOL_POS), ConnectTx(jx, tx, MEMPOOL_POS), t)
  {
    hide MarkAll;
    MarkAllSlots(ix, tx.vin, MEMPOOL_POS);
    MarkAllSlots(jx, tx.vin, MEMPOOL_POS);
    var kx, lx := ConnectTx(ix, tx, MEMPOOL_POS), ConnectTx(jx, tx, MEMPOOL_POS);
    forall h | h in kx && (h in n.db || h in n.pool) && TxOf(n, h).nTime <= t && h != tx.hash ensures h in lx && SparesEntry(kx[h], lx[h]) {
      assert SparesEntry(ix[h], jx[h]);
      forall m | 0 <= m < |kx[h].vSpent| && kx[h].vSpent[m] == Null ensures lx[h].vSpent[m] == Null {
        assert HasSlot(ix, OutPoint(h, m)) && HasSlot(jx, OutPoint(h, m));
      }
    }
  }

  lemma ThinnerOne(n: Node, ix: Index, jx: Index, t: nat, tx: Tx)
    requires Thinner(n, ix, jx, t) && PoolOk(n) && FromPool(n, tx) && tx.nTime > t
    ensures Thinner(n, ConnectTx(ix, tx, MEMPOOL_POS), jx, t)
  {
    hide MarkAll;
    MarkAllSlots(ix, tx.vin, MEMPOOL_POS);
    var kx := ConnectTx(ix, tx, MEMPOOL_POS);
    assert TxOf(n, tx.hash) == tx;
    forall h | h in kx && (h in n.db || h in n.pool) && TxOf(n, h).nTime <= t ensures h in jx && SparesEntry(kx[h], jx[h]) {
      assert h != tx.hash && SparesEntry(ix[h], jx[h]);
      forall m | 0 <= m < |kx[h].vSpent| && kx[h].vSpent[m] == Null ensures jx[h].vSpent[m] == Null {
        assert HasSlot(ix, OutPoint(h, m));
      }
    }
  }

  lemma {:induction false} KeptThinner(n: Node, at: BlockIndex, vtx: seq<Tx>, t: nat)
    requires PoolOk(n) && at.Linked() && Assembled(n, at, vtx)
    ensures Thinner(n, After(n.db, vtx), After(n.db, Kept(vtx, t)), t)
  {
    hide PoolOk, Fits, Parents, ConnectTx, Thinner, Hashes;
    if vtx == [] {
      ThinnerSelf(n, t);
    } else {
      var k := |vtx| - 1;
      AssembledPrefix(n, at, vtx, k);
      KeptThinner(n, at, vtx[..k], t);
      assert WellPlaced(n, at, vtx, k);
      var ix, jx, tx := After(n.db, vtx[..k]), After(n.db, Kept(vtx[..k], t)), vtx[k];
      if tx.nTime <= t {
        ThinnerBoth(n, ix, jx, t, tx);
        assert Kept(vtx, t)[..|Kept(vtx, t)| - 1] == Kept(vtx[..k], t);
      } else {
        ThinnerOne(n, ix, jx, t, tx);
        assert Kept(vtx, t) == Kept(vtx[..k], t);
      }
    }
  }

  lemma ThinnerSelf(n: Node, t: nat)
    ensures Thinner(n, n.db, n.db, t)
  {
  }

  /** The transaction that the output is of is not later than `t`. */
  ghost predicate EarlierSource(n: Node, t: nat, o: OutPoint) {
    (o.hash in n.db || o.hash in n.pool) && TxOf(n, o.hash).nTime <= t
  }

  /** An input of a transaction that is kept. */
  lemma InputKept(n: Node, at: BlockIndex, ix: Index, jx: Index, tx: Tx, t: nat, o: OutPoint)
    requires at.Linked() && Reads(n, ix) && Reads(n, jx) && Thinner(n, ix, jx, t) && tx.nTime <= t
    requires PrevoutOk(n.w, ix, tx, o, at)
    ensures PrevoutOk(n.w, jx, tx, o, at) && Prev(n.w, jx, o) == Prev(n.w, ix, o) && (IsFree(ix, o) ==> IsFree(jx, o))
    ensures EarlierSource(n, t, o)
  {
    assert SparesEntry(ix[o.hash], jx[o.hash]);
  }

  lemma {:induction false} InputsKept(n: Node, at: BlockIndex, ix: Index, jx: Index, tx: Tx, t: nat, k: nat)
    requires at.Linked() && Reads(n, ix) && Reads(n, jx) && Thinner(n, ix, jx, t) && tx.nTime <= t
    requires k <= |tx.vin| && PrevoutsOk(n.w, ix, tx, k, at)
    ensures ValueIn(n.w, jx, tx.vin[..k]) == ValueIn(n.w, ix, tx.vin[..k])
    ensures P2SHSigOps(n.w, jx, tx, k) == P2SHSigOps(n.w, ix, tx, k)
    ensures PrevoutsOk(n.w, jx, tx, k, at)
  {
    hide Reads, Thinner, PrevoutOk, ValueIn, P2SHSigOps;
    if k > 0 {
      InputsKept(n, at, ix, jx, tx, t, k - 1);
      assert PrevoutOk(n.w, ix, tx, tx.vin[k - 1], at);
      InputKept(n, at, ix, jx, tx, t, tx.vin[k - 1]);
      FetchesSame(n.w, ix, jx, tx, tx.vin[k - 1], at);
      SumsSame(n.w, ix, jx, tx, k);
    } else {
      NoSums(n.w, ix, jx, tx);
    }
  }

  lemma NoSums(w: World, ix: Index, jx: Index, tx: Tx)
    ensures ValueIn(w, jx, tx.vin[..0]) == ValueIn(w, ix, tx.vin[..0]) && P2SHSigOps(w, jx, tx, 0) == P2SHSigOps(w, ix, tx, 0)
  {
  }

  lemma SumsSame(w: World, ix: Index, jx: Index, tx: Tx, k: nat)
    requires 0 < k <= |tx.vin| && Fetchable(w, ix, tx.vin[k - 1]) && Fetchable(w, jx, tx.vin[k - 1])
    requires PrevOut(w, jx, tx.vin[k - 1]) == PrevOut(w, ix, tx.vin[k - 1])
    requires ValueIn(w, jx, tx.vin[..k - 1]) == ValueIn(w, ix, tx.vin[..k - 1]) && P2SHSigOps(w, jx, tx, k - 1) == P2SHSigOps(w, ix, tx, k - 1)
    ensures ValueIn(w, jx, tx.vin[..k]) == ValueIn(w, ix, tx.vin[..k]) && P2SHSigOps(w, jx, tx, k) == P2SHSigOps(w, ix, tx, k)
  {
    hide Fetchable, PrevOut;
    assert tx.vin[..k][..k - 1] == tx.vin[..k - 1];
  }

  lemma FetchesSame(w: World, ix: Index, jx: Index, tx: Tx, o: OutPoint, at: BlockIndex)
    requires at.Linked() && PrevoutOk(w, ix, tx, o, at) && PrevoutOk(w, jx, tx, o, at) && Prev(w, jx, o) == Prev(w, ix, o)
    ensures Fetchable(w, ix, o) && Fetchable(w, jx, o) && PrevOut(w, jx, o) == PrevOut(w, ix, o)
  {
  }

  /** One input, out of all. */
  lemma OneKept(n: Node, at: BlockIndex, ix: Index, jx: Index, tx: Tx, t: nat, i: nat)
    requires at.Linked() && Reads(n, ix) && Reads(n, jx) && Thinner(n, ix, jx, t) && tx.nTime <= t && i < |tx.vin|
    requires PrevoutsOk(n.w, ix, tx, |tx.vin|, at) && IsFree(ix, tx.vin[i])
    ensures IsFree(jx, tx.vin[i]) && EarlierSource(n, t, tx.vin[i])
    ensures tx.vin[i].hash in ix && tx.vin[i].hash in jx && Prev(n.w, jx, tx.vin[i]) == Prev(n.w, ix, tx.vin[i])
  {
    hide Reads, Thinner, IsFree, ConfirmedWithin;
    assert PrevoutOk(n.w, ix, tx, tx.vin[i], at);
    InputKept(n, at, ix, jx, tx, t, tx.vin[i]);
  }

  lemma ConnectsKept(n: Node, at: BlockIndex, ix: Index, jx: Index, tx: Tx, t: nat)
    requires at.Linked() && Reads(n, ix) && Reads(n, jx) && Thinner(n, ix, jx, t) && tx.nTime <= t
    requires TxConnects(n.w, ix, tx, at, PoolMode(n)) && !tx.IsCoinBase()
    ensures TxConnects(n.w, jx, tx, at, PoolMode(n))
    ensures P2SHSigOps(n.w, jx, tx, |tx.vin|) == P2SHSigOps(n.w, ix, tx, |tx.vin|)
    ensures forall i | 0 <= i < |tx.vin| :: EarlierSource(n, t, tx.vin[i])
  {
    hide Reads, Thinner, PrevoutsOk, IsFree, ValueIn, P2SHSigOps, EarlierSource;
    InputsKept(n, at, ix, jx, tx, t, |tx.vin|);
    assert tx.vin[..|tx.vin|] == tx.vin;
    forall i | 0 <= i < |tx.vin|
      ensures IsFree(jx, tx.vin[i]) && EarlierSource(n, t, tx.vin[i])
      ensures tx.vin[i].hash in ix && tx.vin[i].hash in jx && Prev(n.w, jx, tx.vin[i]) == Prev(n.w, ix, tx.vin[i])
    {
      OneKept(n, at, ix, jx, tx, t, i);
    }
  }

  lemma NextKept(vtx: seq<Tx>, t: nat)
    requires vtx != []
    ensures var k := |vtx| - 1; var kept := Kept(vtx[..k], t);
            if vtx[k].nTime <= t then Kept(vtx, t) == kept + [vtx[k]] && (kept + [vtx[k]])[..|kept|] == kept else Kept(vtx, t) == kept
  {
  }

  lemma {:induction false} KeptSizes(vtx: seq<Tx>, t: nat)
    ensures SizesUpTo(Kept(vtx, t), |Kept(vtx, t)|) <= SizesUpTo(vtx, |vtx|)
  {
    if vtx != [] {
      var k := |vtx| - 1;
      var kept := Kept(vtx[..k], t);
      KeptSizes(vtx[..k], t);
      NextKept(vtx, t);
      SizesOfPrefix(vtx, vtx[..k], k);
      SizesOfPrefix(kept + [vtx[k]], kept, |kept|);
    }
  }

  /** Where the transactions before it are kept, a transaction that is kept fits again. */
  lemma FitsKept(n: Node, at: BlockIndex, done: seq<Tx>, tx: Tx, t: nat)
    requires PoolOk(n) && at.Linked() && Assembled(n, at, done) && Assembled(n, at, Kept(done, t))
    requires FromPool(n, tx) && Fits(n, at, done, tx) && Parents(n, tx) <= Hashes(done) && tx.hash !in Hashes(done) && tx.nTime <= t
    requires SigOps(n, Kept(done, t)) <= SigOps(n, done)
    ensures Fits(n, at, Kept(done, t), tx) && Parents(n, tx) <= Hashes(Kept(done, t)) && tx.hash !in Hashes(Kept(done, t))
    ensures TxSigOps(n, Kept(done, t), tx) == TxSigOps(n, done, tx)
  {
    hide Assembled, TxConnects, After, Reads, Thinner, SigOps, P2SHSigOps;
    var ix, jx := After(n.db, done), After(n.db, Kept(done, t));
    AfterReads(n, at, done);
    AfterReads(n, at, Kept(done, t));
    KeptThinner(n, at, done, t);
    ConnectsKept(n, at, ix, jx, tx, t);
    KeptSizes(done, t);
    forall h | h in Hashes(Kept(done, t)) ensures h in Hashes(done) {
      var p :| p in Kept(done, t) && p.hash == h;
      KeptIn(done, t, p);
    }
    forall h | h in Parents(n, tx) ensures h in Hashes(Kept(done, t)) {
      ParentKept(n, at, done, tx, t, h);
    }
  }

  lemma ParentKept(n: Node, at: BlockIndex, done: seq<Tx>, tx: Tx, t: nat, h: Txid)
    requires PoolOk(n) && at.Linked() && Assembled(n, at, done) && h in Parents(n, tx) && Parents(n, tx) <= Hashes(done)
    requires forall i | 0 <= i < |tx.vin| :: EarlierSource(n, t, tx.vin[i])
    ensures h in Hashes(Kept(done, t))
  {
    hide Fits;
    var o :| o in tx.vin && Waits(n, o) && o.hash == h;
    var i :| 0 <= i < |tx.vin| && tx.vin[i] == o;
    assert EarlierSource(n, t, tx.vin[i]);
    var p :| p in done && p.hash == h;
    var k :| 0 <= k < |done| && done[k] == p;
    assert WellPlaced(n, at, done, k);
    assert TxOf(n, h) == p;
    KeptIn(done, t, p);
  }

  /** Erasing what is later than some time leaves a template: no transaction is earlier than one
      whose output it spends. */
  lemma {:induction false} KeptAssembled(n: Node, at: BlockIndex, vtx: seq<Tx>, t: nat)
    requires PoolOk(n) && at.Linked() && Assembled(n, at, vtx)
    ensures Assembled(n, at, Kept(vtx, t)) && SigOps(n, Kept(vtx, t)) <= SigOps(n, vtx)
  {
    hide PoolOk, FromPool, Fits, Parents, Hashes, TxSigOps;
    if vtx != [] {
      var k := |vtx| - 1;
      AssembledPrefix(n, at, vtx, k);
      KeptAssembled(n, at, vtx[..k], t);
      assert WellPlaced(n, at, vtx, k);
      NextKept(vtx, t);
      if vtx[k].nTime <= t {
        FitsKept(n, at, vtx[..k], vtx[k], t);
        AssembledNext(n, at, Kept(vtx[..k], t), vtx[k]);
      }
    }
  }

  // ----- what the coinstake was paid

  /** Every erased transaction takes its fee with it. */
  lemma {:induction false} FeesKept(n: Node, at: BlockIndex, vtx: seq<Tx>, t: nat)
    requires at.Linked() && Assembled(n, at, vtx)
    ensures Fees(n, Kept(vtx, t)) + MIN_TX_FEE * (|vtx| - |Kept(vtx, t)|) <= Fees(n, vtx)
    ensures |Kept(vtx, t)| == |vtx| ==> Kept(vtx, t) == vtx
  {
    hide Fee, Parents, FromPool, TxConnects, SigOps, TxSigOps, BlockSize, Hashes;
    if vtx != [] {
      var k := |vtx| - 1;
      AssembledPrefix(n, at, vtx, k);
      FeesKept(n, at, vtx[..k], t);
      assert WellPlaced(n, at, vtx, k);
      NextKept(vtx, t);
      assert vtx == vtx[..k] + [vtx[k]];
    }
  }

  lemma {:induction false} AllKept(vtx: seq<Tx>, t: nat)
    ensures Kept(vtx, t) == vtx <==> forall k | 0 <= k < |vtx| :: vtx[k].nTime <= t
  {
    if vtx != [] {
      var k := |vtx| - 1;
      AllKept(vtx[..k], t);
      NextKept(vtx, t);
      assert vtx == vtx[..k] + [vtx[k]];
      if vtx[k].nTime > t {
        assert |Kept(vtx, t)| < |vtx|;
      }
    }
  }

  /** The coinstake takes its subsidy and the fees of the whole template. */
  ghost predicate PaidInFull(n: Node, vtx: seq<Tx>, b: BlockIndex)
    requires b.pprev != null && |b.block.vtx| > 1
  {
    ValueOf(b.block.vtx[1].vout) - ValueIn(n.w, ConnectTxs(n.db, b, 1), b.block.vtx[1].vin) == ProofOfStakeSubsidy(b.pprev.nHeight) + Fees(n, vtx)
  }

  /** A block as SignBlock makes it, with a coinstake paid for the whole template, connects exactly
      when no transaction of the template is later than the coinstake, the coinstake connects
      after the coinbase, every transaction fits in the block, and the operations are within their
      limit.  Whatever is erased is missing from what the coinstake may take. */
  lemma SignedConnects(n: Node, prev: BlockIndex, vtx: seq<Tx>, b: BlockIndex)
    requires PoolOk(n) && prev.Linked() && Assembled(n, prev, vtx) && |b.block.vtx| > 1
    requires var kept := Kept(vtx, b.block.vtx[1].nTime);
             MadeFrom(n, prev, kept, b) && HeadSize(kept, b) == 2 && CheckBlock(n.w, b.block) && PaidInFull(n, vtx, b)
    ensures BlockConnects(n.w, n.db, b, n.nBestHeight) <==>
            && (forall k | 0 <= k < |vtx| :: vtx[k].nTime <= b.block.vtx[1].nTime)
            && |vtx| < |b.block.vtx| && StakeConnects(n, vtx, b) && AllFitBlock(n, vtx, b) && SigOpsFit(n, vtx, b)
  {
    hide PoolOk, Assembled, MadeFrom, CheckBlock, BlockConnects, Fees, AllFitBlock, SigOpsFit, StakeConnects;
    var t := b.block.vtx[1].nTime;
    var kept := Kept(vtx, t);
    KeptAssembled(n, prev, vtx, t);
    TemplateConnects(n, prev, kept, b);
    FeesKept(n, prev, vtx, t);
    AllKept(vtx, t);
    SignedParts(n, prev, kept, b);
  }

  lemma SignedParts(n: Node, prev: BlockIndex, vtx: seq<Tx>, b: BlockIndex)
    requires MadeFrom(n, prev, vtx, b)
    ensures |vtx| < |b.block.vtx| && b.pprev == prev && b.Linked()
  {
  }
}
