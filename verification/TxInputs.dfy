/** Fetching the outputs a transaction spends, and spending them. */
module TxInputs {
  import opened Transactions
  import opened SpentIndex
  import opened BlockTree
  import opened Storage

  /** The position that says "look in the memory pool". */
  const MEMPOOL_POS := At(1, 1, 1)

  /** For each previous transaction: its index entry and itself. */
  type MapPrevTx = map<Txid, (TxIndex, Tx)>

  ghost predicate Cached(w: World, ix: Index, inputs: MapPrevTx) {
    forall h | h in inputs :: h in ix && inputs[h] == (ix[h], w.readTx(h, ix[h].pos))
  }

  predicate Fetchable(w: World, ix: Index, o: OutPoint) {
    HasSlot(ix, o) && o.n < |w.readTx(o.hash, ix[o.hash].pos).vout|
  }

  function Prev(w: World, ix: Index, o: OutPoint): Tx
    requires o.hash in ix
  {
    w.readTx(o.hash, ix[o.hash].pos)
  }

  function PrevOut(w: World, ix: Index, o: OutPoint): TxOut
    requires Fetchable(w, ix, o)
  {
    Prev(w, ix, o).vout[o.n]
  }

  /** The value of an output; nothing for an output that cannot be fetched. */
  function OutValue(w: World, ix: Index, o: OutPoint): int {
    if Fetchable(w, ix, o) then PrevOut(w, ix, o).nValue else 0
  }

  function ValueIn(w: World, ix: Index, vin: seq<OutPoint>): int {
    if vin == [] then 0 else ValueIn(w, ix, vin[..|vin| - 1]) + OutValue(w, ix, vin[|vin| - 1])
  }

  function P2SHSigOps(w: World, ix: Index, tx: Tx, k: nat): nat
    requires k <= |tx.vin|
  {
    if k == 0 then 0
    else P2SHSigOps(w, ix, tx, k - 1) + if Fetchable(w, ix, tx.vin[k - 1]) then w.p2shSigOps(tx, k - 1, PrevOut(w, ix, tx.vin[k - 1])) else 0
  }

  /** How an input is being connected: into a block of the chain (`fBlock`) or into a block
      template, under which script rules, and with which best height the node has. */
  datatype Mode = Mode(fBlock: bool, rules: ScriptRules, nBestHeight: int)

  /** The inexpensive checks of one input. */
  ghost predicate PrevoutOk(w: World, ix: Index, tx: Tx, o: OutPoint, at: BlockIndex)
    requires at.Linked()
  {
    && Fetchable(w, ix, o)
    && (Prev(w, ix, o).IsCoinBase() || Prev(w, ix, o).IsCoinStake() ==>
          !ConfirmedWithin(ix[o.hash].pos, at, w.nCoinbaseMaturity))
    && Prev(w, ix, o).nTime <= tx.nTime
    && (w.IsProtocolVFork1(at.nHeight) ==> !PrevOut(w, ix, o).IsEmpty())
    && MoneyRange(PrevOut(w, ix, o).nValue)
  }

  ghost predicate PrevoutsOk(w: World, ix: Index, tx: Tx, k: nat, at: BlockIndex)
    requires at.Linked() && k <= |tx.vin|
  {
    forall i | 0 <= i < k :: PrevoutOk(w, ix, tx, tx.vin[i], at) && MoneyRange(ValueIn(w, ix, tx.vin[..i + 1]))
  }

  /** The first `k` inputs name free outputs, each a different one, and are signed for. */
  predicate Spendable(w: World, ix: Index, tx: Tx, k: nat, m: Mode)
    requires k <= |tx.vin|
  {
    && (forall i | 0 <= i < k :: IsFree(ix, tx.vin[i]))
    && Distinct(tx.vin[..k])
    && ((m.fBlock && m.nBestHeight < w.nCheckpointHeight) ||
        forall i | 0 <= i < k :: tx.vin[i].hash in ix && w.verifySignature(Prev(w, ix, tx.vin[i]), tx, i, m.rules))
  }

  predicate FeeOk(w: World, valueIn: int, tx: Tx, m: Mode) {
    !tx.IsCoinStake() ==>
      var nTxFee := valueIn - ValueOf(tx.vout);
      nTxFee >= 0 && (nTxFee >= MIN_TX_FEE || w.IsProtocolV1(m.nBestHeight + 1)) && MoneyRange(nTxFee)
  }

  /** When ConnectInputs accepts a transaction against the index `ix`. */
  ghost predicate TxConnects(w: World, ix: Index, tx: Tx, at: BlockIndex, m: Mode)
    requires at.Linked()
  {
    tx.IsCoinBase() ||
    (&& PrevoutsOk(w, ix, tx, |tx.vin|, at)
     && Spendable(w, ix, tx, |tx.vin|, m)
     && FeeOk(w, ValueIn(w, ix, tx.vin), tx, m))
  }

  lemma ConnectsFree(w: World, ix: Index, tx: Tx, at: BlockIndex, m: Mode)
    requires at.Linked() && TxConnects(w, ix, tx, at, m)
    ensures InputsFree(ix, tx)
  {
    assert tx.vin[..|tx.vin|] == tx.vin;
  }

  /** Each previous transaction is read from the block files, which can fail, or looked up in the
      memory pool. */
  method FetchInputs(w: World, device: Device, tx: Tx, db: Index, pool: Index) returns (ok: bool, inputs: MapPrevTx, fInvalid: bool)
    modifies device
    ensures device.nAccesses >= old(device.nAccesses)
    ensures ok <==> (tx.IsCoinBase() || forall i | 0 <= i < |tx.vin| :: Fetchable(w, db + pool, tx.vin[i])) &&
                    device.Worked(old(device.nAccesses), device.nAccesses)
    ensures ok ==> inputs.Keys == if tx.IsCoinBase() then {} else set i | 0 <= i < |tx.vin| :: tx.vin[i].hash
    ensures Cached(w, db + pool, inputs)
    ensures fInvalid <==> !ok && device.Worked(old(device.nAccesses), device.nAccesses) && forall i | 0 <= i < |tx.vin| :: tx.vin[i].hash in db + pool
  {
    inputs, fInvalid := map[], false;
    if tx.IsCoinBase() {
      return true, inputs, false;
    }
    ghost var ix := db + pool;
    for i := 0 to |tx.vin|
      invariant Cached(w, ix, inputs)
      invariant inputs.Keys == set k | 0 <= k < i :: tx.vin[k].hash
      invariant device.Worked(old(device.nAccesses), device.nAccesses)
    {
      var h := tx.vin[i].hash;
      if h !in inputs {
        if h !in pool && h !in db {
          return false, inputs, false;
        }
        var txindex := if h in pool then pool[h] else db[h];
        if txindex.pos != MEMPOOL_POS {
          ok := device.Access();
          if !ok {
            return false, inputs, false;
          }
        }
        inputs := inputs[h := (txindex, w.readTx(h, txindex.pos))];
      }
    }
    for i := 0 to |tx.vin|
      invariant forall k | 0 <= k < i :: Fetchable(w, ix, tx.vin[k])
    {
      var o := tx.vin[i];
      assert o.hash in inputs;
      var (txindex, txPrev) := inputs[o.hash];
      if o.n >= |txPrev.vout| || o.n >= |txindex.vSpent| {
        return false, inputs, true;
      }
    }
    ok := true;
  }

  method GetValueIn(w: World, ghost ix: Index, tx: Tx, inputs: MapPrevTx) returns (nResult: int)
    requires Cached(w, ix, inputs)
    requires !tx.IsCoinBase() ==> forall i | 0 <= i < |tx.vin| :: tx.vin[i].hash in inputs && Fetchable(w, ix, tx.vin[i])
    ensures nResult == if tx.IsCoinBase() then 0 else ValueIn(w, ix, tx.vin)
  {
    nResult := 0;
    if tx.IsCoinBase() {
      return;
    }
    for i := 0 to |tx.vin|
      invariant nResult == ValueIn(w, ix, tx.vin[..i])
    {
      assert tx.vin[..i + 1][..i] == tx.vin[..i];
      nResult := nResult + inputs[tx.vin[i].hash].1.vout[tx.vin[i].n].nValue;
    }
    assert tx.vin[..|tx.vin|] == tx.vin;
  }

  method GetP2SHSigOpCount(w: World, ghost ix: Index, tx: Tx, inputs: MapPrevTx) returns (nSigOps: nat)
    requires Cached(w, ix, inputs)
    requires !tx.IsCoinBase() ==> forall i | 0 <= i < |tx.vin| :: tx.vin[i].hash in inputs && Fetchable(w, ix, tx.vin[i])
    ensures nSigOps == if tx.IsCoinBase() then 0 else P2SHSigOps(w, ix, tx, |tx.vin|)
  {
    nSigOps := 0;
    if tx.IsCoinBase() {
      return;
    }
    for i := 0 to |tx.vin|
      invariant nSigOps == P2SHSigOps(w, ix, tx, i)
    {
      nSigOps := nSigOps + w.p2shSigOps(tx, i, inputs[tx.vin[i].hash].1.vout[tx.vin[i].n]);
    }
  }

  /** The inexpensive checks of ConnectInputs on one input, but for its value. */
  method CheckPrevout(w: World, ghost ix: Index, tx: Tx, o: OutPoint, inputs: MapPrevTx, at: BlockIndex) returns (ok: bool, nValue: int)
    requires at.Linked() && Cached(w, ix, inputs) && o.hash in inputs
    ensures ok && MoneyRange(nValue) <==> PrevoutOk(w, ix, tx, o, at)
    ensures ok ==> nValue == OutValue(w, ix, o)
  {
    var (txindex, txPrev) := inputs[o.hash];
    if o.n >= |txPrev.vout| || o.n >= |txindex.vSpent| {
      return false, 0;
    }
    nValue := txPrev.vout[o.n].nValue;
    if txPrev.IsCoinBase() || txPrev.IsCoinStake() {
      var immature, _ := IsConfirmedInNPrevBlocks(txindex.pos, at, w.nCoinbaseMaturity);
      if immature {
        return false, nValue;
      }
    }
    if txPrev.nTime > tx.nTime {
      return false, nValue;
    }
    ok := !(w.IsProtocolVFork1(at.nHeight) && txPrev.vout[o.n].IsEmpty());
  }

  /** The first loop of ConnectInputs. */
  method CheckPrevouts(w: World, ghost ix: Index, tx: Tx, inputs: MapPrevTx, at: BlockIndex) returns (ok: bool, nValueIn: int)
    requires at.Linked() && Cached(w, ix, inputs)
    requires forall i | 0 <= i < |tx.vin| :: tx.vin[i].hash in inputs
    ensures ok <==> PrevoutsOk(w, ix, tx, |tx.vin|, at)
    ensures ok ==> nValueIn == ValueIn(w, ix, tx.vin)
  {
    nValueIn := 0;
    for i := 0 to |tx.vin|
      invariant PrevoutsOk(w, ix, tx, i, at)
      invariant nValueIn == ValueIn(w, ix, tx.vin[..i])
    {
      var nValue;
      ok, nValue := CheckPrevout(w, ix, tx, tx.vin[i], inputs, at);
      if !ok {
        return;
      }
      assert tx.vin[..i + 1][..i] == tx.vin[..i];
      nValueIn := nValueIn + nValue;
      if !MoneyRange(nValue) || !MoneyRange(nValueIn) {
        return false, nValueIn;
      }
    }
    assert tx.vin[..|tx.vin|] == tx.vin;
    ok := true;
  }

  /** Marking input `i` after the ones before it. */
  lemma MarkNext(ix: Index, vin: seq<OutPoint>, i: nat, p: DiskTxPos)
    requires i < |vin| && HasSlot(ix, vin[i]) && p != Null
    ensures var jx := MarkAll(ix, vin[..i], p); var o := vin[i];
            && HasSlot(jx, o)
            && (jx[o.hash].vSpent[o.n] == Null <==> IsFree(ix, o) && o !in vin[..i])
            && MarkAll(ix, vin[..i + 1], p) == jx[o.hash := jx[o.hash].(vSpent := jx[o.hash].vSpent[o.n := p])]
  {
    MarkAllSlots(ix, vin[..i], p);
    assert vin[..i + 1][..i] == vin[..i];
  }

  lemma MergeUpdate(db: Index, pool: Index, h: Txid, e: TxIndex)
    ensures db + pool[h := e] == (db + pool)[h := e]
  {
  }

  /** The second loop of ConnectInputs: look for double spends, check signatures and mark the
      outputs as spent, in the cached entries and in the pool of pending changes. */
  method SpendPrevouts(w: World, ghost db: Index, tx: Tx, cached: MapPrevTx, pool: Index, posThisTx: DiskTxPos, m: Mode)
    returns (ok: bool, pool': Index)
    requires Cached(w, db + pool, cached) && posThisTx != Null
    requires forall i | 0 <= i < |tx.vin| :: tx.vin[i].hash in cached && Fetchable(w, db + pool, tx.vin[i])
    ensures ok <==> Spendable(w, db + pool, tx, |tx.vin|, m)
    ensures ok ==> db + pool' == MarkAll(db + pool, tx.vin, posThisTx)
  {
    ghost var ix := db + pool;
    var inputs := cached;
    pool' := pool;
    assert tx.vin[..|tx.vin|] == tx.vin;
    for i := 0 to |tx.vin|
      invariant inputs.Keys == cached.Keys
      invariant db + pool' == MarkAll(ix, tx.vin[..i], posThisTx)
      invariant forall h | h in inputs :: h in ix && h in db + pool' && inputs[h] == ((db + pool')[h], w.readTx(h, ix[h].pos))
      invariant Spendable(w, ix, tx, i, m)
    {
      var o := tx.vin[i];
      var (txindex, txPrev) := inputs[o.hash];
      MarkNext(ix, tx.vin, i, posThisTx);
      if txindex.vSpent[o.n] != Null {
        NotSpendable(w, ix, tx, i, m);
        return false, pool';
      }
      if !(m.fBlock && m.nBestHeight < w.nCheckpointHeight) && !w.verifySignature(txPrev, tx, i, m.rules) {
        return false, pool';
      }
      SpendableNext(w, ix, tx, i, m);
      txindex := txindex.(vSpent := txindex.vSpent[o.n := posThisTx]);
      inputs := inputs[o.hash := (txindex, txPrev)];
      MergeUpdate(db, pool', o.hash, txindex);
      pool' := pool'[o.hash := txindex];
    }
    ok := true;
  }

  lemma SpendableNext(w: World, ix: Index, tx: Tx, i: nat, m: Mode)
    requires i < |tx.vin| && Spendable(w, ix, tx, i, m)
    requires IsFree(ix, tx.vin[i]) && tx.vin[i] !in tx.vin[..i]
    requires (m.fBlock && m.nBestHeight < w.nCheckpointHeight) || w.verifySignature(Prev(w, ix, tx.vin[i]), tx, i, m.rules)
    ensures Spendable(w, ix, tx, i + 1, m)
  {
    var prior, upTo := tx.vin[..i], tx.vin[..i + 1];
    forall a, b | 0 <= a < b < |upTo| ensures upTo[a] != upTo[b] {
      assert prior[a] == upTo[a] && (b < i ==> prior[b] == upTo[b]);
    }
  }

  lemma NotSpendable(w: World, ix: Index, tx: Tx, i: nat, m: Mode)
    requires i < |tx.vin|
    requires IsFree(ix, tx.vin[i]) ==> tx.vin[i] in tx.vin[..i]
    ensures !Spendable(w, ix, tx, |tx.vin|, m)
  {
    if IsFree(ix, tx.vin[i]) {
      var j :| 0 <= j < i && tx.vin[..i][j] == tx.vin[i];
      assert tx.vin[..|tx.vin|][j] == tx.vin[..|tx.vin|][i];
    }
  }

  method ConnectInputs(w: World, ghost db: Index, tx: Tx, inputs: MapPrevTx, pool: Index, posThisTx: DiskTxPos,
                       pindexBlock: BlockIndex, m: Mode)
    returns (ok: bool, pool': Index)
    requires Cached(w, db + pool, inputs) && posThisTx != Null && pindexBlock.Linked()
    requires !tx.IsCoinBase() ==> forall i | 0 <= i < |tx.vin| :: tx.vin[i].hash in inputs
    ensures ok <==> TxConnects(w, db + pool, tx, pindexBlock, m)
    ensures ok ==> db + pool' == if tx.IsCoinBase() then db + pool else MarkAll(db + pool, tx.vin, posThisTx)
  {
    pool' := pool;
    if !tx.IsCoinBase() {
      var nValueIn;
      ok, nValueIn := CheckPrevouts(w, db + pool, tx, inputs, pindexBlock);
      if !ok {
        return;
      }
      assert forall i | 0 <= i < |tx.vin| :: PrevoutOk(w, db + pool, tx, tx.vin[i], pindexBlock);
      ok, pool' := SpendPrevouts(w, db, tx, inputs, pool, posThisTx, m);
      if !ok {
        return;
      }
      if !tx.IsCoinStake() {
        var nValueOut := ValueOf(tx.vout);
        if nValueIn < nValueOut {
          return false, pool';
        }
        var nTxFee := nValueIn - nValueOut;
        if nTxFee < MIN_TX_FEE && !w.IsProtocolV1(m.nBestHeight + 1) {
          return false, pool';
        }
        if !MoneyRange(nTxFee) {
          return false, pool';
        }
      }
    }
    ok := true;
  }
}
