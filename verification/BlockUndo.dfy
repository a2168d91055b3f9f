/** Disconnecting a block, and when that takes back exactly what connecting it did. */
module BlockUndo {
  import opened Transactions
  import opened SpentIndex
  import opened BlockTree
  import opened TxInputs
  import opened BlockConnect

  /** The index after disconnecting the transactions of `vtx` from the last down to number `k`. */
  ghost function DisconnectDown(ix: Index, vtx: seq<Tx>, k: nat): Undone
    requires k <= |vtx|
    decreases |vtx| - k
  {
    if k == |vtx| then Undone(ix)
    else match DisconnectDown(ix, vtx, k + 1)
      case Failed => Failed
      case Undone(jx) => DisconnectTx(jx, vtx[k])
  }

  ghost function DisconnectAll(ix: Index, b: BlockIndex): Undone {
    DisconnectDown(ix, b.block.vtx, 0)
  }

  method DisconnectInputs(db: Index, tx: Tx) returns (ok: bool, db': Index)
    ensures ok ==> DisconnectTx(db, tx) == Undone(db')
    ensures !ok ==> DisconnectTx(db, tx).Failed?
  {
    db' := db;
    if !tx.IsCoinBase() {
      assert tx.vin[..|tx.vin|] == tx.vin;
      for i := 0 to |tx.vin|
        invariant ReleaseAll(db, tx.vin[..i]) == Undone(db')
      {
        assert tx.vin[..i + 1][..i] == tx.vin[..i];
        var prevout := tx.vin[i];
        if prevout.hash in db' {
          var txindex := db'[prevout.hash];
          if prevout.n >= |txindex.vSpent| {
            ReleaseAllStuck(db, tx.vin, i + 1);
            return false, db';
          }
          db' := db'[prevout.hash := txindex.(vSpent := txindex.vSpent[prevout.n := Null])];
        }
      }
    }
    db' := db' - {tx.hash};
    ok := true;
  }

  lemma {:induction false} ReleaseAllStuck(ix: Index, vin: seq<OutPoint>, k: nat)
    requires k <= |vin| && ReleaseAll(ix, vin[..k]).Failed?
    ensures ReleaseAll(ix, vin).Failed?
    decreases |vin| - k
  {
    if k < |vin| {
      assert vin[..k + 1][..k] == vin[..k];
      ReleaseAllStuck(ix, vin, k + 1);
    } else {
      assert vin[..k] == vin;
    }
  }

  /** The loop of DisconnectBlock. */
  method DisconnectTransactions(db: Index, b: BlockIndex) returns (ok: bool, db': Index)
    ensures ok ==> DisconnectAll(db, b) == Undone(db')
    ensures !ok ==> DisconnectAll(db, b).Failed?
  {
    db' := db;
    for i := |b.block.vtx| downto 0
      invariant DisconnectDown(db, b.block.vtx, i) == Undone(db')
    {
      ok, db' := DisconnectInputs(db', b.block.vtx[i]);
      if !ok {
        DisconnectStuck(db, b.block.vtx, i);
        return;
      }
    }
    ok := true;
  }

  lemma {:induction false} DisconnectStuck(ix: Index, vtx: seq<Tx>, k: nat)
    requires k <= |vtx| && DisconnectDown(ix, vtx, k).Failed?
    ensures DisconnectDown(ix, vtx, 0).Failed?
  {
    if k > 0 {
      DisconnectStuck(ix, vtx, k - 1);
    }
  }

  /** No transaction of the block is in the index yet. */
  ghost predicate Fresh(ix: Index, b: BlockIndex) {
    forall k | 0 <= k < |b.block.vtx| :: b.block.vtx[k].hash !in ix
  }

  lemma {:induction false} ConnectTxsKeys(ix: Index, b: BlockIndex, k: nat)
    requires k <= |b.block.vtx|
    ensures ConnectTxs(ix, b, k).Keys == ix.Keys + set i | 0 <= i < k :: b.block.vtx[i].hash
  {
    if k > 0 {
      ConnectTxsKeys(ix, b, k - 1);
      var tx := b.block.vtx[k - 1];
      MarkAllSlots(ConnectTxs(ix, b, k - 1), tx.vin, b.TxPos(k - 1));
      assert (set i | 0 <= i < k :: b.block.vtx[i].hash) == (set i | 0 <= i < k - 1 :: b.block.vtx[i].hash) + {tx.hash};
    }
  }

  /** Disconnecting a fresh block down to transaction `k` gives the index after the first `k`. */
  lemma {:induction false} UndoFrom(w: World, ix: Index, b: BlockIndex, nBestHeight: int, k: nat)
    requires b.Linked() && BlockConnects(w, ix, b, nBestHeight) && Fresh(ix, b) && k <= |b.block.vtx|
    ensures DisconnectDown(ConnectAll(ix, b), b.block.vtx, k) == Undone(ConnectTxs(ix, b, k))
    decreases |b.block.vtx| - k
  {
    if k < |b.block.vtx| {
      UndoFrom(w, ix, b, nBestHeight, k + 1);
      ConnectTxsKeys(ix, b, k);
      assert TxStepOk(w, ix, b, k, nBestHeight);
      ConnectsFree(w, ConnectTxs(ix, b, k), b.block.vtx[k], b, BlockMode(w, b, nBestHeight));
      UndoTx(ConnectTxs(ix, b, k), b.block.vtx[k], b.TxPos(k));
    }
  }

  /** Disconnecting removes what it disconnects and adds nothing. */
  lemma {:induction false} DisconnectKeys(ix: Index, vtx: seq<Tx>, k: nat)
    requires k <= |vtx|
    ensures var r := DisconnectDown(ix, vtx, k);
            r.Undone? ==> r.ix.Keys == ix.Keys - set i | k <= i < |vtx| :: vtx[i].hash
    decreases |vtx| - k
  {
    if k < |vtx| {
      DisconnectKeys(ix, vtx, k + 1);
      if DisconnectDown(ix, vtx, k + 1).Undone? {
        ReleaseAllKeys(DisconnectDown(ix, vtx, k + 1).ix, vtx[k].vin);
        assert (set i | k <= i < |vtx| :: vtx[i].hash) == (set i | k + 1 <= i < |vtx| :: vtx[i].hash) + {vtx[k].hash};
      }
    }
  }

  /** DisconnectBlock takes back ConnectBlock exactly when no transaction of the block had an
      entry before.  A block that overwrites the entry of an older, completely spent
      transaction with the same hash is accepted, and then not taken back: the old entry is
      lost. */
  lemma UndoBlock(w: World, ix: Index, b: BlockIndex, nBestHeight: int)
    requires b.Linked() && BlockConnects(w, ix, b, nBestHeight)
    ensures DisconnectAll(ConnectAll(ix, b), b) == Undone(ix) <==> Fresh(ix, b)
  {
    if Fresh(ix, b) {
      UndoFrom(w, ix, b, nBestHeight, 0);
    } else {
      DisconnectKeys(ConnectAll(ix, b), b.block.vtx, 0);
      var k :| 0 <= k < |b.block.vtx| && b.block.vtx[k].hash in ix;
      assert b.block.vtx[k].hash in set i | 0 <= i < |b.block.vtx| :: b.block.vtx[i].hash;
    }
  }

  /** A block of a coinbase alone. */
  lemma LoneCoinbase(w: World, ix: Index, b: BlockIndex, nBestHeight: int)
    requires b.Linked() && |b.block.vtx| == 1 && CheckBlock(w, b.block) && MayOverwrite(ix, b.block.vtx[0])
    requires ValueOf(b.block.vtx[0].vout) <= ProofOfWorkSubsidy(b.nHeight)
    ensures BlockConnects(w, ix, b, nBestHeight)
    ensures ConnectAll(ix, b) == ix[b.block.vtx[0].hash := NewEntry(b.block.vtx[0], b.TxPos(0))]
    ensures var t := TotalsUpTo(w, ix, b, 1); t.nValueOut == ValueOf(b.block.vtx[0].vout) && t.nValueIn == 0
  {
    var tx := b.block.vtx[0];
    assert tx.IsCoinBase() && ConnectTxs(ix, b, 0) == ix;
    assert TxStepOk(w, ix, b, 0, nBestHeight);
    assert b.block.vtx[..0] == [] && LegacySigOps(b.block.vtx) == tx.nLegacySigOps;
    assert TotalsUpTo(w, ix, b, 0) == Totals(0, 0, 0, 0, 0);
  }

  /** Such a block: a lone coinbase whose hash belongs to a completely spent transaction. */
  lemma OverwriteIsLost(w: World, ix: Index, b: BlockIndex, nBestHeight: int)
    requires b.Linked() && |b.block.vtx| == 1 && CheckBlock(w, b.block)
    requires ValueOf(b.block.vtx[0].vout) <= ProofOfWorkSubsidy(b.nHeight)
    requires b.block.vtx[0].hash in ix && ix[b.block.vtx[0].hash].AllSpent()
    ensures BlockConnects(w, ix, b, nBestHeight)
    ensures DisconnectAll(ConnectAll(ix, b), b) == Undone(ix - {b.block.vtx[0].hash})
  {
    LoneCoinbase(w, ix, b, nBestHeight);
    assert DisconnectDown(ConnectAll(ix, b), b.block.vtx, 1) == Undone(ConnectAll(ix, b));
  }
}
