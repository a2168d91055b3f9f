/** What connecting and disconnecting a transaction does to the spent index, as
    functions on values, and the facts about them that the chain state rests on. */
module SpentIndex {
  import opened Transactions

  /** The slot that records who spends `o`. */
  predicate HasSlot(ix: Index, o: OutPoint) {
    o.hash in ix && o.n < |ix[o.hash].vSpent|
  }

  predicate IsFree(ix: Index, o: OutPoint) {
    HasSlot(ix, o) && ix[o.hash].vSpent[o.n] == Null
  }

  function Mark(ix: Index, o: OutPoint, p: DiskTxPos): Index {
    if HasSlot(ix, o) then ix[o.hash := ix[o.hash].(vSpent := ix[o.hash].vSpent[o.n := p])] else ix
  }

  function MarkAll(ix: Index, vin: seq<OutPoint>, p: DiskTxPos): Index {
    if vin == [] then ix else Mark(MarkAll(ix, vin[..|vin| - 1], p), vin[|vin| - 1], p)
  }

  function ConnectTx(ix: Index, tx: Tx, p: DiskTxPos): Index {
    (if tx.IsCoinBase() then ix else MarkAll(ix, tx.vin, p))[tx.hash := NewEntry(tx, p)]
  }

  /** DisconnectInputs: `None` is its error return for an input whose slot does not exist;
      an input whose whole entry is missing is skipped. */
  datatype Undone = Failed | Undone(ix: Index)

  function ReleaseAll(ix: Index, vin: seq<OutPoint>): Undone {
    if vin == [] then Undone(ix)
    else match ReleaseAll(ix, vin[..|vin| - 1])
      case Failed => Failed
      case Undone(jx) =>
        var o := vin[|vin| - 1];
        if o.hash !in jx then Undone(jx)
        else if o.n >= |jx[o.hash].vSpent| then Failed
        else Undone(Mark(jx, o, Null))
  }

  function DisconnectTx(ix: Index, tx: Tx): Undone {
    var r := if tx.IsCoinBase() then Undone(ix) else ReleaseAll(ix, tx.vin);
    if r.Failed? then Failed else Undone(r.ix - {tx.hash})
  }

  // ----- shape of an index

  /** Same transactions at the same places with the same number of outputs. */
  ghost predicate SameShape(a: Index, b: Index) {
    && a.Keys == b.Keys
    && forall h | h in a :: a[h].pos == b[h].pos && |a[h].vSpent| == |b[h].vSpent|
  }

  predicate Distinct(vin: seq<OutPoint>) {
    forall i, j | 0 <= i < j < |vin| :: vin[i] != vin[j]
  }

  /** MarkAll writes exactly the slots named by its inputs. */
  lemma {:induction false} MarkAllSlots(ix: Index, vin: seq<OutPoint>, p: DiskTxPos)
    ensures SameShape(ix, MarkAll(ix, vin, p))
    ensures forall o: OutPoint | HasSlot(ix, o) ::
              MarkAll(ix, vin, p)[o.hash].vSpent[o.n] == if o in vin then p else ix[o.hash].vSpent[o.n]
  {
    if vin != [] {
      var k := |vin| - 1;
      MarkAllSlots(ix, vin[..k], p);
      assert forall o :: o in vin <==> o in vin[..k] || o == vin[k];
    }
  }

  lemma SameSlots(a: Index, b: Index)
    requires SameShape(a, b)
    requires forall o: OutPoint | HasSlot(a, o) :: a[o.hash].vSpent[o.n] == b[o.hash].vSpent[o.n]
    ensures a == b
  {
    forall h | h in a ensures a[h] == b[h] {
      forall n | 0 <= n < |a[h].vSpent| ensures a[h].vSpent[n] == b[h].vSpent[n] {
        assert HasSlot(a, OutPoint(h, n));
      }
    }
  }

  /** ReleaseAll clears exactly the slots named by its inputs, and succeeds when they exist. */
  lemma {:induction false} ReleaseAllSlots(ix: Index, vin: seq<OutPoint>)
    requires forall i | 0 <= i < |vin| :: HasSlot(ix, vin[i])
    ensures ReleaseAll(ix, vin) == Undone(MarkAll(ix, vin, Null))
  {
    if vin != [] {
      ReleaseAllSlots(ix, vin[..|vin| - 1]);
      MarkAllSlots(ix, vin[..|vin| - 1], Null);
      assert HasSlot(ix, vin[|vin| - 1]);
    }
  }

  /** ReleaseAll never adds or removes an entry. */
  lemma {:induction false} ReleaseAllKeys(ix: Index, vin: seq<OutPoint>)
    ensures ReleaseAll(ix, vin).Undone? ==> SameShape(ix, ReleaseAll(ix, vin).ix)
  {
    if vin != [] {
      ReleaseAllKeys(ix, vin[..|vin| - 1]);
    }
  }

  /** The outputs that `tx` spends are free, each a different one. */
  predicate InputsFree(ix: Index, tx: Tx) {
    tx.IsCoinBase() || ((forall i | 0 <= i < |tx.vin| :: IsFree(ix, tx.vin[i])) && Distinct(tx.vin))
  }

  /** Marking free slots and clearing them again changes nothing. */
  lemma MarkAndClear(ix: Index, vin: seq<OutPoint>, p: DiskTxPos, jx: Index)
    requires forall i | 0 <= i < |vin| :: IsFree(ix, vin[i])
    requires SameShape(ix, jx)
    requires forall o: OutPoint | HasSlot(ix, o) ::
               jx[o.hash].vSpent[o.n] == if o in vin then p else ix[o.hash].vSpent[o.n]
    ensures MarkAll(jx, vin, Null) == ix
  {
    MarkAllSlots(jx, vin, Null);
    var kx := MarkAll(jx, vin, Null);
    forall o: OutPoint | HasSlot(ix, o) ensures ix[o.hash].vSpent[o.n] == kx[o.hash].vSpent[o.n] {
      assert HasSlot(jx, o);
      if o in vin {
        var i :| 0 <= i < |vin| && vin[i] == o;
        assert IsFree(ix, vin[i]);
      }
    }
    SameSlots(ix, kx);
  }

  /** Entries that no input names do not matter to marking. */
  lemma {:induction false} MarkAllApart(ix: Index, vin: seq<OutPoint>, p: DiskTxPos, h: Txid, e: TxIndex)
    requires h !in ix && forall i | 0 <= i < |vin| :: vin[i].hash != h
    ensures MarkAll(ix[h := e], vin, p) == MarkAll(ix, vin, p)[h := e] && h !in MarkAll(ix, vin, p)
  {
    if vin != [] {
      MarkAllApart(ix, vin[..|vin| - 1], p, h, e);
    }
  }

  /** A transaction whose inputs were all free, and whose hash the index does not know, is
      taken back exactly. */
  lemma UndoTx(ix: Index, tx: Tx, p: DiskTxPos)
    requires tx.hash !in ix && InputsFree(ix, tx)
    ensures DisconnectTx(ConnectTx(ix, tx, p), tx) == Undone(ix)
  {
    hide MarkAll, ReleaseAll;
    var jx := ConnectTx(ix, tx, p);
    if tx.IsCoinBase() {
      assert jx - {tx.hash} == ix;
    } else {
      MarkAllSlots(ix, tx.vin, p);
      forall i | 0 <= i < |tx.vin| ensures HasSlot(jx, tx.vin[i]) && tx.vin[i].hash != tx.hash {
        assert IsFree(ix, tx.vin[i]);
      }
      ReleaseAllSlots(jx, tx.vin);
      MarkAndClear(ix, tx.vin, p, MarkAll(ix, tx.vin, p));
      MarkAllApart(MarkAll(ix, tx.vin, p), tx.vin, Null, tx.hash, NewEntry(tx, p));
      assert ix[tx.hash := NewEntry(tx, p)] - {tx.hash} == ix;
    }
  }
}
