/** What a flush's cleanup, a prune and a batch do to the mempool store, transaction by transaction. */
module MempoolCommits {
  import opened Chain
  import opened MempoolStore

  function DropSet(m: Mempool, txids: set<Txid>): Mempool {
    Mempool(m.txs - txids,
            m.outputs - (set op | op in m.outputs && op.txid in txids),
            m.inputs - (set h | h in m.hints && h.0 in txids :: h.1),
            set h | h in m.hints && h.0 !in txids)
  }

  /** Dropping one transaction after another is dropping them together, in any order. */
  lemma DropOneMore(m: Mempool, txids: set<Txid>, txid: Txid)
    ensures DropTx(DropSet(m, txids), txid) == DropSet(m, txids + {txid})
  {
    var a, b := DropTx(DropSet(m, txids), txid), DropSet(m, txids + {txid});
    assert a.txs == b.txs && a.hints == b.hints;
    forall op ensures op in a.inputs <==> op in b.inputs {
      assert op in Hinted(DropSet(m, txids), txid) <==> ((txid, op) in m.hints && txid !in txids);
    }
    assert a.inputs == b.inputs;
    assert a.outputs == b.outputs;
  }

  // ----- the store's own steps

  /** The flush's cleanup: each mined transaction's records, one after another. */
  method DropMined(db: MempoolDb, txids: seq<Txid>)
    modifies db
    ensures db.Value() == DropSet(old(db.Value()), Elems(txids))
  {
    DropNone(db.Value());
    assert Elems(txids[..0]) == {};
    for i := 0 to |txids|
      invariant db.Value() == DropSet(old(db.Value()), Elems(txids[..i]))
    {
      DropOneMore(old(db.Value()), Elems(txids[..i]), txids[i]);
      assert Elems(txids[..i + 1]) == Elems(txids[..i]) + {txids[i]};
      hide DropSet, DropTx;
      db.Drop(txids[i]);
    }
    assert txids[..|txids|] == txids;
  }

  lemma DropNone(m: Mempool)
    ensures DropSet(m, {}) == m
  {
  }

  lemma PruneStep(listing: set<Txid>, stored: set<Txid>, todo: set<Txid>, txid: Txid)
    requires todo <= stored && txid in todo
    ensures listing - (stored - (todo - {txid})) == (listing - (stored - todo)) - {txid}
    ensures (stored - (todo - {txid})) - listing ==
      ((stored - todo) - listing) + (if txid in listing then {} else {txid})
    ensures txid in listing - (stored - todo) <==> txid in listing
  {
  }

  lemma ElemsPush(s: seq<Txid>, x: Txid)
    ensures Elems(s + [x]) == Elems(s) + {x}
  {
  }

  lemma InElems(s: seq<Txid>, x: Txid)
    ensures x in s <==> x in Elems(s)
  {
  }

  /** Splits what the store has into listed transactions, spliced out of the listing, and the rest. */
  method CompareTxs(stored: set<Txid>, listing: seq<Txid>, keepOnly: bool) returns (fresher: seq<Txid>, deletedTxs: seq<Txid>)
    requires Distinct(listing)
    ensures Distinct(fresher) && Elems(fresher) == Elems(listing) - stored
    ensures Elems(deletedTxs) == if keepOnly then {} else stored - Elems(listing)
  {
    hide Elems, Distinct, Compared;
    fresher, deletedTxs := listing, [];
    var todo := stored;
    NothingCompared(stored, listing, keepOnly);
    while todo != {}
      invariant todo <= stored && Compared(stored, listing, keepOnly, todo, fresher, deletedTxs)
      decreases |todo|
    {
      var txid :| txid in todo;
      CompareTurn(stored, listing, keepOnly, todo, fresher, deletedTxs, txid);
      if txid in fresher {
        fresher := Spliced(fresher, txid);
      } else if !keepOnly {
        deletedTxs := deletedTxs + [txid];
      }
      todo := todo - {txid};
    }
    AllCompared(stored, listing, keepOnly, fresher, deletedTxs);
  }

  /** Where the comparison stands with `todo` of the stored transactions still to visit. */
  ghost predicate Compared(stored: set<Txid>, listing: seq<Txid>, keepOnly: bool, todo: set<Txid>,
                           fresher: seq<Txid>, deletedTxs: seq<Txid>) {
    && Distinct(fresher) && Elems(fresher) == Elems(listing) - (stored - todo)
    && Elems(deletedTxs) == if keepOnly then {} else (stored - todo) - Elems(listing)
  }

  lemma NothingCompared(stored: set<Txid>, listing: seq<Txid>, keepOnly: bool)
    requires Distinct(listing)
    ensures Compared(stored, listing, keepOnly, stored, listing, [])
  {
  }

  lemma AllCompared(stored: set<Txid>, listing: seq<Txid>, keepOnly: bool, fresher: seq<Txid>, deletedTxs: seq<Txid>)
    requires Compared(stored, listing, keepOnly, {}, fresher, deletedTxs)
    ensures Distinct(fresher) && Elems(fresher) == Elems(listing) - stored
    ensures Elems(deletedTxs) == if keepOnly then {} else stored - Elems(listing)
  {
    hide Elems;
    assert stored - {} == stored;
  }

  lemma CompareTurn(stored: set<Txid>, listing: seq<Txid>, keepOnly: bool, todo: set<Txid>,
                    fresher: seq<Txid>, deletedTxs: seq<Txid>, txid: Txid)
    requires todo <= stored && txid in todo && Compared(stored, listing, keepOnly, todo, fresher, deletedTxs)
    ensures Distinct(fresher)
    ensures txid in fresher ==> Compared(stored, listing, keepOnly, todo - {txid}, Spliced(fresher, txid), deletedTxs)
    ensures txid !in fresher ==>
      Compared(stored, listing, keepOnly, todo - {txid}, fresher, if keepOnly then deletedTxs else deletedTxs + [txid])
  {
    hide Elems, Distinct;
    PruneStep(Elems(listing), stored, todo, txid);
    InElems(fresher, txid);
    ElemsPush(deletedTxs, txid);
    assert txid in fresher <==> txid in Elems(listing);
  }

  /** The prune: stored transactions leave the listing, and, when allowed, unlisted ones leave the store. */
  method DeleteAndCompareTxsNotInList(db: MempoolDb, listing: seq<Txid>, keepOnly: bool) returns (fresher: seq<Txid>)
    requires Distinct(listing)
    modifies db
    ensures db.Value() == DropSet(old(db.Value()), if keepOnly then {} else old(db.txs) - Elems(listing))
    ensures Distinct(fresher) && Elems(fresher) == Elems(listing) - old(db.txs)
  {
    var deletedTxs: seq<Txid>;
    fresher, deletedTxs := CompareTxs(db.txs, listing, keepOnly);
    DropMined(db, deletedTxs);
  }

  function Spliced(list: seq<Txid>, txid: Txid): (r: seq<Txid>)
    requires Distinct(list)
    ensures Distinct(r) && Elems(r) == Elems(list) - {txid}
  {
    if list == [] then []
    else
      assert list == list[..|list| - 1] + [list[|list| - 1]];
      var init := Spliced(list[..|list| - 1], txid);
      if list[|list| - 1] == txid then init
      else
        assert list[|list| - 1] !in Elems(list[..|list| - 1]);
        DistinctAppend(init, [list[|list| - 1]]);
        ElemsAppend(list[..|list| - 1], [list[|list| - 1]]);
        ElemsAppend(init, [list[|list| - 1]]);
        init + [list[|list| - 1]]
  }

  // ----- a batch

  function StageAll(m: Mempool, txs: seq<Tx>): Mempool {
    if txs == [] then m else StageTx(StageAll(m, txs[..|txs| - 1]), txs[|txs| - 1])
  }

  /** A transaction with nothing transparent in it has nothing to stage. */
  predicate Stageable(tx: Tx) {
    tx.ins != [] || tx.outs != []
  }

  /** The fetched transactions to stage; one the node no longer has comes as none. */
  function ToStage(fetched: seq<Option<Tx>>): seq<Tx> {
    if fetched == [] then []
    else
      var last := fetched[|fetched| - 1];
      ToStage(fetched[..|fetched| - 1]) + (if last.Some? && Stageable(last.value) then [last.value] else [])
  }

  predicate NamedAsListed(fetched: seq<Option<Tx>>, txids: seq<Txid>, i: nat)
    requires i < |fetched| == |txids|
  {
    fetched[i].Some? && Stageable(fetched[i].value) ==> fetched[i].value.txid == txids[i]
  }

  lemma {:induction false} ToStageListed(fetched: seq<Option<Tx>>, txids: seq<Txid>)
    requires |fetched| == |txids| && forall i :: 0 <= i < |fetched| ==> NamedAsListed(fetched, txids, i)
    ensures forall tx :: tx in ToStage(fetched) ==> tx.txid in txids
  {
    if fetched != [] {
      var n := |fetched| - 1;
      forall i | 0 <= i < n ensures NamedAsListed(fetched[..n], txids[..n], i) {
        assert NamedAsListed(fetched, txids, i);
      }
      ToStageListed(fetched[..n], txids[..n]);
      assert NamedAsListed(fetched, txids, n);
    }
  }

  /** The transaction is in the store: its record, every output of it, and a mark on every outpoint its inputs
      name, coinbase and non-standard inputs aside. */
  predicate Staged(m: Mempool, tx: Tx) {
    && tx.txid in m.txs
    && (forall v: nat :: v < |tx.outs| ==> Outpoint(tx.txid, v) in m.outputs)
    && forall k :: 0 <= k < |tx.ins| && tx.ins[k].prev.vout != 0xFFFF_FFFF && tx.ins[k].standard ==> tx.ins[k].prev in m.inputs
  }

  lemma StageTxStaged(m: Mempool, tx: Tx)
    ensures Staged(StageTx(m, tx), tx)
  {
    forall k | 0 <= k < |tx.ins| && tx.ins[k].prev.vout != 0xFFFF_FFFF && tx.ins[k].standard
      ensures tx.ins[k].prev in StageTx(m, tx).inputs
    {
      assert Takes(tx.ins[k], tx.ins[k].prev);
      TxTakes(tx, tx.ins[k].prev);
    }
  }

  lemma StagedStays(m: Mempool, tx: Tx, other: Tx)
    requires Staged(m, tx)
    ensures Staged(StageTx(m, other), tx)
  {
  }

  lemma {:induction false} StageAllStaged(m: Mempool, txs: seq<Tx>, i: nat)
    requires i < |txs|
    ensures Staged(StageAll(m, txs), txs[i])
  {
    hide Staged, StageTx;
    var init, last := txs[..|txs| - 1], txs[|txs| - 1];
    if i == |txs| - 1 {
      StageTxStaged(StageAll(m, init), last);
    } else {
      StageAllStaged(m, init, i);
      StagedStays(StageAll(m, init), txs[i], last);
    }
  }

  lemma {:induction false} FetchedStaged(fetched: seq<Option<Tx>>, i: nat)
    requires i < |fetched| && fetched[i].Some? && (fetched[i].value.ins != [] || fetched[i].value.outs != [])
    ensures fetched[i].value in ToStage(fetched)
  {
    if i < |fetched| - 1 {
      FetchedStaged(fetched[..|fetched| - 1], i);
    }
  }

  /** Every fetched transaction that has an input or an output is in the store, under the txid it is listed by. */
  predicate BatchStaged(m: Mempool, fetched: seq<Option<Tx>>, txids: seq<Txid>)
    requires |fetched| == |txids|
  {
    forall i :: 0 <= i < |fetched| && fetched[i].Some? && (fetched[i].value.ins != [] || fetched[i].value.outs != []) ==>
      fetched[i].value.txid == txids[i] && Staged(m, fetched[i].value)
  }

  /** Some fetched transaction that has an input or an output is listed by another txid. */
  predicate Misnamed(fetched: seq<Option<Tx>>, txids: seq<Txid>)
    requires |fetched| == |txids|
  {
    exists i :: 0 <= i < |fetched| && fetched[i].Some? && (fetched[i].value.ins != [] || fetched[i].value.outs != [])
      && fetched[i].value.txid != txids[i]
  }

  lemma BatchDone(m: Mempool, fetched: seq<Option<Tx>>, txids: seq<Txid>)
    requires |fetched| == |txids|
    ensures Misnamed(fetched, txids) <==> !(forall i :: 0 <= i < |fetched| ==> NamedAsListed(fetched, txids, i))
    ensures !Misnamed(fetched, txids) ==> BatchStaged(StageAll(m, ToStage(fetched)), fetched, txids)
  {
    hide Staged, StageAll, ToStage;
    if i :| 0 <= i < |fetched| && !NamedAsListed(fetched, txids, i) {
      assert fetched[i].value.txid != txids[i];
    }
    if Misnamed(fetched, txids) {
      var i :| 0 <= i < |fetched| && fetched[i].Some? && (fetched[i].value.ins != [] || fetched[i].value.outs != [])
        && fetched[i].value.txid != txids[i];
      assert !NamedAsListed(fetched, txids, i);
    }
    forall i | 0 <= i < |fetched| && fetched[i].Some? && (fetched[i].value.ins != [] || fetched[i].value.outs != [])
      ensures Staged(StageAll(m, ToStage(fetched)), fetched[i].value)
    {
      FetchedStaged(fetched, i);
      var j :| 0 <= j < |ToStage(fetched)| && ToStage(fetched)[j] == fetched[i].value;
      StageAllStaged(m, ToStage(fetched), j);
    }
  }

  lemma NothingToStage(m: Mempool)
    ensures StageAll(m, ToStage([])) == m
  {
  }

  lemma ToStageTurn(m: Mempool, fetched: seq<Option<Tx>>, i: nat)
    requires i < |fetched|
    ensures StageAll(m, ToStage(fetched[..i + 1])) ==
      var staged := StageAll(m, ToStage(fetched[..i]));
      if fetched[i].Some? && Stageable(fetched[i].value) then StageTx(staged, fetched[i].value) else staged
  {
    hide StageTx;
    assert fetched[..i + 1][..i] == fetched[..i];
    var list := ToStage(fetched[..i]);
    if fetched[i].Some? && Stageable(fetched[i].value) {
      assert (list + [fetched[i].value])[..|list|] == list;
    } else {
      assert list + [] == list;
    }
  }

  /** Stages a fetched batch, all of it, or none when one of its transactions does not have the txid it is listed
      by. */
  method StageMempoolBatch(db: MempoolDb, fetched: seq<Option<Tx>>, txids: seq<Txid>) returns (ok: bool)
    requires |fetched| == |txids|
    modifies db
    ensures ok <==> forall i :: 0 <= i < |fetched| ==> NamedAsListed(fetched, txids, i)
    ensures db.Value() == if ok then StageAll(old(db.Value()), ToStage(fetched)) else old(db.Value())
    ensures ok <==> !Misnamed(fetched, txids)
    ensures ok ==> BatchStaged(db.Value(), fetched, txids)
  {
    hide StageTx, Misnamed, BatchStaged, StageAll, ToStage;
    var before := db.Value();
    NothingToStage(before);
    assert fetched[..0] == [];
    BatchDone(before, fetched, txids);
    for i := 0 to |fetched|
      invariant db.Value() == StageAll(before, ToStage(fetched[..i]))
      invariant forall j :: 0 <= j < i ==> NamedAsListed(fetched, txids, j)
    {
      ToStageTurn(before, fetched, i);
      var tx := fetched[i];
      if tx.Some? && Stageable(tx.value) {
        if tx.value.txid != txids[i] {
          assert !NamedAsListed(fetched, txids, i);
          db.txs, db.outputs, db.inputs, db.hints := before.txs, before.outputs, before.inputs, before.hints;
          return false;
        }
        db.ParseTransaction(tx.value);
      }
    }
    assert fetched[..|fetched|] == fetched;
    ok := true;
  }
}
