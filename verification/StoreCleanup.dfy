/** The store's scans: what a rollback stages for one block, and what ageing a block out stages.

    A scan reads the durable records only; its writes go to the open batch. Each method is
    specified by the write it leaves under every key: the one its own scan makes there, or else the one
    that was there before. The order in which a scan visits its keys makes no difference to that, which
    is what the step lemmas show. */
module StoreCleanup {
  import opened Chain
  import opened Index
  import opened StoreKeys
  import opened LevelUpStore

  /** The keys one prefix scan over a block visits. */
  function ScanZ(db: Db, bh: BlockHash): set<Key> { set k | k in db && k.Z? && k.bh == bh }
  function ScanK(db: Db, bh: BlockHash): set<Key> { set k | k in db && k.K? && k.bh == bh }
  function ScanM(db: Db, bh: BlockHash): set<Key> { set k | k in db && k.M? && k.bh == bh }
  function ScanW(db: Db, bh: BlockHash): set<Key> { set k | k in db && k.W? && k.bh == bh }
  function ScanY(db: Db, bh: BlockHash): set<Key> { set k | k in db && k.Y? && k.bh == bh }

  /** A later write over an earlier one. */
  function Over(w: Option<Write>, earlier: Option<Write>): Option<Write> {
    if w.Some? then w else earlier
  }

  function WriteIf(c: bool, w: Write): Option<Write> {
    if c then Some(w) else None
  }

  /** Removing first-seen records: each visited Z record and the S record of its script. */
  function ScriptWrite(visited: set<Key>, bh: BlockHash, k: Key): Option<Write> {
    match k
    case S(script) => WriteIf(Z(bh, script) in visited, Del)
    case _ => WriteIf(k in visited, Del)
  }

  ghost predicate ScriptsRemoved(before: Batch, after: Batch, visited: set<Key>, bh: BlockHash) {
    forall k :: Get(after, k) == Over(ScriptWrite(visited, bh, k), Get(before, k))
  }

  lemma ScriptStep(before: Batch, after: Batch, visited: set<Key>, bh: BlockHash, k: Key)
    requires ScriptsRemoved(before, after, visited, bh)
    requires k.Z? && k.bh == bh && (forall v :: v in visited ==> v.Z?)
    ensures ScriptsRemoved(before, after[S(k.script) := Del][k := Del], visited + {k}, bh)
  {
    var after' := after[S(k.script) := Del][k := Del];
    forall q ensures Get(after', q) == Over(ScriptWrite(visited + {k}, bh, q), Get(before, q)) {
      assert Get(after, q) == Over(ScriptWrite(visited, bh, q), Get(before, q));
    }
  }

  method RemoveOutputScriptsInBlock(store: LevelUpStore, bh: BlockHash)
    requires store.transactionArray.Some?
    modifies store`transactionArray, store`db, store`knownScripts
    ensures store.transactionArray.Some? && store.db == old(store.db)
    ensures store.knownScripts == if ScanZ(store.db, bh) == {} then old(store.knownScripts) else {}
    ensures ScriptsRemoved(old(store.transactionArray).value, store.transactionArray.value, ScanZ(store.db, bh), bh)
  {
    var todo := ScanZ(store.db, bh);
    var deleted := 0;
    ghost var all := todo;
    while todo != {}
      invariant store.transactionArray.Some? && store.db == old(store.db)
      invariant store.knownScripts == old(store.knownScripts)
      invariant todo <= all && (deleted == 0 <==> todo == all)
      invariant ScriptsRemoved(old(store.transactionArray).value, store.transactionArray.value, all - todo, bh)
      decreases |todo|
    {
      var k :| k in todo;
      ScriptStep(old(store.transactionArray).value, store.transactionArray.value, all - todo, bh, k);
      hide ScriptsRemoved;
      assert (all - todo) + {k} == all - (todo - {k});
      store.AddTransaction(S(k.script), Del);
      store.AddTransaction(k, Del);
      todo := todo - {k};
      deleted := deleted + 1;
    }
    assert all - todo == all;
    if deleted > 0 {
      store.knownScripts := {};
    }
  }

  /** Restoring a block's archive: each visited record goes, and its output or hint comes back. */
  function RestoreWrite(db: Db, visited: set<Key>, bh: BlockHash, recover: bool, k: Key): Option<Write> {
    if k in visited then Some(Del)
    else if recover && k.O? && K(bh, k.script, k.op) in visited && K(bh, k.script, k.op) in db then
      Some(Put(db[K(bh, k.script, k.op)]))
    else if recover && k.H? && M(bh, k.op) in visited && M(bh, k.op) in db then
      Some(Put(db[M(bh, k.op)]))
    else None
  }

  ghost predicate Restored(before: Batch, after: Batch, db: Db, visited: set<Key>, bh: BlockHash, recover: bool) {
    forall k :: Get(after, k) == Over(RestoreWrite(db, visited, bh, recover, k), Get(before, k))
  }

  function Restores(k: Key): Key
    requires k.K? || k.M?
  {
    if k.M? then H(k.op) else O(k.script, k.op)
  }

  ghost predicate Archives(keys: set<Key>) {
    forall k :: k in keys ==> k.K? || k.M?
  }

  lemma RestoreStep(before: Batch, after: Batch, db: Db, visited: set<Key>, bh: BlockHash, recover: bool, k: Key)
    requires Restored(before, after, db, visited, bh, recover)
    requires (k.K? || k.M?) && k.bh == bh && k in db && Archives(visited)
    ensures Restored(before, (if recover then after[Restores(k) := Put(db[k])] else after)[k := Del],
                     db, visited + {k}, bh, recover)
  {
    var after' := (if recover then after[Restores(k) := Put(db[k])] else after)[k := Del];
    forall q ensures Get(after', q) == Over(RestoreWrite(db, visited + {k}, bh, recover, q), Get(before, q)) {
    }
  }

  method ProcessDeletedOutputsInDb(store: LevelUpStore, bh: BlockHash, recover: bool, processOutputHints: bool)
    requires store.transactionArray.Some?
    modifies store`transactionArray, store`db
    ensures store.transactionArray.Some? && store.db == old(store.db)
    ensures Restored(old(store.transactionArray).value, store.transactionArray.value, store.db,
                     if processOutputHints then ScanM(store.db, bh) else ScanK(store.db, bh), bh, recover)
  {
    var todo := if processOutputHints then ScanM(store.db, bh) else ScanK(store.db, bh);
    ghost var all := todo;
    while todo != {}
      invariant store.transactionArray.Some? && store.db == old(store.db)
      invariant todo <= all
      invariant Restored(old(store.transactionArray).value, store.transactionArray.value, store.db, all - todo, bh, recover)
      decreases |todo|
    {
      var k :| k in todo;
      RestoreStep(old(store.transactionArray).value, store.transactionArray.value, store.db, all - todo, bh, recover, k);
      hide Restored;
      assert (all - todo) + {k} == all - (todo - {k});
      if recover {
        store.AddTransaction(if processOutputHints then H(k.op) else O(k.script, k.op), Put(store.db[k]));
      }
      store.AddTransaction(k, Del);
      todo := todo - {k};
    }
    assert all - todo == all;
  }

  /** The in-memory part of a restore: values dropped from the batch by spends of this block. */
  function RestoreStaged(batch: Batch, inner: map<Key, Value>): Batch {
    batch + map k | k in inner && !(k in batch && batch[k].Del?) :: Put(inner[k])
  }

  /** Restores (or just forgets) everything the block spent. */
  method ProcessDeletedOutputs(store: LevelUpStore, bh: BlockHash, recover: bool)
    requires store.transactionArray.Some?
    modifies store`transactionArray, store`db, store`deletedTransactionArray
    ensures store.transactionArray.Some? && store.db == old(store.db)
    ensures bh !in old(store.deletedTransactionArray) ==>
      && store.deletedTransactionArray == old(store.deletedTransactionArray)
      && exists mid ::
           && Restored(old(store.transactionArray).value, mid, store.db, ScanK(store.db, bh), bh, recover)
           && Restored(mid, store.transactionArray.value, store.db, ScanM(store.db, bh), bh, recover)
  {
    if bh in store.deletedTransactionArray {
      if recover {
        store.transactionArray := Some(RestoreStaged(store.transactionArray.value, store.deletedTransactionArray[bh]));
      }
      store.deletedTransactionArray := store.deletedTransactionArray - {bh};
    }
    ProcessDeletedOutputsInDb(store, bh, recover, false);
    ProcessDeletedOutputsInDb(store, bh, recover, true);
  }

  /** Removing what a block created: each visited W record, and its output and hint. */
  function CreatedWrite(db: Db, visited: set<Key>, bh: BlockHash, k: Key): Option<Write> {
    match k
    case O(script, op) => WriteIf(W(bh, op) in visited && W(bh, op) in db && db[W(bh, op)] == VScript(script), Del)
    case H(op) => WriteIf(W(bh, op) in visited, Del)
    case _ => WriteIf(k in visited, Del)
  }

  ghost predicate CreatedRemoved(before: Batch, after: Batch, db: Db, visited: set<Key>, bh: BlockHash) {
    forall k :: Get(after, k) == Over(CreatedWrite(db, visited, bh, k), Get(before, k))
  }

  lemma CreatedStep(before: Batch, after: Batch, db: Db, visited: set<Key>, bh: BlockHash, k: Key)
    requires CreatedRemoved(before, after, db, visited, bh)
    requires k.W? && k.bh == bh && k in db && db[k].VScript? && (forall v :: v in visited ==> v.W?)
    ensures CreatedRemoved(before, after[O(db[k].script, k.op) := Del][H(k.op) := Del][k := Del], db, visited + {k}, bh)
  {
    var after' := after[O(db[k].script, k.op) := Del][H(k.op) := Del][k := Del];
    forall q ensures Get(after', q) == Over(CreatedWrite(db, visited + {k}, bh, q), Get(before, q)) {
      assert Get(after, q) == Over(CreatedWrite(db, visited, bh, q), Get(before, q));
    }
  }

  method RemoveCreatedOutputsInBlock(store: LevelUpStore, bh: BlockHash)
    requires store.transactionArray.Some?
    requires forall k :: k in ScanW(store.db, bh) ==> store.db[k].VScript?
    modifies store`transactionArray, store`db
    ensures store.transactionArray.Some? && store.db == old(store.db)
    ensures CreatedRemoved(old(store.transactionArray).value, store.transactionArray.value, store.db, ScanW(store.db, bh), bh)
  {
    var todo := ScanW(store.db, bh);
    ghost var all := todo;
    while todo != {}
      invariant store.transactionArray.Some? && store.db == old(store.db)
      invariant todo <= all
      invariant CreatedRemoved(old(store.transactionArray).value, store.transactionArray.value, store.db, all - todo, bh)
      decreases |todo|
    {
      var k :| k in todo;
      CreatedStep(old(store.transactionArray).value, store.transactionArray.value, store.db, all - todo, bh, k);
      hide CreatedRemoved;
      assert (all - todo) + {k} == all - (todo - {k});
      store.AddTransaction(O(store.db[k].script, k.op), Del);
      store.AddTransaction(H(k.op), Del);
      store.AddTransaction(k, Del);
      todo := todo - {k};
    }
    assert all - todo == all;
  }

  /** Reversing a transaction's records: T and X only while they still name this block. */
  function TxWrite(db: Db, txids: set<Txid>, bh: BlockHash, k: Key): Option<Write> {
    match k
    case T(t) =>
      WriteIf(t in txids && (Y(bh, t) in db ==> k in db && db[k].VTx? && db[k].bh == bh), Del)
    case X(t) =>
      WriteIf(t in txids && (Y(bh, t) in db ==> k in db && db[k].VHash? && db[k].bh == bh), Del)
    case Y(b, t) => WriteIf(b == bh && t in txids && k in db, Del)
    case _ => None
  }

  ghost predicate TxsRemoved(before: Batch, after: Batch, db: Db, txids: set<Txid>, bh: BlockHash) {
    forall k :: Get(after, k) == Over(TxWrite(db, txids, bh, k), Get(before, k))
  }

  /** The batch after one transaction's records are reversed. */
  function WithoutTx(before: Batch, db: Db, txid: Txid, bh: BlockHash): Batch {
    if Y(bh, txid) !in db then before[X(txid) := Del][T(txid) := Del]
    else
      var b1 := if T(txid) in db && db[T(txid)].VTx? && db[T(txid)].bh == bh then before[T(txid) := Del] else before;
      var b2 := if X(txid) in db && db[X(txid)].VHash? && db[X(txid)].bh == bh then b1[X(txid) := Del] else b1;
      b2[Y(bh, txid) := Del]
  }

  lemma TxRecordsGone(before: Batch, db: Db, txid: Txid, bh: BlockHash)
    ensures TxsRemoved(before, WithoutTx(before, db, txid, bh), db, {txid}, bh)
  {
    forall k ensures Get(WithoutTx(before, db, txid, bh), k) == Over(TxWrite(db, {txid}, bh, k), Get(before, k)) {
    }
  }

  method DeleteTxBlockRecord(store: LevelUpStore, txid: Txid, bh: BlockHash)
    requires store.transactionArray.Some?
    modifies store`transactionArray, store`db
    ensures store.transactionArray.Some? && store.db == old(store.db)
    ensures TxsRemoved(old(store.transactionArray).value, store.transactionArray.value, store.db, {txid}, bh)
  {
    hide ForwardBatch, TxWrite, TxsRemoved;
    ghost var before := store.transactionArray.value;
    TxRecordsGone(before, store.db, txid, bh);
    if Y(bh, txid) !in store.db {
      store.AddTransaction(X(txid), Del);
      store.AddTransaction(T(txid), Del);
    } else {
      if T(txid) in store.db && store.db[T(txid)].VTx? && store.db[T(txid)].bh == bh {
        store.AddTransaction(T(txid), Del);
      }
      if X(txid) in store.db && store.db[X(txid)].VHash? && store.db[X(txid)].bh == bh {
        store.AddTransaction(X(txid), Del);
      }
      store.AddTransaction(Y(bh, txid), Del);
    }
  }

  lemma TxStep(before: Batch, mid: Batch, after: Batch, db: Db, txids: set<Txid>, txid: Txid, bh: BlockHash)
    requires TxsRemoved(before, mid, db, txids, bh) && TxsRemoved(mid, after, db, {txid}, bh)
    ensures TxsRemoved(before, after, db, txids + {txid}, bh)
  {
  }

  function TxidsIn(keys: set<Key>): set<Txid> {
    set k | k in keys && k.W? :: k.op.txid
  }

  method DeleteTransactionsInBlock(store: LevelUpStore, bh: BlockHash)
    requires store.transactionArray.Some?
    modifies store`transactionArray, store`db
    ensures store.transactionArray.Some? && store.db == old(store.db)
    ensures TxsRemoved(old(store.transactionArray).value, store.transactionArray.value, store.db, TxidsIn(ScanW(store.db, bh)), bh)
  {
    var todo := ScanW(store.db, bh);
    var seenTxids: set<Txid> := {};
    ghost var all := todo;
    while todo != {}
      invariant store.transactionArray.Some? && store.db == old(store.db)
      invariant todo <= all && seenTxids == TxidsIn(all - todo)
      invariant TxsRemoved(old(store.transactionArray).value, store.transactionArray.value, store.db, seenTxids, bh)
      decreases |todo|
    {
      var k :| k in todo;
      ghost var before := all - todo;
      todo := todo - {k};
      assert all - todo == before + {k};
      assert TxidsIn(before + {k}) == TxidsIn(before) + {k.op.txid};
      if k.op.txid !in seenTxids {
        ghost var mid := store.transactionArray.value;
        DeleteTxBlockRecord(store, k.op.txid, bh);
        TxStep(old(store.transactionArray).value, mid, store.transactionArray.value, store.db, seenTxids, k.op.txid, bh);
        seenTxids := seenTxids + {k.op.txid};
      } else {
        assert seenTxids + {k.op.txid} == seenTxids;
      }
    }
    assert all - todo == all;
  }

  /** Removing a block: its transactions' records, then its own. */
  method DeleteBlock(store: LevelUpStore, bh: BlockHash)
    requires store.transactionArray.Some?
    modifies store`transactionArray, store`db
    ensures store.transactionArray.Some? && store.db == old(store.db)
    ensures exists mid ::
      && TxsRemoved(old(store.transactionArray).value, mid, store.db, TxidsIn(ScanW(store.db, bh)), bh)
      && store.transactionArray.value == mid[B(bh) := Del]
  {
    DeleteTransactionsInBlock(store, bh);
    store.AddTransaction(B(bh), Del);
  }

  /** Takes a block out of the stored window: cancels a staged entry, or deletes a durable one. */
  method RemoveLastStoredBlock(store: LevelUpStore, bh: BlockHash)
    requires store.transactionArray.Some?
    modifies store`transactionArray, store`db
    ensures store.transactionArray.Some? && store.db == old(store.db)
    ensures forall k :: k != N(bh) ==> Get(store.transactionArray.value, k) == Get(old(store.transactionArray).value, k)
    ensures Get(store.transactionArray.value, N(bh)) ==
      if Get(old(store.transactionArray).value, N(bh)) == Some(Put(VEmpty)) then None else Some(Del)
    ensures Get(old(store.transactionArray).value, N(bh)) == None ==>
      store.transactionArray == Some(old(store.transactionArray).value[N(bh) := Del])
  {
    var batch := store.transactionArray.value;
    if N(bh) in batch && batch[N(bh)] == Put(VEmpty) {
      store.transactionArray := Some(batch - {N(bh)});
    } else {
      store.AddTransaction(N(bh), Del);
    }
  }

  // ----- ageing out

  ghost predicate KeysDeleted(before: Batch, after: Batch, visited: set<Key>) {
    forall k :: Get(after, k) == Over(WriteIf(k in visited, Del), Get(before, k))
  }

  method DeleteScanned(store: LevelUpStore, keys: set<Key>)
    requires store.transactionArray.Some?
    modifies store`transactionArray, store`db
    ensures store.transactionArray.Some? && store.db == old(store.db)
    ensures KeysDeleted(old(store.transactionArray).value, store.transactionArray.value, keys)
  {
    var todo := keys;
    while todo != {}
      invariant store.transactionArray.Some? && store.db == old(store.db)
      invariant todo <= keys
      invariant KeysDeleted(old(store.transactionArray).value, store.transactionArray.value, keys - todo)
      decreases |todo|
    {
      var k :| k in todo;
      store.AddTransaction(k, Del);
      todo := todo - {k};
    }
    assert keys - todo == keys;
  }

  /** Drops a block's W records and leaves its outputs alone. */
  method RemoveCreatedOutputsBlockIndexOnly(store: LevelUpStore, bh: BlockHash)
    requires store.transactionArray.Some?
    modifies store`transactionArray, store`db
    ensures store.transactionArray.Some? && store.db == old(store.db)
    ensures KeysDeleted(old(store.transactionArray).value, store.transactionArray.value, ScanW(store.db, bh))
  {
    DeleteScanned(store, ScanW(store.db, bh));
  }

  /** Drops a block's Z records and leaves the first-seen records alone. */
  method RemoveOutputScriptsBlockIndexOnly(store: LevelUpStore, bh: BlockHash)
    requires store.transactionArray.Some?
    modifies store`transactionArray, store`db
    ensures store.transactionArray.Some? && store.db == old(store.db)
    ensures KeysDeleted(old(store.transactionArray).value, store.transactionArray.value, ScanZ(store.db, bh))
  {
    DeleteScanned(store, ScanZ(store.db, bh));
  }

  /** Drops a block's Y records and leaves the transaction records alone. */
  method RemoveTxBlockRecoveryIndexOnly(store: LevelUpStore, bh: BlockHash)
    requires store.transactionArray.Some?
    modifies store`transactionArray, store`db
    ensures store.transactionArray.Some? && store.db == old(store.db)
    ensures KeysDeleted(old(store.transactionArray).value, store.transactionArray.value, ScanY(store.db, bh))
  {
    DeleteScanned(store, ScanY(store.db, bh));
  }
}
