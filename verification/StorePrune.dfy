/** Ageing blocks out of the undo window in the store: the batch it stages, laid over the
    durable records, is the index pruned of those blocks.

    Pruning forgets how to undo a block and leaves what the block did: its K, M, W, Z, Y and N records
    go, its outputs, first-seen heights, transactions and block record stay. Blocks may be listed
    in any order and more than once. */
module StorePrune {
  import opened Chain
  import opened Index
  import opened StoreKeys
  import opened LevelUpStore
  import opened StoreCleanup

  /** A record that only the rollback of `bh` reads. */
  predicate UndoKey(k: Key, bh: BlockHash) {
    (k.K? || k.M? || k.W? || k.Z? || k.Y? || k.N?) && k.bh == bh
  }

  predicate OnlyDeletes(batch: Batch) {
    forall k :: k in batch ==> batch[k].Del?
  }

  /** The batch now also drops every undo record of `bh`, and nothing else. */
  ghost predicate Forgotten(db: Db, before: Batch, after: Batch, bh: BlockHash) {
    forall k :: Seen(db, after, k) == if UndoKey(k, bh) then None else Seen(db, before, k)
  }

  lemma PruneChain(db: Db, bh: BlockHash, b0: Batch, b1: Batch, b2: Batch, b3: Batch, b4: Batch, b5: Batch, b6: Batch)
    requires OnlyDeletes(b0)
    requires Restored(b0, b1, db, ScanK(db, bh), bh, false) && Restored(b1, b2, db, ScanM(db, bh), bh, false)
    requires (forall k :: k != N(bh) ==> Get(b3, k) == Get(b2, k)) && Get(b3, N(bh)) == Some(Del)
    requires KeysDeleted(b3, b4, ScanW(db, bh)) && KeysDeleted(b4, b5, ScanZ(db, bh)) && KeysDeleted(b5, b6, ScanY(db, bh))
    ensures OnlyDeletes(b6) && Forgotten(db, b0, b6, bh)
  {
    forall k
      ensures Seen(db, b6, k) == if UndoKey(k, bh) then None else Seen(db, b0, k)
      ensures k in b6 ==> b6[k].Del?
    {
      PruneChainAt(db, bh, b0, b1, b2, b3, b4, b5, b6, k);
    }
  }

  lemma PruneChainAt(db: Db, bh: BlockHash, b0: Batch, b1: Batch, b2: Batch, b3: Batch, b4: Batch, b5: Batch, b6: Batch,
                     k: Key)
    requires k in b0 ==> b0[k].Del?
    requires Restored(b0, b1, db, ScanK(db, bh), bh, false) && Restored(b1, b2, db, ScanM(db, bh), bh, false)
    requires (k != N(bh) ==> Get(b3, k) == Get(b2, k)) && Get(b3, N(bh)) == Some(Del)
    requires KeysDeleted(b3, b4, ScanW(db, bh)) && KeysDeleted(b4, b5, ScanZ(db, bh)) && KeysDeleted(b5, b6, ScanY(db, bh))
    ensures Seen(db, b6, k) == if UndoKey(k, bh) then None else Seen(db, b0, k)
    ensures k in b6 ==> b6[k].Del?
  {
    assert Get(b1, k) == Over(RestoreWrite(db, ScanK(db, bh), bh, false, k), Get(b0, k));
    assert Get(b2, k) == Over(RestoreWrite(db, ScanM(db, bh), bh, false, k), Get(b1, k));
    assert Get(b4, k) == Over(WriteIf(k in ScanW(db, bh), Del), Get(b3, k));
    assert Get(b5, k) == Over(WriteIf(k in ScanZ(db, bh), Del), Get(b4, k));
    assert Get(b6, k) == Over(WriteIf(k in ScanY(db, bh), Del), Get(b5, k));
    hide Restored, KeysDeleted;
  }

  /** Drops one aged-out block's undo records into the open batch. */
  method PruneAgedBlockRecords(store: LevelUpStore, bh: BlockHash)
    requires store.transactionArray.Some? && store.deletedTransactionArray == map[]
    requires OnlyDeletes(store.transactionArray.value)
    modifies store`transactionArray, store`db, store`deletedTransactionArray
    ensures store.transactionArray.Some? && store.db == old(store.db) && store.deletedTransactionArray == map[]
    ensures OnlyDeletes(store.transactionArray.value)
    ensures Forgotten(store.db, old(store.transactionArray).value, store.transactionArray.value, bh)
  {
    ghost var b0 := store.transactionArray.value;
    ProcessDeletedOutputs(store, bh, false);
    ghost var b2 := store.transactionArray.value;
    ghost var b1 :| Restored(b0, b1, store.db, ScanK(store.db, bh), bh, false)
                 && Restored(b1, b2, store.db, ScanM(store.db, bh), bh, false);
    DeletesStay(store.db, b0, b1, ScanK(store.db, bh), bh);
    DeletesStay(store.db, b1, b2, ScanM(store.db, bh), bh);
    RemoveLastStoredBlock(store, bh);
    ghost var b3 := store.transactionArray.value;
    RemoveCreatedOutputsBlockIndexOnly(store, bh);
    ghost var b4 := store.transactionArray.value;
    RemoveOutputScriptsBlockIndexOnly(store, bh);
    ghost var b5 := store.transactionArray.value;
    RemoveTxBlockRecoveryIndexOnly(store, bh);
    PruneChain(store.db, bh, b0, b1, b2, b3, b4, b5, store.transactionArray.value);
  }

  lemma DeletesStay(db: Db, before: Batch, after: Batch, visited: set<Key>, bh: BlockHash)
    requires OnlyDeletes(before) && Restored(before, after, db, visited, bh, false)
    ensures OnlyDeletes(after)
  {
    forall k | k in after ensures after[k].Del? {
      assert Get(after, k) == Over(RestoreWrite(db, visited, bh, false, k), Get(before, k));
    }
  }

  lemma ForgottenAt(ix: Index, aged: set<BlockHash>, bh: BlockHash, k: Key)
    requires !Meta(k)
    ensures At(Prune(ix, aged + {bh}), k) == if UndoKey(k, bh) then None else At(Prune(ix, aged), k)
  {
  }

  /** Forgetting one more block prunes it from the index. */
  lemma ForgottenHolds(db: Db, before: Batch, after: Batch, ix: Index, aged: set<BlockHash>, bh: BlockHash)
    requires Holds(Overlay(db, before), Prune(ix, aged)) && Forgotten(db, before, after, bh)
    ensures Holds(Overlay(db, after), Prune(ix, aged + {bh}))
  {
    forall k | !Meta(k) ensures Get(Overlay(db, after), k) == At(Prune(ix, aged + {bh}), k) {
      ForgottenAt(ix, aged, bh, k);
      assert Get(Overlay(db, after), k) == Seen(db, after, k);
      assert Get(Overlay(db, before), k) == Seen(db, before, k);
      assert Get(Overlay(db, before), k) == At(Prune(ix, aged), k);
      hide At, Overlay, Prune, UndoKey;
    }
  }

  lemma PruneNothing(ix: Index)
    ensures Prune(ix, {}) == ix
  {
    assert ix.undo - {} == ix.undo && ix.window - {} == ix.window;
  }

  /** Drops every listed block's undo records into a fresh batch. */
  method StagePrune(store: LevelUpStore, toClean: seq<BlockHash>, ghost ix: Index)
    requires store.transactionArray == Some(map[]) && store.deletedTransactionArray == map[]
    requires Holds(store.db, ix)
    modifies store`transactionArray, store`db, store`deletedTransactionArray
    ensures store.transactionArray.Some? && store.db == old(store.db)
    ensures Holds(store.View(), Prune(ix, Elems(toClean))) && MetaKept(store.db, store.View())
  {
    OverlayEmpty(store.db);
    PruneNothing(ix);
    hide Holds, Prune, Forgotten;
    assert Elems(toClean[..0]) == {};
    for i := 0 to |toClean|
      invariant store.transactionArray.Some? && store.db == old(store.db) && store.deletedTransactionArray == map[]
      invariant OnlyDeletes(store.transactionArray.value)
      invariant Holds(store.View(), Prune(ix, Elems(toClean[..i]))) && MetaKept(store.db, store.View())
    {
      ghost var before := store.transactionArray.value;
      PruneAgedBlockRecords(store, toClean[i]);
      ForgottenHolds(store.db, before, store.transactionArray.value, ix, Elems(toClean[..i]), toClean[i]);
      assert Elems(toClean[..i + 1]) == Elems(toClean[..i]) + {toClean[i]};
    }
    assert toClean[..|toClean|] == toClean;
  }
}
