/** Rolling one block back in the store.

    The rollback stages five removals into one batch: it restores the outputs the block spent from their
    archive, deletes the outputs it created, then its scripts' first-seen records, its transactions' records
    and its own block record. Later writes win over earlier ones, so the order matters. Laid over the durable
    records, the batch is the index with that block disconnected. */
module StoreRollback {
  import opened Chain
  import opened Index
  import opened StoreKeys
  import opened LevelUpStore
  import opened StoreCleanup

  /** Each output the block created and that is still unspent is the one its W record names. */
  ghost predicate CreatedMatch(utxo: map<Outpoint, Coin>, created: map<Outpoint, ScriptHash>) {
    forall op :: op in created && op in utxo ==> utxo[op].script == created[op]
  }

  /** The block's txids are those of its outputs, and all are recorded under it. */
  ghost predicate TxidsMatch(u: Undo, txBlock: map<Txid, BlockHash>, bh: BlockHash) {
    && (forall op :: op in u.created ==> op.txid in u.txids)
    && (forall t :: t in u.txids ==> t in txBlock && txBlock[t] == bh)
    && (forall t :: t in u.txids ==> HasOutput(u.created, t))
  }

  ghost predicate HasOutput(created: map<Outpoint, ScriptHash>, t: Txid) {
    exists op :: op in created && op.txid == t
  }

  /** What the tip's undo records owe the index for a rollback to be exact. */
  ghost predicate Unwindable(ix: Index, bh: BlockHash) {
    bh in ix.undo && UndoFits(ix.undo[bh], ix.utxo, ix.txBlock, bh)
  }

  ghost predicate UndoFits(u: Undo, utxo: map<Outpoint, Coin>, txBlock: map<Txid, BlockHash>, bh: BlockHash) {
    && u.spent.Keys !! u.created.Keys && u.spent.Keys !! utxo.Keys
    && CreatedMatch(utxo, u.created)
    && TxidsMatch(u, txBlock, bh)
  }

  lemma ArchiveSplit(ix: Index, b: Block, h: int)
    requires BlockFresh(ix, b, h)
    ensures BlockUndo(ix, b, h).spent.Keys !! BlockCoins(b, h).Keys
    ensures BlockUndo(ix, b, h).spent.Keys <= Elems(BlockSpends(b))
  {
    CreatedFacts(b, h);
  }

  lemma CreatedNames(b: Block, h: int)
    requires EveryTxHasOutputs(b.txs)
    ensures forall op :: op in ScriptMap(BlockCoins(b, h)) ==> op.txid in Txids(b.txs)
    ensures forall t :: t in Txids(b.txs) ==> HasOutput(ScriptMap(BlockCoins(b, h)), t)
  {
    CreatedTxidsCover(b, h);
    CreatedFacts(b, h);
    forall t | t in Txids(b.txs) ensures HasOutput(ScriptMap(BlockCoins(b, h)), t) {
      assert t in CreatedTxids(b, h);
    }
  }

  lemma TxidsCreated(ix: Index, b: Block, h: int)
    requires EveryTxHasOutputs(b.txs)
    ensures TxidsMatch(BlockUndo(ix, b, h), ix.txBlock + InBlock(Txids(b.txs), b.hash), b.hash)
  {
    var u := BlockUndo(ix, b, h);
    assert u.txids == Txids(b.txs) && u.created == ScriptMap(BlockCoins(b, h));
    CreatedNames(b, h);
    hide BlockUndo, BlockCoins, ScriptMap, Txids, HasOutput, EveryTxHasOutputs;
  }

  lemma CreatedKept(utxo: map<Outpoint, Coin>, coins: map<Outpoint, Coin>, spends: set<Outpoint>)
    ensures CreatedMatch((utxo + coins) - spends, ScriptMap(coins))
    ensures ScriptMap(coins).Keys == coins.Keys
  {
  }

  lemma FitsParts(u: Undo, utxo: map<Outpoint, Coin>, coins: map<Outpoint, Coin>, spends: set<Outpoint>,
                  txBlock: map<Txid, BlockHash>, bh: BlockHash)
    requires u.spent.Keys !! coins.Keys && u.spent.Keys <= spends && u.created == ScriptMap(coins)
    requires TxidsMatch(u, txBlock, bh)
    ensures UndoFits(u, (utxo + coins) - spends, txBlock, bh)
  {
    CreatedKept(utxo, coins, spends);
    hide TxidsMatch, CreatedMatch;
  }

  lemma NewUndoFits(ix: Index, b: Block, h: int)
    requires BlockFresh(ix, b, h) && EveryTxHasOutputs(b.txs)
    ensures UndoFits(BlockUndo(ix, b, h), (ix.utxo + BlockCoins(b, h)) - Elems(BlockSpends(b)),
                     ix.txBlock + InBlock(Txids(b.txs), b.hash), b.hash)
  {
    ArchiveSplit(ix, b, h);
    TxidsCreated(ix, b, h);
    assert BlockUndo(ix, b, h).created == ScriptMap(BlockCoins(b, h));
    hide *;
    FitsParts(BlockUndo(ix, b, h), ix.utxo, BlockCoins(b, h), Elems(BlockSpends(b)),
              ix.txBlock + InBlock(Txids(b.txs), b.hash), b.hash);
  }

  /** A block just connected can be unwound. */
  lemma ConnectUnwindable(ix: Index, b: Block, h: int)
    requires BlockFresh(ix, b, h) && EveryTxHasOutputs(b.txs)
    ensures Unwindable(Connect(ix, b, h), b.hash)
  {
    ConnectClosed(ix, b, h);
    NewUndoFits(ix, b, h);
    hide Connect, UndoFits, BlockUndo, BlockFresh, Txids, Elems, BlockCoins, BlockSpends, NewScripts, AtHeight, InBlock;
  }

  /** The write a rollback of `bh` leaves under a key: the later step wins. */
  function RollbackWrite(db: Db, bh: BlockHash, k: Key): Option<Write> {
    Over(WriteIf(k == N(bh) || k == B(bh), Del),
      Over(TxWrite(db, TxidsIn(ScanW(db, bh)), bh, k),
        Over(CreatedWrite(db, ScanW(db, bh), bh, k),
          Over(RestoreWrite(db, ScanM(db, bh), bh, true, k),
            Over(RestoreWrite(db, ScanK(db, bh), bh, true, k), ScriptWrite(ScanZ(db, bh), bh, k))))))
  }

  function After(db: Db, w: Option<Write>, k: Key): Option<Value> {
    if w.None? then Get(db, k) else if w.value.Put? then Some(w.value.value) else None
  }

  lemma OutputBack(db: Db, ix: Index, bh: BlockHash, script: ScriptHash, op: Outpoint)
    requires Holds(db, ix) && Unwindable(ix, bh)
    ensures After(db, RollbackWrite(db, bh, O(script, op)), O(script, op)) == At(Disconnect(ix, bh), O(script, op))
  {
    var u := ix.undo[bh];
    assert Get(db, W(bh, op)) == At(ix, W(bh, op));
    assert Get(db, K(bh, script, op)) == At(ix, K(bh, script, op));
    assert Get(db, O(script, op)) == At(ix, O(script, op));
    hide Holds;
  }

  lemma HintBack(db: Db, ix: Index, bh: BlockHash, op: Outpoint)
    requires Holds(db, ix) && Unwindable(ix, bh)
    ensures After(db, RollbackWrite(db, bh, H(op)), H(op)) == At(Disconnect(ix, bh), H(op))
  {
    assert Get(db, W(bh, op)) == At(ix, W(bh, op));
    assert Get(db, M(bh, op)) == At(ix, M(bh, op));
    assert Get(db, H(op)) == At(ix, H(op));
    hide Holds;
  }

  lemma TxidsScanned(db: Db, ix: Index, bh: BlockHash)
    requires Holds(db, ix) && Unwindable(ix, bh)
    ensures TxidsIn(ScanW(db, bh)) == ix.undo[bh].txids
    ensures (set op | op in ix.undo[bh].created :: op.txid) == ix.undo[bh].txids
  {
    var u := ix.undo[bh];
    forall k | k in ScanW(db, bh) ensures k.op in u.created {
      assert Get(db, k) == At(ix, k);
    }
    forall t | t in u.txids ensures t in TxidsIn(ScanW(db, bh)) {
      var op :| op in u.created && op.txid == t;
      assert Get(db, W(bh, op)) == At(ix, W(bh, op));
      assert W(bh, op) in ScanW(db, bh);
    }
  }

  lemma TxBack(db: Db, ix: Index, bh: BlockHash, k: Key)
    requires Holds(db, ix) && Unwindable(ix, bh) && (k.T? || k.X? || k.Y?)
    ensures After(db, RollbackWrite(db, bh, k), k) == At(Disconnect(ix, bh), k)
  {
    TxidsScanned(db, ix, bh);
    assert Get(db, Y(bh, k.txid)) == At(ix, Y(bh, k.txid));
    assert Get(db, k) == At(ix, k);
    hide Holds, TxidsIn, ScanW;
  }

  lemma ScriptBack(db: Db, ix: Index, bh: BlockHash, script: ScriptHash)
    requires Holds(db, ix) && Unwindable(ix, bh)
    ensures After(db, RollbackWrite(db, bh, S(script)), S(script)) == At(Disconnect(ix, bh), S(script))
  {
    assert Get(db, S(script)) == At(ix, S(script));
    assert Get(db, Z(bh, script)) == At(ix, Z(bh, script));
    hide Holds;
  }

  lemma BlockKeysBack(db: Db, ix: Index, bh: BlockHash, k: Key)
    requires Holds(db, ix) && Unwindable(ix, bh) && (k.K? || k.M? || k.W? || k.Z? || k.B? || k.N?)
    ensures After(db, RollbackWrite(db, bh, k), k) == At(Disconnect(ix, bh), k)
  {
    assert Get(db, k) == At(ix, k);
    hide Holds;
  }

  /** Key by key, the staged rollback is the disconnected index. */
  lemma RollbackAt(db: Db, ix: Index, bh: BlockHash, k: Key)
    requires Holds(db, ix) && Unwindable(ix, bh) && !Meta(k)
    ensures After(db, RollbackWrite(db, bh, k), k) == At(Disconnect(ix, bh), k)
  {
    match k
    case O(script, op) => OutputBack(db, ix, bh, script, op);
    case H(op) => HintBack(db, ix, bh, op);
    case S(script) => ScriptBack(db, ix, bh, script);
    case T(_) => TxBack(db, ix, bh, k);
    case X(_) => TxBack(db, ix, bh, k);
    case Y(_, _) => TxBack(db, ix, bh, k);
    case _ => BlockKeysBack(db, ix, bh, k);
  }

  /** The batch holds exactly the rollback's writes, tip pointer aside. */
  ghost predicate StagedRollback(db: Db, batch: Batch, bh: BlockHash) {
    forall k :: !Meta(k) ==> Get(batch, k) == RollbackWrite(db, bh, k)
  }

  /** Committing a staged rollback leaves the store holding the disconnected index. */
  lemma RollbackHolds(db: Db, batch: Batch, ix: Index, bh: BlockHash)
    requires Holds(db, ix) && Unwindable(ix, bh) && StagedRollback(db, batch, bh)
    ensures Holds(Overlay(db, batch), Disconnect(ix, bh))
  {
    forall k | !Meta(k) ensures Get(Overlay(db, batch), k) == At(Disconnect(ix, bh), k) {
      RollbackAt(db, ix, bh, k);
      hide Holds, Unwindable, RollbackWrite, Disconnect, At;
      assert Get(batch, k) == RollbackWrite(db, bh, k);
      assert Get(Overlay(db, batch), k) == Seen(db, batch, k);
    }
  }

  lemma RollbackChain(db: Db, bh: BlockHash, b1: Batch, b2: Batch, b3: Batch, b4: Batch, b5: Batch)
    requires ScriptsRemoved(map[], b1, ScanZ(db, bh), bh)
    requires Restored(b1, b2, db, ScanK(db, bh), bh, true)
    requires Restored(b2, b3, db, ScanM(db, bh), bh, true)
    requires CreatedRemoved(b3, b4, db, ScanW(db, bh), bh)
    requires TxsRemoved(b4, b5, db, TxidsIn(ScanW(db, bh)), bh)
    ensures forall k :: Get(b5[B(bh) := Del][N(bh) := Del], k) == RollbackWrite(db, bh, k)
    ensures Get(b5[B(bh) := Del], N(bh)) == None
  {
    hide ScriptWrite, RestoreWrite, CreatedWrite, TxWrite;
    forall k ensures Get(b5[B(bh) := Del][N(bh) := Del], k) == RollbackWrite(db, bh, k) {
      assert Get(b1, k) == Over(ScriptWrite(ScanZ(db, bh), bh, k), Get(map[], k));
      assert Get(b2, k) == Over(RestoreWrite(db, ScanK(db, bh), bh, true, k), Get(b1, k));
      assert Get(b3, k) == Over(RestoreWrite(db, ScanM(db, bh), bh, true, k), Get(b2, k));
      assert Get(b4, k) == Over(CreatedWrite(db, ScanW(db, bh), bh, k), Get(b3, k));
      assert Get(b5, k) == Over(TxWrite(db, TxidsIn(ScanW(db, bh)), bh, k), Get(b4, k));
    }
    NotStaged(db, bh, b1, b2, b3, b4, b5);
  }

  lemma NotStaged(db: Db, bh: BlockHash, b1: Batch, b2: Batch, b3: Batch, b4: Batch, b5: Batch)
    requires ScriptsRemoved(map[], b1, ScanZ(db, bh), bh)
    requires Restored(b1, b2, db, ScanK(db, bh), bh, true)
    requires Restored(b2, b3, db, ScanM(db, bh), bh, true)
    requires CreatedRemoved(b3, b4, db, ScanW(db, bh), bh)
    requires TxsRemoved(b4, b5, db, TxidsIn(ScanW(db, bh)), bh)
    ensures Get(b5[B(bh) := Del], N(bh)) == None
  {
    assert Get(b1, N(bh)) == None;
    assert Get(b2, N(bh)) == None;
    assert Get(b3, N(bh)) == None;
    assert Get(b4, N(bh)) == None;
    assert Get(b5, N(bh)) == None;
  }

  /** Every step of a rollback up to the window entry: scripts, archive, created outputs, the
      block and its transactions, in the order the walk runs them. */
  method StageUndo(store: LevelUpStore, bh: BlockHash, ghost ix: Index)
    requires store.transactionArray == Some(map[]) && store.deletedTransactionArray == map[]
    requires Holds(store.db, ix)
    modifies store
    ensures store.transactionArray.Some? && store.db == old(store.db) && store.outputCache == old(store.outputCache)
    ensures StagedRollback(store.db, store.transactionArray.value[N(bh) := Del], bh)
    ensures Get(store.transactionArray.value, N(bh)) == None
    ensures forall k :: Meta(k) ==> Get(store.transactionArray.value, k) == None
    ensures store.knownScripts == if ScanZ(store.db, bh) == {} then old(store.knownScripts) else {}
  {
    ScannedScripts(store.db, ix, bh);
    hide Holds;
    RemoveOutputScriptsInBlock(store, bh);
    ghost var b1 := store.transactionArray.value;
    ProcessDeletedOutputs(store, bh, true);
    ghost var b3 := store.transactionArray.value;
    RemoveCreatedOutputsInBlock(store, bh);
    ghost var b4 := store.transactionArray.value;
    DeleteBlock(store, bh);
    ghost var b2 :| Restored(b1, b2, store.db, ScanK(store.db, bh), bh, true)
                 && Restored(b2, b3, store.db, ScanM(store.db, bh), bh, true);
    ghost var b5 :| TxsRemoved(b4, b5, store.db, TxidsIn(ScanW(store.db, bh)), bh)
                 && store.transactionArray.value == b5[B(bh) := Del];
    RollbackChain(store.db, bh, b1, b2, b3, b4, b5);
    RollbackMeta(store.db, bh);
  }

  lemma ScannedScripts(db: Db, ix: Index, bh: BlockHash)
    requires Holds(db, ix)
    ensures forall k :: k in ScanW(db, bh) ==> db[k].VScript?
  {
    forall k | k in ScanW(db, bh) ensures db[k].VScript? {
      assert Get(db, k) == At(ix, k);
    }
  }

  lemma RollbackMeta(db: Db, bh: BlockHash)
    ensures forall k :: Meta(k) ==> RollbackWrite(db, bh, k) == None
  {
  }
}
