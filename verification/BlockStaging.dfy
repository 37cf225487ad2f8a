/** Staging one block into the open batch: outputs of every transaction first, then all spends.

    The methods work on the real batch, caches and durable records. `Tracks` says where they stand: the
    batch laid over the durable records holds the index as it was, with the block's work so far. Each
    method moves that work on by exactly what it stages, and keeps both caches true to it. A spend is
    looked up before any of the block's spends is removed, and found whether it is cached, staged or durable. */
module BlockStaging {
  import opened Chain
  import opened Index
  import opened Ledger
  import opened StoreKeys
  import opened StoreSteps
  import opened LevelUpStore

  /** A cached value of a coin in the set is that coin's. */
  ghost predicate CacheAgrees(cache: map<Outpoint, Value>, utxo: map<Outpoint, Coin>) {
    forall op :: op in cache && op in utxo ==> cache[op] == OutValue(op, utxo[op])
  }

  /** Staging touches the cache only at outputs of the staged transactions. */
  ghost predicate CacheFrom(cache: map<Outpoint, Value>, before: map<Outpoint, Value>, txids: set<Txid>) {
    forall op :: op in cache && op.txid !in txids ==> op in before && cache[op] == before[op]
  }

  ghost predicate ScriptsKnown(known: set<ScriptHash>, view: Db) {
    forall s :: s in known ==> S(s) in view
  }

  /** Nothing durable or staged belongs to the transaction. */
  ghost predicate TxUnseen(db: Db, utxo: map<Outpoint, Coin>, txid: Txid) {
    && (forall k :: k in db && OutKey(k) ==> k.op.txid != txid)
    && (forall op :: op in utxo ==> op.txid != txid)
  }

  lemma {:induction false} AddOutsKeys(w: Work, h: int, tx: Tx, n: nat)
    requires n <= |tx.outs|
    ensures forall op :: op in AddOuts(w, h, tx, n).utxo ==> op in w.utxo || (op.txid == tx.txid && op.vout < n)
  {
    if n > 0 {
      AddOutsKeys(w, h, tx, n - 1);
    }
  }

  lemma CacheFromSame(cache: map<Outpoint, Value>, txids: set<Txid>)
    ensures CacheFrom(cache, cache, txids)
  {
  }

  lemma CacheFromTrans(c2: map<Outpoint, Value>, c1: map<Outpoint, Value>, c0: map<Outpoint, Value>,
                       t2: set<Txid>, t1: set<Txid>)
    requires CacheFrom(c2, c1, t2) && CacheFrom(c1, c0, t1)
    ensures CacheFrom(c2, c0, t1 + t2)
    ensures t2 <= t1 ==> CacheFrom(c2, c0, t1)
  {
  }

  /** A batch view mid-block: its records, the caches' claim about it, and an untouched tip pointer. */
  ghost predicate Tracks(view: Db, meta: Db, known: set<ScriptHash>, ix: Index, b: Block, h: int, w: Work) {
    Holds(view, Opened(ix, b, h, w)) && MetaKept(meta, view) && ScriptsKnown(known, view)
  }

  lemma TracksAddTx(view: Db, meta: Db, known: set<ScriptHash>, ix: Index, b: Block, h: int, w: Work, txid: Txid)
    requires Tracks(view, meta, known, ix, b, h, w)
    ensures Tracks(PutTx(view, b.hash, txid), meta, known, ix, b, h, AddTx(w, b.hash, txid))
  {
    HoldsAddTx(view, ix, b, h, w, txid);
    hide Holds;
  }

  lemma TracksAddOut(view: Db, meta: Db, known: set<ScriptHash>, known': set<ScriptHash>, ix: Index, b: Block, h: int,
                     w: Work, op: Outpoint, coin: Coin)
    requires Tracks(view, meta, known, ix, b, h, w) && op !in w.utxo
    requires ScriptsKnown(known', PutOut(view, b.hash, h, op, coin))
    ensures Tracks(PutOut(view, b.hash, h, op, coin), meta, known', ix, b, h, AddOut(w, h, op, coin))
  {
    HoldsAddOut(view, ix, b, h, w, op, coin);
    hide Holds;
  }

  lemma TracksSpendOut(view: Db, meta: Db, known: set<ScriptHash>, ix: Index, b: Block, h: int, w: Work, op: Outpoint)
    requires Tracks(view, meta, known, ix, b, h, w) && op in w.utxo && op !in w.undo.spent
    ensures Tracks(TakeOut(view, b.hash, h, op, w.utxo[op]), meta, known, ix, b, h, SpendOut(w, h, op))
  {
    HoldsSpendOut(view, ix, b, h, w, op);
    hide Holds;
  }

  /** What inserting one output does to the output cache. */
  ghost predicate CacheGains(cache: map<Outpoint, Value>, before: map<Outpoint, Value>, op: Outpoint, coin: Coin) {
    forall p :: p in cache ==> if p == op then cache[p] == OutValue(op, coin) else p in before && cache[p] == before[p]
  }

  lemma CacheGained(cache: map<Outpoint, Value>, before: map<Outpoint, Value>, w: Work, h: int, op: Outpoint, coin: Coin)
    requires CacheGains(cache, before, op, coin) && CacheAgrees(before, w.utxo)
    ensures CacheAgrees(cache, AddOut(w, h, op, coin).utxo) && CacheFrom(cache, before, {op.txid})
  {
  }

  /** One output's records: O, H, its script's first-seen records, and W. */
  method InsertOutputRecords(store: LevelUpStore, op: Outpoint, coin: Coin, bh: BlockHash, h: nat)
    requires store.Forward() && coin.height == h
    requires O(coin.script, op) !in store.db && H(op) !in store.db
    requires ScriptsKnown(store.knownScripts, store.View())
    modifies store
    ensures store.Forward() && store.db == old(store.db)
    ensures store.View() == PutOut(old(store.View()), bh, h, op, coin)
    ensures O(coin.script, op) in store.View() && Tells(store.View()[O(coin.script, op)], op, coin)
    ensures CacheGains(store.outputCache, old(store.outputCache), op, coin)
    ensures ScriptsKnown(store.knownScripts, store.View())
  {
    store.InsertOutput(op, coin);
    store.InsertOutputHint(op, coin.script);
    store.InsertOutputScriptBlock(coin.script, bh, h);
    store.InsertOutputBlock(op, coin.script, bh);
  }

  /** Pass 1 for one transaction. */
  method ParseTxOutputs(store: LevelUpStore, tx: Tx, bh: BlockHash, h: nat,
                        ghost meta: Db, ghost ix: Index, ghost b: Block, ghost w: Work)
    requires bh == b.hash
    requires store.Forward() && Tracks(store.View(), meta, store.knownScripts, ix, b, h, w)
    requires TxUnseen(store.db, w.utxo, tx.txid) && CacheAgrees(store.outputCache, w.utxo)
    modifies store
    ensures store.Forward() && store.db == old(store.db)
    ensures Tracks(store.View(), meta, store.knownScripts, ix, b, h, AddOuts(w, h, tx, |tx.outs|))
    ensures CacheAgrees(store.outputCache, AddOuts(w, h, tx, |tx.outs|).utxo)
    ensures CacheFrom(store.outputCache, old(store.outputCache), {tx.txid})
  {
    hide CacheAgrees, CacheFrom, CacheGains, AddOut, ForwardBatch, PutOut, Holds, MetaKept, ScriptsKnown;
    CacheFromSame(store.outputCache, {tx.txid});
    for vout := 0 to |tx.outs|
      invariant store.Forward() && store.db == old(store.db)
      invariant Tracks(store.View(), meta, store.knownScripts, ix, b, h, AddOuts(w, h, tx, vout))
      invariant CacheAgrees(store.outputCache, AddOuts(w, h, tx, vout).utxo)
      invariant CacheFrom(store.outputCache, old(store.outputCache), {tx.txid})
    {
      var op, coin := Outpoint(tx.txid, vout), CoinOf(tx, vout, h);
      ghost var w1, view, known, cache := AddOuts(w, h, tx, vout), store.View(), store.knownScripts, store.outputCache;
      AddOutsKeys(w, h, tx, vout);
      InsertOutputRecords(store, op, coin, bh, h);
      TracksAddOut(view, meta, known, store.knownScripts, ix, b, h, w1, op, coin);
      CacheGained(store.outputCache, cache, w1, h, op, coin);
      CacheFromTrans(store.outputCache, cache, old(store.outputCache), {tx.txid}, {tx.txid});
    }
  }

  /** Pass 1 for the block: each transaction's own records, then its outputs, in block order. */
  method ParseBlockOutputs(store: LevelUpStore, b: Block, h: nat, ghost meta: Db, ghost ix: Index)
    requires store.Forward() && Tracks(store.View(), meta, store.knownScripts, ix, b, h, Begin(ix))
    requires BlockFresh(ix, b, h) && DiskUnseen(store.db, b.txs) && CacheAgrees(store.outputCache, ix.utxo)
    modifies store
    ensures store.Forward() && store.db == old(store.db)
    ensures Tracks(store.View(), meta, store.knownScripts, ix, b, h, AddTxs(Begin(ix), b.hash, h, b.txs, |b.txs|))
    ensures CacheAgrees(store.outputCache, AddTxs(Begin(ix), b.hash, h, b.txs, |b.txs|).utxo)
    ensures CacheFrom(store.outputCache, old(store.outputCache), Txids(b.txs))
  {
    hide CacheAgrees, CacheFrom, AddOuts, ForwardBatch, BlockFresh, DiskUnseen, PutTx, Tracks;
    CacheFromSame(store.outputCache, Txids(b.txs));
    for i := 0 to |b.txs|
      invariant store.Forward() && store.db == old(store.db)
      invariant Tracks(store.View(), meta, store.knownScripts, ix, b, h, AddTxs(Begin(ix), b.hash, h, b.txs, i))
      invariant CacheAgrees(store.outputCache, AddTxs(Begin(ix), b.hash, h, b.txs, i).utxo)
      invariant CacheFrom(store.outputCache, old(store.outputCache), Txids(b.txs))
    {
      var tx := b.txs[i];
      ghost var w, view, cache := AddTxs(Begin(ix), b.hash, h, b.txs, i), store.View(), store.outputCache;
      UnseenTx(store.db, ix, b, h, i);
      store.InsertTransaction(tx.txid, b.hash);
      TracksAddTx(view, meta, store.knownScripts, ix, b, h, w, tx.txid);
      ParseTxOutputs(store, tx, b.hash, h, meta, ix, b, AddTx(w, b.hash, tx.txid));
      CacheFromTrans(store.outputCache, cache, old(store.outputCache), {tx.txid}, Txids(b.txs));
    }
  }

  ghost predicate DiskUnseen(db: Db, txs: seq<Tx>) {
    forall k :: k in db && OutKey(k) ==> k.op.txid !in Txids(txs)
  }

  /** When its turn comes, no coin of a transaction is there yet. */
  lemma UnseenTx(db: Db, ix: Index, b: Block, h: nat, i: nat)
    requires i < |b.txs| && BlockFresh(ix, b, h) && DiskUnseen(db, b.txs)
    ensures TxUnseen(db, AddTx(AddTxs(Begin(ix), b.hash, h, b.txs, i), b.hash, b.txs[i].txid).utxo, b.txs[i].txid)
    ensures {b.txs[i].txid} <= Txids(b.txs)
  {
    AddTxsClosed(ix, b.hash, h, b.txs, i);
    assert b.txs[i].txid in Txids(b.txs);
    forall op | op in Created(b.txs, h, i) ensures op.txid != b.txs[i].txid {
      CreatedTxid(b.txs, h, i, op);
    }
  }

  /** The prevouts pass 2 removes, collected over the block in order. */
  method CollectInputs(b: Block) returns (inputs: seq<Outpoint>)
    ensures inputs == BlockSpends(b)
    ensures forall op :: op in inputs <==>
      exists i, k :: 0 <= i < |b.txs| && 0 <= k < |b.txs[i].ins| && Takes(b.txs[i].ins[k], op)
  {
    BlockTakes(b.txs, |b.txs|);
    inputs := [];
    for i := 0 to |b.txs|
      invariant inputs == SpendsOf(b.txs, i)
    {
      var tx := b.txs[i];
      ghost var start := inputs;
      for j := 0 to |tx.ins|
        invariant inputs == start + InputSpends(tx.ins, j)
      {
        if Spends(tx.ins[j]) {
          inputs := inputs + [tx.ins[j].prev];
        }
      }
    }
  }

  // ----- pass 2

  /** What a resolved spend rests on: disk holds an index, the batch is forward, the cache is right. */
  lemma ResolvedIsTruth(db: Db, disk: Index, batch: Batch, cache: map<Outpoint, Value>,
                        ix: Index, b: Block, h: int, w: Work, op: Outpoint)
    requires Holds(db, disk) && ForwardBatch(db, batch)
    requires Holds(Overlay(db, batch), Opened(ix, b, h, w))
    requires forall p :: p in disk.utxo ==> disk.utxo[p].height < h
    requires op in w.utxo && 0 <= w.utxo[op].height
    requires CacheAgrees(cache, w.utxo)
    ensures SpendReady(db, batch, op, ResolvedAt(db, Some(batch), cache, op), h, w.utxo[op])
  {
    var coin, cur := w.utxo[op], Opened(ix, b, h, w);
    var o := O(coin.script, op);
    assert Get(Overlay(db, batch), H(op)) == At(cur, H(op)) == Some(VScript(coin.script));
    assert Get(Overlay(db, batch), o) == At(cur, o) == Some(OutValue(op, coin));
    assert Get(db, H(op)) == At(disk, H(op));
    assert Get(db, o) == At(disk, o);
  }

  /** Before its turn a spend's coin is untouched and not yet archived. */
  lemma SpendTurn(w: Work, h: int, ops: seq<Outpoint>, i: nat)
    requires i < |ops| && Distinct(ops) && w.undo.spent == map[] && ops[i] in w.utxo
    ensures var v := SpendOuts(w, h, ops, i); ops[i] in v.utxo && v.utxo[ops[i]] == w.utxo[ops[i]] && ops[i] !in v.undo.spent
  {
    SpendOutsClosed(w, h, ops, i);
    assert ops[i] !in Elems(ops[..i]);
  }

  lemma AllReady(db: Db, disk: Index, batch: Batch, cache: map<Outpoint, Value>,
                 ix: Index, b: Block, h: int, w: Work, inputs: seq<Outpoint>, resolved: seq<Resolved>)
    requires Holds(db, disk) && ForwardBatch(db, batch)
    requires Holds(Overlay(db, batch), Opened(ix, b, h, w))
    requires forall p :: p in disk.utxo ==> disk.utxo[p].height < h
    requires forall p :: p in w.utxo ==> 0 <= w.utxo[p].height
    requires Elems(inputs) <= w.utxo.Keys && CacheAgrees(cache, w.utxo)
    requires |resolved| == |inputs|
    requires forall i :: 0 <= i < |inputs| ==> resolved[i] == ResolvedAt(db, Some(batch), cache, inputs[i])
    ensures forall i :: 0 <= i < |inputs| ==> inputs[i] in w.utxo
    ensures forall i :: 0 <= i < |inputs| ==> SpendReady(db, batch, inputs[i], resolved[i], h, w.utxo[inputs[i]])
  {
    forall i | 0 <= i < |inputs|
      ensures inputs[i] in w.utxo && SpendReady(db, batch, inputs[i], resolved[i], h, w.utxo[inputs[i]])
    {
      assert inputs[i] in Elems(inputs);
      ResolvedIsTruth(db, disk, batch, cache, ix, b, h, w, inputs[i]);
    }
  }

  /** The staged puts of outputs not yet spent, and the block record, are as they were resolved. */
  ghost predicate Unspent(batch: Batch, before: Batch, bh: BlockHash, done: seq<Outpoint>) {
    forall k :: (OutKey(k) && k.op !in done) || k == B(bh) ==> Get(batch, k) == Get(before, k)
  }

  lemma NoneSpent(batch: Batch, bh: BlockHash, inputs: seq<Outpoint>)
    ensures Unspent(batch, batch, bh, inputs[..0])
  {
  }

  lemma UnspentReady(db: Db, before: Batch, batch: Batch, bh: BlockHash, inputs: seq<Outpoint>, i: nat,
                     r: Resolved, h: int, coin: Coin)
    requires i < |inputs| && Distinct(inputs) && Unspent(batch, before, bh, inputs[..i])
    requires SpendReady(db, before, inputs[i], r, h, coin)
    ensures SpendReady(db, batch, inputs[i], r, h, coin) && Get(batch, B(bh)) == Get(before, B(bh))
  {
    assert inputs[i] !in inputs[..i];
    hide SpendReady;
  }

  lemma UnspentNext(before: Batch, batch: Batch, batch': Batch, bh: BlockHash, inputs: seq<Outpoint>, i: nat)
    requires i < |inputs| && Unspent(batch, before, bh, inputs[..i])
    requires forall k :: (OutKey(k) && k.op != inputs[i]) || k.B? ==> Get(batch', k) == Get(batch, k)
    ensures Unspent(batch', before, bh, inputs[..i + 1])
  {
    assert inputs[..i + 1] == inputs[..i] + [inputs[i]];
  }

  /** Removes the resolved spends one by one. */
  method StageSpends(store: LevelUpStore, inputs: seq<Outpoint>, resolved: seq<Resolved>, b: Block, h: nat,
                     ghost meta: Db, ghost ix: Index, ghost w: Work)
    requires store.Forward() && Tracks(store.View(), meta, store.knownScripts, ix, b, h, w)
    requires Distinct(inputs) && w.undo.spent == map[] && |resolved| == |inputs|
    requires forall i :: 0 <= i < |inputs| ==> inputs[i] in w.utxo
    requires forall i :: 0 <= i < |inputs| ==>
      SpendReady(store.db, store.transactionArray.value, inputs[i], resolved[i], h, w.utxo[inputs[i]])
    requires store.GetTransactionValue(B(b.hash)) == Some(VBlock(BlockRec(h, b.timestamp, b.prevHash)))
    modifies store`db, store`transactionArray, store`deletedTransactionArray
    ensures store.Forward() && store.db == old(store.db)
    ensures Tracks(store.View(), meta, store.knownScripts, ix, b, h, SpendOuts(w, h, inputs, |inputs|))
  {
    hide Tracks, Holds, ForwardBatch, SpendReady, ResolvedAt, SpendOut, TakeOut, Unspent, Distinct;
    ghost var batch := store.transactionArray.value;
    NoneSpent(batch, b.hash, inputs);
    for i := 0 to |inputs|
      invariant store.Forward() && store.db == old(store.db)
      invariant Tracks(store.View(), meta, store.knownScripts, ix, b, h, SpendOuts(w, h, inputs, i))
      invariant Unspent(store.transactionArray.value, batch, b.hash, inputs[..i])
    {
      var op := inputs[i];
      ghost var v, view, now := SpendOuts(w, h, inputs, i), store.View(), store.transactionArray.value;
      UnspentReady(store.db, batch, now, b.hash, inputs, i, resolved[i], h, w.utxo[op]);
      SpendTurn(w, h, inputs, i);
      store.StageSpend(op, resolved[i], b.hash, h, w.utxo[op]);
      UnspentNext(batch, now, store.transactionArray.value, b.hash, inputs, i);
      TracksSpendOut(view, meta, store.knownScripts, ix, b, h, v, op);
    }
  }

  /** Pass 2: every spend resolved first, then removed one by one. */
  method RemoveOutputsWithInputsBatch(store: LevelUpStore, inputs: seq<Outpoint>, b: Block, h: nat,
                                      ghost meta: Db, ghost disk: Index, ghost ix: Index, ghost w: Work)
    requires store.Forward() && Holds(store.db, disk)
    requires Tracks(store.View(), meta, store.knownScripts, ix, b, h, w)
    requires forall p :: p in disk.utxo ==> disk.utxo[p].height < h
    requires forall p :: p in w.utxo ==> 0 <= w.utxo[p].height
    requires Distinct(inputs) && Elems(inputs) <= w.utxo.Keys && w.undo.spent == map[]
    requires store.GetTransactionValue(B(b.hash)) == Some(VBlock(BlockRec(h, b.timestamp, b.prevHash)))
    requires CacheAgrees(store.outputCache, w.utxo)
    modifies store
    ensures store.Forward() && store.db == old(store.db)
    ensures Tracks(store.View(), meta, store.knownScripts, ix, b, h, SpendOuts(w, h, inputs, |inputs|))
    ensures CacheFrom(store.outputCache, old(store.outputCache), {})
    ensures CacheAgrees(store.outputCache, w.utxo)
  {
    ghost var batch, cache := store.transactionArray.value, store.outputCache;
    var resolved := store.ResolveSpends(inputs);
    AllReady(store.db, disk, batch, cache, ix, b, h, w, inputs, resolved);
    hide Holds, ForwardBatch, SpendReady, ResolvedAt;
    StageSpends(store, inputs, resolved, b, h, meta, ix, w);
  }

  // ----- the whole block

  /** A durable index under a staged one: nothing durable is newer than the block to come. */
  ghost predicate Beneath(disk: Index, ix: Index, b: Block, h: int) {
    && b.hash !in disk.blocks
    && (forall p :: p in disk.utxo ==> p.txid in ix.txBlock && disk.utxo[p].height < h)
  }

  lemma DiskIsUnseen(db: Db, disk: Index, ix: Index, b: Block, h: int)
    requires Holds(db, disk) && Beneath(disk, ix, b, h) && BlockFresh(ix, b, h)
    ensures DiskUnseen(db, b.txs) && B(b.hash) !in db
  {
    assert Get(db, B(b.hash)) == At(disk, B(b.hash));
    forall k | k in db && OutKey(k) ensures k.op.txid !in Txids(b.txs) {
      assert Get(db, k) == At(disk, k);
      assert k.op.txid in ix.txBlock.Keys;
    }
  }

  lemma StagedBlockRecord(db: Db, batch: Batch, ix: Index, b: Block, h: int, w: Work)
    requires Holds(Overlay(db, batch), Opened(ix, b, h, w)) && B(b.hash) !in db
    ensures B(b.hash) in batch && batch[B(b.hash)] == Put(VBlock(BlockRec(h, b.timestamp, b.prevHash)))
  {
    assert Get(Overlay(db, batch), B(b.hash)) == At(Opened(ix, b, h, w), B(b.hash));
  }

  lemma CacheAfterBlock(cache: map<Outpoint, Value>, before: map<Outpoint, Value>, ix: Index, b: Block, h: nat)
    requires BlockFresh(ix, b, h) && SpentKnown(ix.undo, ix.txBlock)
    requires CacheOk(before, ix) && CacheFrom(cache, before, Txids(b.txs))
    requires CacheAgrees(cache, ix.utxo + BlockCoins(b, h))
    ensures CacheOk(cache, Connect(ix, b, h))
  {
    ConnectClosed(ix, b, h);
    forall bh, op | bh in ix.undo && op in ix.undo[bh].spent && op in cache
      ensures cache[op] == OutValue(op, ix.undo[bh].spent[op])
    {
      assert op.txid in ix.txBlock.Keys;
    }
  }

  lemma PassOneWork(ix: Index, b: Block, h: nat)
    requires BlockFresh(ix, b, h) && InputsExist(ix.utxo, b.txs, h)
    requires forall p :: p in ix.utxo ==> 0 <= ix.utxo[p].height
    ensures var w := AddTxs(Begin(ix), b.hash, h, b.txs, |b.txs|);
      && w.utxo == ix.utxo + BlockCoins(b, h) && w.undo.spent == map[]
      && (forall p :: p in w.utxo ==> 0 <= w.utxo[p].height)
      && Distinct(BlockSpends(b)) && Elems(BlockSpends(b)) <= w.utxo.Keys
  {
    AddTxsClosed(ix, b.hash, h, b.txs, |b.txs|);
    CreatedFacts(b, h);
    ConsensusIsTwoPass(ix.utxo, b.txs, h, |b.txs|);
  }

  lemma TracksOpen(view: Db, known: set<ScriptHash>, ix: Index, b: Block, h: int)
    requires Holds(view, ix) && b.hash !in ix.undo && ScriptsKnown(known, view)
    ensures Tracks(view[B(b.hash) := VBlock(BlockRec(h, b.timestamp, b.prevHash))], view, known, ix, b, h, Begin(ix))
  {
    HoldsOpen(view, ix, b, h);
    hide Holds;
  }

  lemma TracksParts(view: Db, meta: Db, known: set<ScriptHash>, ix: Index, b: Block, h: nat)
    requires var ops := BlockSpends(b);
      Tracks(view, meta, known, ix, b, h, SpendOuts(AddTxs(Begin(ix), b.hash, h, b.txs, |b.txs|), h, ops, |ops|))
    ensures Holds(view, Opened(ix, b, h, TwoPasses(Begin(ix), b, h)))
    ensures MetaKept(meta, view) && ScriptsKnown(known, view)
  {
    hide Holds, MetaKept, ScriptsKnown;
  }

  /** Stages a block's records: the block record, every output, then every spend. */
  method StageRecords(store: LevelUpStore, b: Block, h: nat, ghost disk: Index, ghost ix: Index)
    requires store.Forward() && Holds(store.db, disk) && Holds(store.View(), ix)
    requires BlockFresh(ix, b, h) && InputsExist(ix.utxo, b.txs, h) && Beneath(disk, ix, b, h)
    requires SpentKnown(ix.undo, ix.txBlock) && (forall p :: p in ix.utxo ==> 0 <= ix.utxo[p].height)
    requires CacheOk(store.outputCache, ix) && ScriptsKnown(store.knownScripts, store.View())
    modifies store
    ensures store.Forward() && store.db == old(store.db) && MetaKept(old(store.View()), store.View())
    ensures Holds(store.View(), Opened(ix, b, h, TwoPasses(Begin(ix), b, h)))
    ensures CacheOk(store.outputCache, Connect(ix, b, h)) && ScriptsKnown(store.knownScripts, store.View())
  {
    DiskIsUnseen(store.db, disk, ix, b, h);
    PassOneWork(ix, b, h);
    ghost var before, cache, w := store.View(), store.outputCache, AddTxs(Begin(ix), b.hash, h, b.txs, |b.txs|);
    store.InsertBlock(b, h);
    TracksOpen(before, store.knownScripts, ix, b, h);
    hide Tracks, BlockFresh, DiskUnseen, Holds, CacheOk, CacheAgrees, ForwardBatch, TwoPasses, Connect;
    ParseBlockOutputs(store, b, h, before, ix);
    StagedBlockRecord(store.db, store.transactionArray.value, ix, b, h, w);
    ghost var cache1 := store.outputCache;
    var inputs := CollectInputs(b);
    RemoveOutputsWithInputsBatch(store, inputs, b, h, before, disk, ix, w);
    CacheFromTrans(store.outputCache, cache1, cache, {}, Txids(b.txs));
    CacheAfterBlock(store.outputCache, cache, ix, b, h);
    TracksParts(store.View(), before, store.knownScripts, ix, b, h);
  }
}
