/** What the tracker's durable and in-memory parts owe the sync state, as predicates on values. */
module TrackerState {
  import opened Chain
  import opened Index
  import opened Ledger
  import opened StoreKeys
  import opened StoreSteps
  import opened StoreRollback
  import opened LevelUpStore
  import opened BlockStaging
  import opened SyncSpec
  import opened LastBlocks
  import opened StoreCleanup

  /** The tip pointer names the chain's last block. */
  ghost predicate TipMatches(db: Db, c: seq<Block>) {
    if c == [] then Get(db, TipHeight) == None || Get(db, TipHeight) == Some(VHeight(-1))
    else Get(db, TipHeight) == Some(VHeight(|c| - 1)) && Get(db, TipHash) == Some(VHash(c[|c| - 1].hash))
  }

  function StoredList(stored: Option<seq<BlockHash>>): Option<Value> {
    if stored.Some? then Some(VPending(stored.value)) else None
  }

  /** The durable records are those of the chain, cut at the undo window. */
  ghost predicate Durable(db: Db, s: State) {
    s.from <= |s.chain| && Holds(db, Windowed(s.chain, s.from))
    && TipMatches(db, s.chain) && Get(db, P) == StoredList(s.stored)
  }

  /** The two read caches only name what the index under the open batch has. */
  ghost predicate Caches(known: set<ScriptHash>, cache: map<Outpoint, Value>, ix: Index) {
    known <= ix.firstSeen.Keys && CacheOk(cache, ix)
  }

  /** The open batch, laid over the durable records, is the index of the chain with the staged blocks. */
  ghost predicate BatchHolds(db: Db, view: Db, s: State) {
    s.from <= |s.All()| && Holds(view, Windowed(s.All(), s.from)) && MetaKept(db, view)
  }

  ghost predicate OpenBatch(db: Db, batch: Option<Batch>, s: State) {
    batch.Some? && ForwardBatch(db, batch.value) && BatchHolds(db, Overlay(db, batch.value), s)
  }

  /** What the object holds in memory: the window, the cleanup list, the caches and the batch. */
  ghost predicate Memory(s: State, lastBlocks: seq<BlockHash>, pending: seq<BlockHash>,
                         known: set<ScriptHash>, cache: map<Outpoint, Value>, db: Db, batch: Option<Batch>) {
    && s.from <= s.live <= |s.All()|
    && lastBlocks == Hashes(s.All()[s.live..]) && pending == s.pending
    && Caches(known, cache, Windowed(s.All(), s.from))
    && (s.staged != [] ==> OpenBatch(db, batch, s))
  }

  lemma KnownInView(view: Db, ix: Index, known: set<ScriptHash>)
    requires Holds(view, ix)
    ensures ScriptsKnown(known, view) <==> known <= ix.firstSeen.Keys
  {
    forall s ensures S(s) in view <==> s in ix.firstSeen {
      assert Get(view, S(s)) == At(ix, S(s));
    }
  }

  /** An empty store holds the empty chain. */
  lemma InitialHolds(db: Db)
    requires db == map[]
    ensures Durable(db, INITIAL)
    ensures Windowed(INITIAL.All(), 0) == EMPTY_INDEX
  {
    assert HashSet([]) == {};
  }

  // ----- staging

  ghost predicate Below(lower: Index, upper: Index) {
    lower.txBlock.Keys <= upper.txBlock.Keys && lower.blocks.Keys <= upper.blocks.Keys
  }

  lemma ConnectBelow(lower: Index, ix: Index, b: Block, h: int)
    requires Below(lower, ix) && TxidsDistinct(b.txs)
    ensures Below(lower, Connect(ix, b, h))
  {
    ConnectClosed(ix, b, h);
  }

  lemma {:induction false} ChainBelow(chain: seq<Block>, staged: seq<Block>)
    requires ValidChain(chain + staged)
    ensures Below(IndexOf(chain), IndexOf(chain + staged))
  {
    hide Below, Connect, ValidBlock;
    if staged == [] {
      assert chain + staged == chain;
      BelowSelf(IndexOf(chain));
    } else {
      var init, b := staged[..|staged| - 1], staged[|staged| - 1];
      assert chain + staged == (chain + init) + [b];
      ValidStep(chain + init, b);
      ChainBelow(chain, init);
      ValidDistinct(IndexOf(chain + init), b, |chain + init|);
      ConnectBelow(IndexOf(chain), IndexOf(chain + init), b, |chain + init|);
    }
  }

  lemma BelowSelf(ix: Index)
    ensures Below(ix, ix)
  {
  }

  lemma ValidDistinct(ix: Index, b: Block, h: int)
    requires ValidBlock(ix, b, h)
    ensures TxidsDistinct(b.txs) && EveryTxHasOutputs(b.txs) && b.hash !in ix.blocks && InputsExist(ix.utxo, b.txs, h)
  {
  }

  lemma BeneathParts(lower: Index, upper: Index, d: Index, ix: Index, b: Block, n: nat, h: nat)
    requires Below(lower, upper) && CoinsKnown(lower.utxo, lower.txBlock, n) && n <= h
    requires b.hash !in upper.blocks
    requires d.utxo == lower.utxo && d.blocks == lower.blocks && ix.txBlock == upper.txBlock
    ensures Beneath(d, ix, b, h)
  {
    forall p | p in d.utxo ensures p.txid in ix.txBlock && d.utxo[p].height < h {
      assert p.txid in lower.txBlock.Keys;
    }
  }

  /** A valid next block can be staged on the staged index over the durable one. */
  lemma StageFits(chain: seq<Block>, staged: seq<Block>, from: nat, b: Block)
    requires ValidChain((chain + staged) + [b]) && from <= |chain|
    ensures var ix, h := Windowed(chain + staged, from), |chain + staged|;
      && BlockFresh(ix, b, h) && InputsExist(ix.utxo, b.txs, h)
      && Beneath(Windowed(chain, from), ix, b, h)
      && SpentKnown(ix.undo, ix.txBlock) && (forall p :: p in ix.utxo ==> 0 <= ix.utxo[p].height)
  {
    hide ValidBlock, BlockFresh, InputsExist, Beneath, Below, Described, IndexOf, ValidChain, HashSet;
    var all := chain + staged;
    WindowedFresh(all, from, b);
    ValidStep(all, b);
    ValidDistinct(IndexOf(all), b, |all|);
    ChainBelow(chain, staged);
    assert all[..|chain|] == chain;
    PrefixValid(all, |chain|);
    ChainDescribed(chain);
    ChainDescribed(all);
    DescribedParts(chain, IndexOf(chain));
    DescribedParts(all, IndexOf(all));
    BeneathParts(IndexOf(chain), IndexOf(all), Windowed(chain, from), Windowed(all, from), b, |chain|, |all|);
  }

  lemma DescribedParts(c: seq<Block>, ix: Index)
    requires Described(c, ix)
    ensures CoinsKnown(ix.utxo, ix.txBlock, |c|) && SpentKnown(ix.undo, ix.txBlock)
  {
  }

  /** Before a block is staged: the view under it, whether the batch was open or is fresh. */
  lemma StagingReady(s: State, lastBlocks: seq<BlockHash>, pending: seq<BlockHash>, known: set<ScriptHash>,
                     cache: map<Outpoint, Value>, db: Db, batch: Option<Batch>, batch': Option<Batch>)
    requires Durable(db, s) && Memory(s, lastBlocks, pending, known, cache, db, batch)
    requires batch' == if s.staged == [] then Some(map[]) else batch
    ensures batch'.Some? && ForwardBatch(db, batch'.value)
    ensures var view, ix := Overlay(db, batch'.value), Windowed(s.All(), s.from);
      Holds(view, ix) && MetaKept(db, view) && ScriptsKnown(known, view) && CacheOk(cache, ix)
  {
    hide Holds, Windowed, TipMatches, ScriptsKnown, CacheOk, ForwardBatch;
    assert s.staged == [] ==> s.All() == s.chain;
    if s.staged == [] {
      OverlayEmpty(db);
      ForwardEmpty(db);
    }
    KnownInView(Overlay(db, batch'.value), Windowed(s.All(), s.from), known);
  }

  lemma ForwardEmpty(db: Db)
    ensures ForwardBatch(db, map[])
  {
  }

  /** With its window entry, the view is the index with the block connected. */
  ghost predicate StagedView(db: Db, view: Db, s: State, b: Block) {
    s.from <= |s.chain| && MetaKept(db, view) && Holds(view[N(b.hash) := VEmpty], Windowed(s.All() + [b], s.from))
  }

  /** After a block is staged. */
  lemma StagingDone(db: Db, before: Db, view: Db, known: set<ScriptHash>, s: State, b: Block, h: nat)
    requires s.from <= |s.chain| && ValidChain(s.All() + [b]) && h == |s.All()|
    requires MetaKept(db, before) && MetaKept(before, view) && ScriptsKnown(known, view)
    requires Holds(view, Opened(Windowed(s.All(), s.from), b, h, TwoPasses(Begin(Windowed(s.All(), s.from)), b, h)))
    ensures Windowed(s.All() + [b], s.from) == Connect(Windowed(s.All(), s.from), b, h)
    ensures StagedView(db, view, s, b) && known <= Windowed(s.All() + [b], s.from).firstSeen.Keys
  {
    hide Holds, Windowed, ValidChain, TwoPasses, ScriptsKnown;
    var ix := Windowed(s.All(), s.from);
    WindowedStep(s.All(), s.from, b);
    HoldsClose(view, Opened(ix, b, h, TwoPasses(Begin(ix), b, h)), b.hash);
    KnownInView(view, Opened(ix, b, h, TwoPasses(Begin(ix), b, h)), known);
  }

  lemma MemoryParts(s: State, lastBlocks: seq<BlockHash>, pending: seq<BlockHash>, known: set<ScriptHash>,
                    cache: map<Outpoint, Value>, db: Db, batch: Option<Batch>)
    requires Memory(s, lastBlocks, pending, known, cache, db, batch)
    ensures s.from <= s.live <= |s.All()| && lastBlocks == Hashes(s.All()[s.live..]) && pending == s.pending
  {
  }

  lemma MemoryBatch(s: State, lastBlocks: seq<BlockHash>, pending: seq<BlockHash>, known: set<ScriptHash>,
                    cache: map<Outpoint, Value>, db: Db, batch: Option<Batch>)
    requires Memory(s, lastBlocks, pending, known, cache, db, batch) && s.staged != []
    ensures batch.Some? && ForwardBatch(db, batch.value) && BatchHolds(db, Overlay(db, batch.value), s) && pending == s.pending
  {
  }

  lemma FullParts(s: State, undo: nat)
    requires Full(s, undo)
    ensures s.up && s.staged != [] && s.live <= |s.All()|
  {
  }

  lemma StagedMemory(s: State, lastBlocks: seq<BlockHash>, pending: seq<BlockHash>, known: set<ScriptHash>,
                     cache: map<Outpoint, Value>, db: Db, batch: Batch, view: Db, b: Block, undo: nat)
    requires s.from <= s.live <= |s.All()| && lastBlocks == Hashes(s.All()[s.live..])
    requires pending == s.pending && ForwardBatch(db, batch)
    requires StagedView(db, view, s, b) && Overlay(db, batch) == view[N(b.hash) := VEmpty]
    requires known <= Windowed(s.All() + [b], s.from).firstSeen.Keys && CacheOk(cache, Windowed(s.All() + [b], s.from))
    ensures var w, k := lastBlocks + [b.hash], Aged(0, |lastBlocks| + 1, undo);
      Memory(Staged(s, b, undo), w[k..], pending + w[..k], known, cache, db, Some(batch))
  {
    hide Holds, Windowed, CacheOk, ForwardBatch, Hashes, Aged;
    WindowPushed(s.All(), s.live, b, undo);
    StagedAll(s, b, undo);
    assert MetaKept(db, Overlay(db, batch));
  }

  lemma WindowPushed(all: seq<Block>, live: nat, b: Block, undo: nat)
    requires live <= |all|
    ensures var w, k, to := Hashes(all[live..]) + [b.hash], Aged(0, |all| - live + 1, undo), Aged(live, |all| + 1, undo);
      && to == live + k
      && w[k..] == Hashes((all + [b])[to..]) && w[..k] == Hashes((all + [b])[live..to])
  {
  }

  lemma StagedAll(s: State, b: Block, undo: nat)
    requires s.live <= |s.All()|
    ensures Staged(s, b, undo).All() == s.All() + [b]
  {
  }

  // ----- discarding

  lemma CacheBackOne(cache: map<Outpoint, Value>, ix: Index, b: Block, h: int)
    requires BlockFresh(ix, b, h) && CacheOk(cache, Connect(ix, b, h))
    ensures CacheOk(cache, ix)
  {
    ConnectClosed(ix, b, h);
    CreatedFacts(b, h);
    var ix' := Connect(ix, b, h);
    forall op | op in cache && op in ix.utxo ensures cache[op] == OutValue(op, ix.utxo[op]) {
      assert op !in ix'.utxo ==> op in ix'.undo[b.hash].spent && ix'.undo[b.hash].spent[op] == ix.utxo[op];
    }
    forall op, bh | op in cache && bh in ix.undo && op in ix.undo[bh].spent
      ensures cache[op] == OutValue(op, ix.undo[bh].spent[op])
    {
      assert ix'.undo[bh] == ix.undo[bh];
    }
  }

  /** A cache right for the staged index is right for the durable one. */
  lemma {:induction false} CacheBack(cache: map<Outpoint, Value>, chain: seq<Block>, staged: seq<Block>, from: nat)
    requires ValidChain(chain + staged) && from <= |chain| && CacheOk(cache, Windowed(chain + staged, from))
    ensures CacheOk(cache, Windowed(chain, from))
  {
    hide CacheOk, Windowed, ValidBlock, BlockFresh, IndexOf, Connect;
    if staged == [] {
      assert chain + staged == chain;
    } else {
      var init, b := staged[..|staged| - 1], staged[|staged| - 1];
      assert chain + staged == (chain + init) + [b];
      ValidStep(chain + init, b);
      WindowedStep(chain + init, from, b);
      WindowedFresh(chain + init, from, b);
      CacheBackOne(cache, Windowed(chain + init, from), b, |chain + init|);
      CacheBack(cache, chain, init, from);
    }
  }

  // ----- committing and cleaning up

  function WithTip(view: Db, h: int, hash: BlockHash): Db {
    view[TipHeight := VHeight(h)][TipHash := VHash(hash)]
  }

  function WithList(view: Db, pending: seq<BlockHash>): Db {
    if pending != [] then view[P := VPending(pending)] else view
  }

  lemma HoldsMeta(view: Db, view': Db, ix: Index)
    requires Holds(view, ix) && (forall k :: !Meta(k) ==> Get(view', k) == Get(view, k))
    ensures Holds(view', ix)
  {
  }

  lemma TipSet(view: Db, all: seq<Block>, pending: seq<BlockHash>)
    requires all != []
    ensures var view' := WithList(WithTip(view, |all| - 1, all[|all| - 1].hash), pending);
      && TipMatches(view', all)
      && Get(view', P) == (if pending != [] then Some(VPending(pending)) else Get(view, P))
      && forall k :: !Meta(k) ==> Get(view', k) == Get(view, k)
  {
  }

  /** A committed batch with its tip pointer and cleanup list makes the staged blocks durable. */
  lemma CommitDurable(db: Db, view: Db, s: State)
    requires Durable(db, s) && BatchHolds(db, view, s) && s.staged != []
    ensures Durable(WithList(WithTip(view, |s.All()| - 1, s.All()[|s.All()| - 1].hash), s.pending), Committed(s))
  {
    hide Holds, Windowed, TipMatches, WithTip, WithList;
    var all := s.All();
    TipSet(view, all, s.pending);
    HoldsMeta(view, WithList(WithTip(view, |all| - 1, all[|all| - 1].hash), s.pending), Windowed(all, s.from));
    assert Get(view, P) == Get(db, P);
  }

  lemma CommitMemory(s: State, lastBlocks: seq<BlockHash>, pending: seq<BlockHash>, known: set<ScriptHash>,
                     cache: map<Outpoint, Value>, db: Db, db': Db, batch: Option<Batch>, batch': Option<Batch>)
    requires Memory(s, lastBlocks, pending, known, cache, db, batch)
    ensures Memory(Committed(s), lastBlocks, pending, known, cache, db', batch')
  {
    assert Committed(s).All() == s.All();
    hide Caches, Windowed;
  }

  /** What is cleaned: each pending block once, unless it is in the window. */
  ghost predicate ToClean(toClean: seq<BlockHash>, pending: seq<BlockHash>, lastBlocks: seq<BlockHash>) {
    Elems(toClean) == Elems(pending) - Elems(lastBlocks) && Distinct(toClean)
  }

  /** Pruning the blocks to clean moves the stored window up to the one in memory. */
  lemma CleanableQueued(s: State, undo: nat)
    requires Wf(s, undo) || FreshlyCommitted(s, undo)
    ensures ValidChain(s.All()) && Queued(s)
  {
  }

  lemma CleanPrunes(s: State, lastBlocks: seq<BlockHash>, toClean: seq<BlockHash>)
    requires ValidChain(s.All()) && Queued(s) && s.staged == []
    requires lastBlocks == Hashes(s.chain[s.live..]) && ToClean(toClean, s.pending, lastBlocks)
    ensures Prune(Windowed(s.chain, s.from), Elems(toClean)) == Windowed(s.chain, s.live)
  {
    assert s.All() == s.chain;
    HashesElems(s.chain[s.live..]);
    HashSetsDisjoint(s.chain, s.live);
    assert s.chain[..s.live][s.from..] == s.chain[s.from..s.live];
    hide Windowed, Prune, ValidChain, HashSet, Elems, Hashes;
    WindowedPrune(s.chain, s.from, s.live, Elems(toClean));
  }

  lemma CleanDurable(db: Db, view: Db, s: State)
    requires Durable(db, s) && s.pending != [] && s.live <= |s.chain|
    requires Holds(view, Windowed(s.chain, s.live)) && MetaKept(db, view)
    ensures Durable(view - {P}, Cleaned(s))
  {
    HoldsMeta(view, view - {P}, Windowed(s.chain, s.live));
    assert Get(view, TipHeight) == Get(db, TipHeight) && Get(view, TipHash) == Get(db, TipHash);
    hide Holds, Windowed;
  }

  lemma CachesPruned(known: set<ScriptHash>, cache: map<Outpoint, Value>, ix: Index, aged: set<BlockHash>)
    requires Caches(known, cache, ix)
    ensures Caches(known, cache, Prune(ix, aged))
  {
  }

  lemma CleanMemory(s: State, lastBlocks: seq<BlockHash>, pending: seq<BlockHash>, known: set<ScriptHash>,
                    cache: map<Outpoint, Value>, db: Db, batch: Option<Batch>, toClean: seq<BlockHash>,
                    db': Db, batch': Option<Batch>)
    requires Memory(s, lastBlocks, pending, known, cache, db, batch) && s.staged == [] && s.pending != []
    requires Prune(Windowed(s.chain, s.from), Elems(toClean)) == Windowed(s.chain, s.live)
    ensures Memory(Cleaned(s), lastBlocks, [], known, cache, db', batch')
  {
    hide Windowed, Prune, Caches;
    assert s.All() == s.chain && Cleaned(s).All() == s.chain;
    CachesPruned(known, cache, Windowed(s.chain, s.from), Elems(toClean));
  }

  /** The tip pointer as read back: -1 and nothing when the store has none. */
  function GetLastBlockHeight(db: Db): int {
    if TipHeight in db && db[TipHeight].VHeight? then db[TipHeight].height else -1
  }

  function GetLastBlockHash(db: Db): Option<BlockHash> {
    if TipHash in db && db[TipHash].VHash? then Some(db[TipHash].bh) else None
  }

  // ----- dropping the batch

  lemma DurableChain(s: State, undo: nat, db: Db)
    requires Wf(s, undo) && Durable(db, s)
    ensures ValidChain(s.chain) && s.from <= |s.chain| && Holds(db, Windowed(s.chain, s.from))
  {
    assert s.All()[..|s.chain|] == s.chain;
    PrefixValid(s.All(), |s.chain|);
    hide Holds, Windowed, TipMatches;
  }

  lemma ListDurable(db: Db, s: State)
    requires Durable(db, s)
    ensures Durable(WithList(db, s.pending), Discarded(s))
  {
    HoldsMeta(db, WithList(db, s.pending), Windowed(s.chain, s.from));
    hide Holds, Windowed;
  }

  /** With the batch gone and the window read back, memory agrees with what is durable. */
  lemma ReloadedMemory(s: State, lastBlocks: seq<BlockHash>, pending: seq<BlockHash>, known: set<ScriptHash>,
                       cache: map<Outpoint, Value>, db: Db, batch: Option<Batch>, lastBlocks': seq<BlockHash>,
                       db': Db, batch': Option<Batch>)
    requires Memory(s, lastBlocks, pending, known, cache, db, batch)
    requires ValidChain(s.All()) && s.from <= |s.chain| && lastBlocks' == Hashes(s.chain[s.from..])
    ensures Memory(Discarded(s), lastBlocks', pending, {}, cache, db', batch')
  {
    CacheBack(cache, s.chain, s.staged, s.from);
    assert Discarded(s).All() == s.chain;
    hide Windowed, ValidChain, CacheOk;
  }

  lemma RestartedMemory(s: State, lastBlocks': seq<BlockHash>, db': Db, batch': Option<Batch>)
    requires s.from <= |s.chain| && lastBlocks' == Hashes(s.chain[s.from..])
    ensures Memory(Restarted(s), lastBlocks', Restarted(s).pending, {}, map[], db', batch')
  {
    assert Restarted(s).All() == s.chain;
  }

  // ----- rolling back

  lemma CachesAfterRollback(db: Db, known: set<ScriptHash>, cache: map<Outpoint, Value>, ix: Index, bh: BlockHash)
    requires Holds(db, ix) && bh in ix.undo && Caches(known, cache, ix)
    ensures CacheOk(cache, Disconnect(ix, bh))
    ensures (forall k :: k in db ==> !(k.Z? && k.bh == bh)) ==> known <= Disconnect(ix, bh).firstSeen.Keys
  {
    if forall k :: k in db ==> !(k.Z? && k.bh == bh) {
      forall script ensures script !in ix.undo[bh].newScripts {
        assert Get(db, Z(bh, script)) == At(ix, Z(bh, script));
      }
    }
  }

  /** The tip of a windowed chain can be rolled back, to the windowed index of the shorter chain. */
  lemma TipUnwinds(c: seq<Block>, from: nat)
    requires ValidChain(c) && from < |c|
    ensures var b, init := c[|c| - 1], c[..|c| - 1];
      && Unwindable(Windowed(c, from), b.hash)
      && Disconnect(Windowed(c, from), b.hash) == Windowed(init, from)
      && (init != [] ==> b.prevHash == init[|init| - 1].hash)
  {
    var b, init := c[|c| - 1], c[..|c| - 1];
    assert c == init + [b];
    ValidStep(init, b);
    ValidDistinct(IndexOf(init), b, |init|);
    hide ValidChain, ValidBlock, Unwindable, Windowed, Disconnect, IndexOf, BlockFresh, Connect;
    WindowedBack(init, from, b);
    WindowedStep(init, from, b);
    WindowedFresh(init, from, b);
    ConnectUnwindable(Windowed(init, from), b, |init|);
  }

  /** The tip pointer and the block record it names agree, in every state of a run. */
  lemma CommittedTip(db: Db, s: State, undo: nat)
    requires Wf(s, undo) && Durable(db, s) && s.chain != []
    ensures GetLastBlockHeight(db) == |s.chain| - 1
    ensures GetLastBlockHash(db) == Some(s.chain[|s.chain| - 1].hash)
    ensures var last := s.chain[|s.chain| - 1];
      GetBlock(db, last.hash) == Some(BlockRec(|s.chain| - 1, last.timestamp, last.prevHash))
  {
    hide Wf, Holds, Windowed, ValidChain, GetBlock;
    DurableChain(s, undo, db);
    WindowHeights(db, s.chain, s.from, |s.chain| - 1);
  }

  lemma SameTip(db: Db, s: State)
    requires Durable(db, s) && s.chain != []
    ensures db[TipHash := VHash(s.chain[|s.chain| - 1].hash)][TipHeight := VHeight(|s.chain| - 1)] == db
  {
    hide Holds, Windowed;
  }

  lemma SameMemory(s: State, lastBlocks: seq<BlockHash>, pending: seq<BlockHash>, known: set<ScriptHash>,
                   cache: map<Outpoint, Value>, db: Db, batch: Option<Batch>, db': Db, batch': Option<Batch>)
    requires Memory(s, lastBlocks, pending, known, cache, db, batch) && s.staged == []
    ensures Memory(s, lastBlocks, pending, known, cache, db', batch')
  {
  }

  lemma SameDurable(db: Db, s: State, s': State)
    requires Durable(db, s) && s'.chain == s.chain && s'.from == s.from && s'.stored == s.stored
    ensures Durable(db, s')
  {
    hide Holds, Windowed, TipMatches;
  }

  lemma AbandonedMemory(s: State, lastBlocks: seq<BlockHash>, pending: seq<BlockHash>, cache: map<Outpoint, Value>,
                        db: Db, batch: Option<Batch>)
    requires s.staged == [] && s.live == s.from <= |s.chain|
    requires CacheOk(cache, Windowed(s.chain, s.from)) && pending == s.pending && lastBlocks == Hashes(s.chain[s.from..])
    ensures Memory(s, lastBlocks, pending, {}, cache, db, batch)
  {
    hide Windowed, CacheOk;
    assert s.All() == s.chain;
  }

  /** What a rollback of the tip starts from. */
  lemma RollbackReady(s: State, undo: nat, lastBlocks: seq<BlockHash>, pending: seq<BlockHash>, known: set<ScriptHash>,
                      cache: map<Outpoint, Value>, db: Db, batch: Option<Batch>)
    requires Wf(s, undo) && Durable(db, s) && s.staged == [] && s.chain != []
    requires Memory(s, lastBlocks, pending, known, cache, db, batch)
    ensures Holds(db, Windowed(s.chain, s.from)) && pending == s.pending
    ensures Caches(known, cache, Windowed(s.chain, s.from)) && CacheOk(cache, Windowed(s.chain, s.from))
    ensures lastBlocks == Hashes(s.chain[s.live..]) && Distinct(lastBlocks)
    ensures s.live < |s.chain| ==> lastBlocks[|lastBlocks| - 1] == s.chain[|s.chain| - 1].hash
    ensures s.live < |s.chain| ==> lastBlocks[..|lastBlocks| - 1] == Hashes(s.chain[..|s.chain| - 1][s.live..])
  {
    hide Holds, Windowed, TipMatches, CacheOk, ValidChain;
    assert s.All() == s.chain;
    HashesDistinct(s.chain);
  }

  /** The rollback's batch with the tip pointer moved down makes the shorter chain durable. */
  lemma RollbackCommits(s: State, undo: nat, db: Db, batch: Batch, rec: BlockRec)
    requires Wf(s, undo) && Durable(db, s) && s.staged == [] && s.live < |s.chain|
    requires var bh := s.chain[|s.chain| - 1].hash;
      GetBlock(db, bh) == Some(rec) && StagedRollback(db, batch, bh)
    requires forall k :: Meta(k) ==> Get(batch, k) == None
    ensures var view := Overlay(db, batch);
      Durable(view[TipHash := VHash(rec.prevHash)][TipHeight := VHeight(rec.height - 1)],
              s.(chain := s.chain[..|s.chain| - 1]))
  {
    hide Wf, Windowed, Holds, TipMatches, ValidChain, Unwindable, Disconnect, StagedRollback, Durable, GetBlock;
    WfBounds(s, undo);
    DurableChain(s, undo, db);
    DurableMeta(db, s);
    TipUnwinds(s.chain, s.from);
    WindowHeights(db, s.chain, s.from, |s.chain| - 1);
    var init, last := s.chain[..|s.chain| - 1], s.chain[|s.chain| - 1];
    var view := Overlay(db, batch);
    RollbackHolds(db, batch, Windowed(s.chain, s.from), last.hash);
    assert Get(view, P) == Seen(db, batch, P);
    assert Get(batch, P) == None;
    LowerTip(view, init, rec, s.stored);
    HoldsMeta(view, view[TipHash := VHash(rec.prevHash)][TipHeight := VHeight(rec.height - 1)], Windowed(init, s.from));
    DurableFrom(view[TipHash := VHash(rec.prevHash)][TipHeight := VHeight(rec.height - 1)], s.(chain := init));
  }

  lemma DurableMeta(db: Db, s: State)
    requires Durable(db, s)
    ensures Get(db, P) == StoredList(s.stored) && s.from <= |s.chain|
  {
  }

  lemma DurableFrom(db: Db, s: State)
    requires s.from <= |s.chain| && Holds(db, Windowed(s.chain, s.from))
    requires TipMatches(db, s.chain) && Get(db, P) == StoredList(s.stored)
    ensures Durable(db, s)
  {
  }

  lemma LowerTip(view: Db, init: seq<Block>, rec: BlockRec, stored: Option<seq<BlockHash>>)
    requires rec.height == |init| && (init != [] ==> rec.prevHash == init[|init| - 1].hash)
    requires Get(view, P) == StoredList(stored)
    ensures var view' := view[TipHash := VHash(rec.prevHash)][TipHeight := VHeight(rec.height - 1)];
      && TipMatches(view', init) && Get(view', P) == StoredList(stored)
      && forall k :: !Meta(k) ==> Get(view', k) == Get(view, k)
  {
  }

  lemma RollbackMemory(s: State, undo: nat, db: Db, known: set<ScriptHash>, known': set<ScriptHash>,
                       cache: map<Outpoint, Value>, lastBlocks: seq<BlockHash>, pending: seq<BlockHash>,
                       db': Db, batch': Option<Batch>)
    requires Wf(s, undo) && Durable(db, s) && s.staged == [] && s.live < |s.chain|
    requires Caches(known, cache, Windowed(s.chain, s.from)) && pending == s.pending
    requires lastBlocks == Hashes(s.chain[..|s.chain| - 1][s.live..])
    requires known' == if ScanZ(db, s.chain[|s.chain| - 1].hash) == {} then known else {}
    ensures Memory(s.(chain := s.chain[..|s.chain| - 1]), lastBlocks, pending, known', cache, db', batch')
  {
    hide Wf, Windowed, Holds, TipMatches, ValidChain, Unwindable, Disconnect, Hashes;
    WfBounds(s, undo);
    DurableChain(s, undo, db);
    TipUnwinds(s.chain, s.from);
    var last := s.chain[|s.chain| - 1].hash;
    UnwindableHas(Windowed(s.chain, s.from), last);
    CachesAfterRollback(db, known, cache, Windowed(s.chain, s.from), last);
    assert s.(chain := s.chain[..|s.chain| - 1]).All() == s.chain[..|s.chain| - 1];
    assert ScanZ(db, last) == {} ==> forall k :: k in db ==> !(k.Z? && k.bh == last) by {
      assert forall k :: k in db && k.Z? && k.bh == last ==> k in ScanZ(db, last);
    }
  }

  lemma UnwindableHas(ix: Index, bh: BlockHash)
    requires Unwindable(ix, bh)
    ensures bh in ix.undo
  {
  }

  // ----- what the durable records say

  /** There is an output record and a hint for each of these coins and for no other outpoint or script, and
      they tell the coin. */
  ghost predicate HoldsCoins(db: Db, coins: map<Outpoint, Coin>) {
    && (forall script, op :: O(script, op) in db <==> op in coins && coins[op].script == script)
    && (forall op :: H(op) in db <==> op in coins)
    && forall op :: op in coins ==> Tells(db[O(coins[op].script, op)], op, coins[op]) && db[H(op)] == VScript(coins[op].script)
  }

  lemma HeldOutputs(db: Db, ix: Index)
    requires Holds(db, ix)
    ensures HoldsCoins(db, ix.utxo)
  {
    forall script, op ensures O(script, op) in db <==> op in ix.utxo && ix.utxo[op].script == script {
      assert Get(db, O(script, op)) == At(ix, O(script, op));
    }
    forall op
      ensures H(op) in db <==> op in ix.utxo
      ensures op in ix.utxo ==>
        Tells(db[O(ix.utxo[op].script, op)], op, ix.utxo[op]) && db[H(op)] == VScript(ix.utxo[op].script)
    {
      assert Get(db, H(op)) == At(ix, H(op));
      if op in ix.utxo {
        assert Get(db, O(ix.utxo[op].script, op)) == At(ix, O(ix.utxo[op].script, op));
      }
    }
  }

  /** Whatever the run, the stored outputs are those of replaying the stored chain from genesis. */
  lemma DurableCoins(db: Db, s: State, undo: nat)
    requires Wf(s, undo) && Durable(db, s)
    ensures HoldsCoins(db, Replay(s.chain))
  {
    hide Wf, Durable, ValidChain, Replay, Holds, HoldsCoins;
    DurableChain(s, undo, db);
    HeldOutputs(db, Windowed(s.chain, s.from));
    IndexCoinsAreReplay(s.chain);
  }

  lemma TipPointerRead(db: Db, s: State)
    requires Durable(db, s)
    ensures GetLastBlockHeight(db) == |s.chain| - 1
    ensures s.chain != [] ==> GetLastBlockHash(db) == Some(s.chain[|s.chain| - 1].hash)
  {
    hide Holds, Windowed;
  }

  /** The state decides the whole store: two stores in one state with a block in it are equal. */
  lemma DurableDetermined(db: Db, db': Db, s: State)
    requires Durable(db, s) && Durable(db', s) && s.chain != []
    ensures db == db'
  {
    hide Windowed;
    HoldsDetermines(db, db', Windowed(s.chain, s.from));
    forall k ensures Get(db, k) == Get(db', k) {
      assert k !in {P, TipHeight, TipHash} ==>
        (k in db <==> k in db - {P, TipHeight, TipHash}) && (k in db' <==> k in db' - {P, TipHeight, TipHash});
      assert k in db - {P, TipHeight, TipHash} ==> (db - {P, TipHeight, TipHash})[k] == db[k];
    }
    SameGets(db, db');
  }

  lemma SameGets(db: Db, db': Db)
    requires forall k :: Get(db, k) == Get(db', k)
    ensures db == db'
  {
    forall k ensures (k in db <==> k in db') && (k in db ==> db[k] == db'[k]) {
      assert Get(db, k) == Get(db', k);
    }
  }

  /** Every block from the window's start on has all the undo records it was staged with, and no
      block before it has any. */
  lemma WindowComplete(s: State, undo: nat, i: nat)
    requires Wf(s, undo) && i < |s.chain|
    ensures var ix, bh := Windowed(s.chain, s.from), s.chain[i].hash;
      && (bh in ix.window <==> s.from <= i) && (bh in ix.undo <==> s.from <= i)
      && (s.from <= i ==> bh in IndexOf(s.chain).undo && ix.undo[bh] == IndexOf(s.chain).undo[bh])
  {
    hide Wf, IndexOf, ValidChain;
    assert s.All()[..|s.chain|] == s.chain;
    WfBounds(s, undo);
    PrefixValid(s.All(), |s.chain|);
    WindowIsSuffix(s.chain, s.from);
    HashSetsDisjoint(s.chain, s.from);
  }

}
