/** The tracker object: the sync loop's steps over the store, the undo window and the cleanup list.

    `s` is the state of SyncSpec the object is in. Every step is proved to move `s` as the
    specification says and to keep the store, the window and the caches in agreement with it. */
module Tracker {
  import opened Chain
  import opened Index
  import opened Ledger
  import opened StoreKeys
  import opened LevelUpStore
  import opened BlockStaging
  import opened StoreCleanup
  import opened StoreRollback
  import opened StorePrune
  import opened SyncSpec
  import opened LastBlocks
  import opened TrackerState

  datatype Removal = Removed | EmptyWindow | NotInWindow | NotLast
  datatype Rolled = Done | Retry | Unrecoverable

  class UtxoTracker {
    const store: LevelUpStore
    const undoBlocks: nat
    var lastBlocks: seq<BlockHash>
    var pendingKMCleanup: seq<BlockHash>
    var lastProcessedBlockIndex: int
    var lastProcessedBlockHash: Option<BlockHash>
    var blocksQuantity: int
    ghost var s: State

    constructor (undo: nat)
      ensures undoBlocks == undo && s == INITIAL && Valid()
      ensures fresh(store) && store.db == map[] && s.up && s.All() == [] && blocksQuantity == 0
    {
      store := new LevelUpStore();
      undoBlocks := undo;
      lastBlocks, pendingKMCleanup := [], [];
      lastProcessedBlockIndex, lastProcessedBlockHash, blocksQuantity := -1, None, 0;
      s := INITIAL;
      new;
      InitialWf(undo);
      InitialHolds(store.db);
    }

    /** Durable records always agree with `s`; the object's own fields do while the loop is up. */
    ghost predicate Loaded()
      reads this, store
    {
      Durable(store.db, s) && (s.up ==> InMemory())
    }

    ghost predicate InMemory()
      reads this, store
    {
      Memory(s, lastBlocks, pendingKMCleanup, store.knownScripts, store.outputCache, store.db, store.transactionArray)
    }

    /** The cursor sits on the last staged block, and the counter counts the staged ones. */
    ghost predicate CursorOk()
      reads this
    {
      && lastProcessedBlockIndex == |s.All()| - 1
      && (s.All() != [] ==> lastProcessedBlockHash == Some(s.All()[|s.All()| - 1].hash))
      && blocksQuantity == |s.staged|
    }

    ghost predicate Valid()
      reads this, store
    {
      Wf(s, undoBlocks) && Loaded() && (s.up ==> CursorOk())
    }

    // ----- the window

    /** Pushes a block on the window and shifts the oldest out to the cleanup list. */
    method AddToLastBlocks(bh: BlockHash)
      requires store.Forward()
      modifies this`lastBlocks, this`pendingKMCleanup, store`db, store`transactionArray, store`deletedTransactionArray
      ensures store.Forward() && store.db == old(store.db)
      ensures store.View() == old(store.View())[N(bh) := VEmpty]
      ensures var all, k := old(lastBlocks) + [bh], Aged(0, |old(lastBlocks)| + 1, undoBlocks);
        lastBlocks == all[k..] && pendingKMCleanup == old(pendingKMCleanup) + all[..k]
    {
      lastBlocks := lastBlocks + [bh];
      store.AddTransaction(N(bh), Put(VEmpty));
      ghost var all, k := lastBlocks, 0;
      while |lastBlocks| > undoBlocks
        invariant k <= |all| && lastBlocks == all[k..] && pendingKMCleanup == old(pendingKMCleanup) + all[..k]
        invariant k > 0 ==> |lastBlocks| >= undoBlocks
        invariant store.db == old(store.db) && store.View() == old(store.View())[N(bh) := VEmpty] && store.Forward()
      {
        var next := lastBlocks[0];
        lastBlocks := lastBlocks[1..];
        store.deletedTransactionArray := store.deletedTransactionArray - {next};
        pendingKMCleanup := pendingKMCleanup + [next];
        assert all[..k + 1] == all[..k] + [next];
        k := k + 1;
      }
    }

    /** Takes the tip out of the window, reading the window back once if the tip is not in it. */
    method RemoveFromLastBlocks(bh: BlockHash) returns (r: Removal)
      requires store.transactionArray.Some?
      modifies this`lastBlocks, store`db, store`transactionArray
      ensures store.transactionArray.Some? && store.db == old(store.db)
      ensures r.EmptyWindow? <==> old(lastBlocks) == []
      ensures r.NotInWindow? ==> bh !in old(lastBlocks) && bh !in StoredBlocks(store.db)
      ensures !r.Removed? ==> store.transactionArray == old(store.transactionArray)
      ensures bh in old(lastBlocks) ==>
        (r.Removed? <==> bh !in old(lastBlocks)[..|old(lastBlocks)| - 1])
      ensures bh in old(lastBlocks) && r.Removed? ==> lastBlocks == old(lastBlocks)[..|old(lastBlocks)| - 1]
      ensures r.Removed? ==>
        && (forall k :: k != N(bh) ==> Get(store.transactionArray.value, k) == Get(old(store.transactionArray).value, k))
        && (Get(old(store.transactionArray).value, N(bh)) == None ==>
              store.transactionArray.value == old(store.transactionArray).value[N(bh) := Del])
    {
      if |lastBlocks| == 0 {
        return EmptyWindow;
      }
      if bh !in lastBlocks {
        lastBlocks := LoadLastBlocksSortedByHeight(store.db);
        if bh !in lastBlocks {
          assert bh !in Elems(lastBlocks);
          return NotInWindow;
        }
      }
      var init := lastBlocks[..|lastBlocks| - 1];
      assert lastBlocks == init + [lastBlocks[|lastBlocks| - 1]];
      if bh !in init {
        lastBlocks := init;
        RemoveLastStoredBlock(store, bh);
        r := Removed;
      } else {
        r := NotLast;
      }
    }

    /** A step threw out of the loop: nothing but a restart follows. */
    method Abort()
      requires Wf(s, undoBlocks) && Loaded()
      modifies this`s
      ensures s == old(s).(up := false) && Wf(s, undoBlocks) && Loaded()
    {
      hide Wf, Holds, Windowed, Memory;
      Downed(s, undoBlocks);
      s := s.(up := false);
    }

    // ----- one block forward

    /** A block's records go into the batch, which its first block opens. */
    method StageInBatch(b: Block, h: nat)
      requires Loaded() && s.up && blocksQuantity == |s.staged|
      requires ValidChain(s.All() + [b]) && h == |s.All()|
      modifies store
      ensures store.Forward() && store.db == old(store.db)
      ensures StagedView(store.db, store.View(), s, b) && CacheOk(store.outputCache, Windowed(s.All() + [b], s.from))
      ensures store.knownScripts <= Windowed(s.All() + [b], s.from).firstSeen.Keys
    {
      ghost var batch := store.transactionArray;
      hide Holds, ValidChain, CacheOk, Connect, Windowed, BlockFresh, InputsExist, SpentKnown, Beneath;
      hide StoreKeys.MetaKept, ForwardBatch, TipMatches, ScriptsKnown, Memory, Hashes, StagedView;
      if blocksQuantity == 0 {
        store.BeginTransaction();
      }
      ghost var before := store.View();
      StagingReady(s, lastBlocks, pendingKMCleanup, store.knownScripts, store.outputCache, store.db, batch, store.transactionArray);
      StageFits(s.chain, s.staged, s.from, b);
      StageRecords(store, b, h, Windowed(s.chain, s.from), Windowed(s.All(), s.from));
      StagingDone(store.db, before, store.View(), store.knownScripts, s, b, h);
    }

    /** Stages the next block and puts it on the window. */
    method StageBlock(b: Block, h: nat)
      requires Wf(s, undoBlocks) && Loaded() && s.up && blocksQuantity == |s.staged|
      requires ValidChain(s.All() + [b]) && h == |s.All()|
      modifies this`lastBlocks, this`pendingKMCleanup, this`s, store
      ensures s == Staged(old(s), b, undoBlocks) && Full(s, undoBlocks) && Loaded()
    {
      hide Wf, Full, Holds, ValidChain, CacheOk, Windowed;
      hide StoreKeys.MetaKept, ForwardBatch, TipMatches, Memory, Hashes, StagedView;
      MemoryParts(s, lastBlocks, pendingKMCleanup, store.knownScripts, store.outputCache, store.db, store.transactionArray);
      StageInBatch(b, h);
      ghost var view := store.View();
      AddToLastBlocks(b.hash);
      StagedFull(s, b, undoBlocks);
      StagedMemory(s, old(lastBlocks), old(pendingKMCleanup), store.knownScripts, store.outputCache,
        store.db, store.transactionArray.value, view, b, undoBlocks);
      s := Staged(s, b, undoBlocks);
    }

    method AdvanceCursor(hash: BlockHash, height: int)
      modifies `blocksQuantity, `lastProcessedBlockIndex, `lastProcessedBlockHash
      ensures blocksQuantity == old(blocksQuantity) + 1
      ensures lastProcessedBlockIndex == height && lastProcessedBlockHash == Some(hash)
    {
      blocksQuantity := blocksQuantity + 1;
      lastProcessedBlockIndex := height;
      lastProcessedBlockHash := Some(hash);
    }

    /** The blocks a cleanup prunes: pending ones outside the window, each once. */
    method BlocksToClean() returns (toClean: seq<BlockHash>)
      ensures ToClean(toClean, pendingKMCleanup, lastBlocks)
    {
      var liveWindow, seen := set bh | bh in lastBlocks, {};
      toClean := [];
      for i := 0 to |pendingKMCleanup|
        invariant seen == Elems(toClean) && Distinct(toClean)
        invariant Elems(toClean) == Elems(pendingKMCleanup[..i]) - Elems(lastBlocks)
      {
        var bh := pendingKMCleanup[i];
        assert pendingKMCleanup[..i + 1] == pendingKMCleanup[..i] + [bh];
        if bh !in liveWindow && bh !in seen {
          seen := seen + {bh};
          toClean := toClean + [bh];
        }
      }
      assert pendingKMCleanup[..|pendingKMCleanup|] == pendingKMCleanup;
    }

    /** Prunes the aged-out blocks and deletes the P key with them, in one batch of its own. */
    method CleanupAgedBlocks(fails: bool)
      requires Wf(s, undoBlocks) || FreshlyCommitted(s, undoBlocks)
      requires Loaded() && s.up && s.staged == []
      modifies this`pendingKMCleanup, this`s, store
      ensures s == CleanedUp(old(s), fails) && Wf(s, undoBlocks) && Loaded()
    {
      hide Wf, FreshlyCommitted, Queued, Holds, ValidChain, Windowed, Memory, TipMatches, Hashes, ToClean, Caches;
      ghost var t, batch := s, store.transactionArray;
      MemoryParts(s, lastBlocks, pendingKMCleanup, store.knownScripts, store.outputCache, store.db, batch);
      CleanedUpWf(s, undoBlocks, fails);
      if |pendingKMCleanup| == 0 {
        return;
      }
      assert s.All() == s.chain;
      CleanableQueued(s, undoBlocks);
      var toClean := BlocksToClean();
      store.BeginTransaction();
      CleanPrunes(s, lastBlocks, toClean);
      StagePrune(store, toClean, Windowed(s.chain, s.from));
      ghost var view := store.View();
      store.AddTransaction(P, Del);
      var ok := store.EndTransaction(true, fails);
      if !ok {
        s := s.(up := false);
        return;
      }
      CleanDurable(old(store.db), view, s);
      pendingKMCleanup := [];
      s := Cleaned(s);
      CleanMemory(t, lastBlocks, old(pendingKMCleanup), store.knownScripts, store.outputCache, old(store.db), batch,
        toClean, store.db, store.transactionArray);
    }

    /** Commits the batch with the tip pointer and the cleanup list, all or nothing. */
    method CommitBatch(height: int, hash: BlockHash, fails: bool) returns (ok: bool)
      requires Loaded() && s.up && s.staged != []
      requires height == |s.All()| - 1 && hash == s.All()[height].hash
      modifies this`s, store
      ensures ok <==> !fails
      ensures s == if ok then Committed(old(s)) else old(s).(up := false)
      ensures Loaded()
    {
      hide Holds, Windowed, Memory, TipMatches, Hashes, BatchHolds, Caches, ForwardBatch;
      ghost var view, batch := store.View(), store.transactionArray;
      MemoryBatch(s, lastBlocks, pendingKMCleanup, store.knownScripts, store.outputCache, store.db, batch);
      store.AddTransaction(TipHeight, Put(VHeight(height)));
      store.AddTransaction(TipHash, Put(VHash(hash)));
      if |pendingKMCleanup| > 0 {
        store.AddTransaction(P, Put(VPending(pendingKMCleanup)));
      }
      assert store.View() == WithList(WithTip(view, height, hash), s.pending);
      ok := store.EndTransaction(true, fails);
      if !ok {
        s := s.(up := false);
        return;
      }
      CommitDurable(old(store.db), view, s);
      CommitMemory(s, lastBlocks, pendingKMCleanup, store.knownScripts, store.outputCache, old(store.db), store.db,
        batch, store.transactionArray);
      s := Committed(s);
    }

    /** A flush: commit, then clean up, then move the cursor onto the block and start a new batch. */
    method FlushBatch(hash: BlockHash, height: int, commitFails: bool, cleanupFails: bool)
      requires Full(s, undoBlocks) && Loaded()
      requires height == |s.All()| - 1 && hash == s.All()[height].hash
      modifies this`pendingKMCleanup, this`blocksQuantity, this`lastProcessedBlockIndex, this`lastProcessedBlockHash, this`s, store
      ensures s == Flushed(old(s), commitFails, cleanupFails) && Valid()
    {
      hide Wf, Full, FreshlyCommitted, Durable, Memory;
      FullParts(s, undoBlocks);
      FlushedWf(s, undoBlocks, commitFails, cleanupFails);
      CommittedWf(s, undoBlocks);
      var ok := CommitBatch(height, hash, commitFails);
      if !ok {
        return;
      }
      CleanupAgedBlocks(cleanupFails);
      blocksQuantity := -1;
      AdvanceCursor(hash, height);
      assert s.All() == old(s).All();
    }

    /** The next block: staged, then flushed at the node's tip, on a full batch or on demand. */
    method IndexBlock(b: Block, flush: bool, commitFails: bool, cleanupFails: bool)
      requires Valid() && s.up && ValidChain(s.All() + [b])
      modifies this, store
      ensures s == Step(old(s), Event.IndexBlock(b, flush, commitFails, cleanupFails), undoBlocks) && Valid()
      ensures !flush && |old(s).staged| + 1 < 200 ==> s.chain == old(s).chain && s.staged == old(s).staged + [b] && s.up
      ensures (flush || |old(s).staged| + 1 == 200) && !commitFails ==> s.chain == old(s).All() + [b] && s.staged == []
    {
      hide Wf, Full, Durable, Memory, ValidChain;
      var height := lastProcessedBlockIndex + 1;
      WfBounds(s, undoBlocks);
      StagedFull(s, b, undoBlocks);
      FullParts(Staged(s, b, undoBlocks), undoBlocks);
      StagedAll(s, b, undoBlocks);
      StageBlock(b, height);
      assert s.All()[height] == b;
      if flush || blocksQuantity == DB_TRANSACTION_BLOCKS_QUANTITY - 1 {
        FlushBatch(b.hash, height, commitFails, cleanupFails);
      } else {
        AdvanceCursor(b.hash, height);
      }
    }

    /** The node's tip came down to the cursor while blocks are staged: commit them as they are. */
    method FlushPendingAtTip(commitFails: bool, cleanupFails: bool)
      requires Valid() && s.up && s.staged != []
      modifies this, store
      ensures s == Step(old(s), FlushPending(commitFails, cleanupFails), undoBlocks) && Valid()
    {
      hide Wf, Full, Durable, Memory;
      BatchIsFull(s, undoBlocks);
      FlushBatch(lastProcessedBlockHash.value, lastProcessedBlockIndex, commitFails, cleanupFails);
    }

    // ----- losing the batch

    /** Reads the window back from disk. */
    method ReloadWindow(ghost c: seq<Block>, ghost from: nat)
      requires ValidChain(c) && from <= |c| && Holds(store.db, Windowed(c, from))
      modifies this`lastBlocks
      ensures lastBlocks == Hashes(c[from..])
    {
      lastBlocks := LoadLastBlocksSortedByHeight(store.db);
      LoadedWindow(store.db, c, from, lastBlocks);
    }

    /** Drops the open batch before a reorg walk: the cleanup list is saved on its own, outside
        the dropped batch, and the window, which counted the dropped blocks, is read back. */
    method DiscardBatch()
      requires Wf(s, undoBlocks) && Loaded() && s.up
      modifies this`lastBlocks, this`s, store
      ensures s == Discarded(old(s)) && Wf(s, undoBlocks) && Loaded()
    {
      hide Wf, Memory, Holds, Windowed, TipMatches, ValidChain, Hashes;
      WfBounds(s, undoBlocks);
      ReloadedWf(s, undoBlocks);
      MemoryParts(s, lastBlocks, pendingKMCleanup, store.knownScripts, store.outputCache, store.db, store.transactionArray);
      var ok := store.EndTransaction(false, false);
      ListDurable(store.db, s);
      if |pendingKMCleanup| > 0 {
        store.PutDirect(P, VPending(pendingKMCleanup));
      }
      assert store.db == WithList(old(store.db), s.pending);
      DurableChain(Discarded(s), undoBlocks, store.db);
      ReloadWindow(s.chain, s.from);
      ReloadedMemory(s, old(lastBlocks), pendingKMCleanup, old(store.knownScripts), store.outputCache, old(store.db),
        old(store.transactionArray), lastBlocks, store.db, store.transactionArray);
      s := Discarded(s);
    }

    /** The process died or a step threw: a new start reads everything back from disk. */
    method Restart()
      requires Valid()
      modifies this, store
      ensures s == Restarted(old(s)) && Valid() && s.up
    {
      hide Wf, Memory, Holds, Windowed, ValidChain, Hashes, TipMatches, GetLastBlockHeight, GetLastBlockHash;
      WfBounds(s, undoBlocks);
      ReloadedWf(s, undoBlocks);
      store.Reopen();
      TipPointerRead(store.db, s);
      lastProcessedBlockIndex := GetLastBlockHeight(store.db);
      lastProcessedBlockHash := GetLastBlockHash(store.db);
      DurableChain(s, undoBlocks, store.db);
      ReloadWindow(s.chain, s.from);
      pendingKMCleanup := [];
      if P in store.db && store.db[P].VPending? {
        pendingKMCleanup := store.db[P].hashes;
      }
      blocksQuantity := 0;
      RestartedMemory(s, lastBlocks, store.db, store.transactionArray);
      s := Restarted(s);
      assert s.All() == s.chain;
    }

    // ----- rolling back

    /** A rollback attempt that did not commit: drop its batch and read the window back. */
    method AbandonRollback()
      requires Wf(s, undoBlocks) && Durable(store.db, s) && s.up && s.staged == []
      requires CacheOk(store.outputCache, Windowed(s.chain, s.from)) && pendingKMCleanup == s.pending
      modifies this`lastBlocks, this`s, store
      ensures s == old(s).(live := old(s).from) && Wf(s, undoBlocks) && Loaded()
    {
      hide Wf, Memory, Windowed, Holds, TipMatches, ValidChain, Hashes, CacheOk;
      ReloadWf(s, undoBlocks);
      DurableChain(s, undoBlocks, store.db);
      var ok := store.EndTransaction(false, false);
      ReloadWindow(s.chain, s.from);
      s := s.(live := s.from);
      AbandonedMemory(s, lastBlocks, pendingKMCleanup, store.outputCache, store.db, store.transactionArray);
      SameDurable(store.db, old(s), s);
    }

    /** Stages the rollback of the tip: its undo records, then its window entry. */
    method StageTipRollback(bh: BlockHash) returns (removal: Removal)
      requires Durable(store.db, s) && s.chain != [] && bh == s.chain[|s.chain| - 1].hash
      requires lastBlocks == [] || (lastBlocks[|lastBlocks| - 1] == bh && Distinct(lastBlocks))
      modifies this`lastBlocks, store
      ensures store.transactionArray.Some? && store.db == old(store.db) && store.outputCache == old(store.outputCache)
      ensures removal == if old(lastBlocks) == [] then EmptyWindow else Removed
      ensures removal.Removed? ==>
        && lastBlocks == old(lastBlocks)[..|old(lastBlocks)| - 1]
        && StagedRollback(store.db, store.transactionArray.value, bh)
        && (forall k :: Meta(k) ==> Get(store.transactionArray.value, k) == None)
      ensures store.knownScripts == if ScanZ(store.db, bh) == {} then old(store.knownScripts) else {}
    {
      hide Holds, Windowed, TipMatches, StagedRollback;
      store.BeginTransaction();
      StageUndo(store, bh, Windowed(s.chain, s.from));
      removal := RemoveFromLastBlocks(bh);
    }

    /** Rolls the committed tip back one block in a batch of its own. */
    method RollBackTipBlock(bh: BlockHash, rec: BlockRec, fails: bool) returns (r: Rolled)
      requires Wf(s, undoBlocks) && Loaded() && s.up && s.staged == [] && s.chain != []
      requires bh == s.chain[|s.chain| - 1].hash && GetBlock(store.db, bh) == Some(rec)
      modifies this`lastBlocks, this`s, store
      ensures s == RolledBack(old(s), fails) && Wf(s, undoBlocks) && Loaded()
      ensures r == if old(s).live == |old(s).chain| then Unrecoverable else if fails then Retry else Done
    {
      hide Wf, Memory, Windowed, Holds, TipMatches, ValidChain, Hashes, CacheOk, Caches, StagedRollback, Durable;
      ghost var t, batch, known := s, store.transactionArray, store.knownScripts;
      assert s.All() == s.chain;
      WfBounds(s, undoBlocks);
      RolledBackWf(s, undoBlocks, fails);
      RollbackReady(s, undoBlocks, lastBlocks, pendingKMCleanup, known, store.outputCache, store.db, batch);
      var removal := StageTipRollback(bh);
      if removal.EmptyWindow? || removal.NotInWindow? {
        var dropped := store.EndTransaction(false, false);
        s := s.(up := false);
        SameDurable(store.db, t, s);
        return Unrecoverable;
      }
      var ok := false;
      if removal.Removed? {
        RollbackCommits(s, undoBlocks, store.db, store.transactionArray.value, rec);
        store.AddTransaction(TipHash, Put(VHash(rec.prevHash)));
        store.AddTransaction(TipHeight, Put(VHeight(rec.height - 1)));
        ok := store.EndTransaction(true, fails);
        if ok {
          s := s.(chain := s.chain[..|s.chain| - 1]);
          RollbackMemory(t, undoBlocks, old(store.db), known, store.knownScripts, store.outputCache,
            lastBlocks, pendingKMCleanup, store.db, store.transactionArray);
        }
      }
      if !ok {
        AbandonRollback();
        return Retry;
      }
      r := Done;
    }

    /** Points the stored tip at a block in a batch of its own; at the block it names already, nothing changes. */
    method CommitLastBlockPointerRepair(hash: BlockHash, height: int, fails: bool) returns (ok: bool)
      requires Wf(s, undoBlocks) && Loaded() && s.up && s.staged == [] && s.chain != []
      requires hash == s.chain[|s.chain| - 1].hash && height == |s.chain| - 1
      modifies this`s, store
      ensures ok <==> !fails
      ensures s == if ok then old(s) else old(s).(up := false)
      ensures Wf(s, undoBlocks) && Loaded()
    {
      hide Wf, Memory, Holds, Windowed, ValidChain, Hashes;
      ghost var batch := store.transactionArray;
      store.BeginTransaction();
      store.AddTransaction(TipHash, Put(VHash(hash)));
      store.AddTransaction(TipHeight, Put(VHeight(height)));
      SameTip(store.db, s);
      ok := store.EndTransaction(true, fails);
      if ok {
        SameMemory(s, lastBlocks, pendingKMCleanup, store.knownScripts, store.outputCache, old(store.db), batch,
          store.db, store.transactionArray);
      } else {
        Downed(s, undoBlocks);
        s := s.(up := false);
      }
    }

    // ----- whole runs

    /** After a walk or a discard the cursor is read back from the committed tip. */
    method ReadCursor()
      requires Wf(s, undoBlocks) && Loaded() && s.staged == []
      modifies this`blocksQuantity, this`lastProcessedBlockIndex, this`lastProcessedBlockHash
      ensures Valid() && s == old(s)
    {
      hide Wf, Durable, Memory, GetLastBlockHeight, GetLastBlockHash;
      TipPointerRead(store.db, s);
      lastProcessedBlockIndex := GetLastBlockHeight(store.db);
      lastProcessedBlockHash := GetLastBlockHash(store.db);
      blocksQuantity := 0;
      assert s.All() == s.chain;
    }

    /** One step of a run. */
    method Perform(e: Event)
      requires Valid() && Enabled(s, e)
      modifies this, store
      ensures s == Step(old(s), e, undoBlocks) && Valid()
    {
      hide Wf, Durable, Memory, ValidChain;
      match e
      case IndexBlock(b, flush, commitFails, cleanupFails) => IndexBlock(b, flush, commitFails, cleanupFails);
      case FlushPending(commitFails, cleanupFails) => FlushPendingAtTip(commitFails, cleanupFails);
      case CleanUp(fails) =>
        CleanupAgedBlocks(fails);
      case Discard =>
        DiscardBatch();
        ReadCursor();
      case RollBack(fails) =>
        CommittedTip(store.db, s, undoBlocks);
        var bh := GetLastBlockHash(store.db).value;
        var r := RollBackTipBlock(bh, GetBlock(store.db, bh).value, fails);
        ReadCursor();
      case Restart => Restart();
    }

    /** Any run of the loop: afterwards the stored coins are those of replaying the stored chain from
        genesis, and the cursor is the stored height plus the blocks staged, fewer than 200. */
    method Play(es: seq<Event>)
      requires Valid() && Runnable(s, es, undoBlocks)
      modifies this, store
      ensures Runnable(old(s), es, undoBlocks) && s == Run(old(s), es, undoBlocks) && Valid()
      ensures HoldsCoins(store.db, Replay(s.chain))
      ensures s.up ==> 0 <= blocksQuantity < 200
      ensures s.up ==> lastProcessedBlockIndex == GetLastBlockHeight(store.db) + blocksQuantity
    {
      hide Durable, Memory, Wf;
      var i := 0;
      while i < |es|
        invariant 0 <= i <= |es| && Valid() && Runnable(s, es[i..], undoBlocks)
        invariant Run(s, es[i..], undoBlocks) == Run(old(s), es, undoBlocks)
      {
        assert es[i..][0] == es[i] && es[i..][1..] == es[i + 1..];
        Perform(es[i]);
        i := i + 1;
      }
      DurableCoins(store.db, s, undoBlocks);
      WfBounds(s, undoBlocks);
      TipPointerRead(store.db, s);
    }
  }
}
