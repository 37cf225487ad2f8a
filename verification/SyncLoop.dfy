/** The sync loop's decisions around the tracker's steps: when a block is staged, when the open batch
    is dropped for a reorg walk, and what every such pass leaves behind. */
module SyncLoop {
  import opened Chain
  import opened Index
  import opened Ledger
  import opened StoreKeys
  import opened LevelUpStore
  import opened SyncSpec
  import opened LastBlocks
  import opened TrackerState
  import opened Tracker
  import opened ReorgWalk

  /** After a pass that rolled back: the chain it stopped on, nothing staged, nothing awaiting cleanup. */
  ghost predicate Settled(t: State) {
    t.up ==> t.staged == [] && t.live == t.from && t.pending == [] && t.stored == None
  }

  /** The next block does not extend our tip, or the node swapped the tip at its height: drop the open
      batch, walk back to the common ancestor, clean up what had aged out, and start afresh. */
  method RollBackToAncestor(tr: UtxoTracker, node: seq<Block>, faults: seq<Fault>, commitFails: seq<bool>, cleanupFails: bool)
    returns (outcome: Outcome, deleted: nat)
    requires tr.Valid() && tr.s.up
    modifies tr, tr.store
    ensures tr.Valid() && WalkedBack(old(tr.s), tr.s, node, tr.undoBlocks, outcome, deleted)
    ensures !cleanupFails ==> (tr.s.up <==> outcome.Reconciled? || outcome.TipBelow?)
    ensures outcome.GaveUp? ==> TenInARow(commitFails)
  {
    hide Wf, Durable, Memory, Verdict, WalkedOff, Walked, Discarded, CleanedUp, TenInARow, Settled;
    DiscardedList(tr.s, tr.undoBlocks);
    tr.DiscardBatch();
    outcome, deleted := VerifyReorg(tr, None, node, faults, commitFails);
    WalkedList(Discarded(old(tr.s)), tr.s, deleted);
    if outcome.Reconciled? || outcome.TipBelow? {
      tr.ReadCursor();
      CleanedList(tr.s, cleanupFails);
      tr.CleanupAgedBlocks(cleanupFails);
    }
  }

  /** What a walk from `s` leaves: the committed chain less the blocks removed, as many and for the reason
      the two chains decide, and nothing staged. */
  ghost predicate WalkedBack(s: State, t: State, node: seq<Block>, undo: nat, outcome: Outcome, deleted: nat) {
    && s.from <= |s.chain| && deleted <= |s.chain| && t.chain == s.chain[..|s.chain| - deleted] && t.from == s.from
    && Settled(t) && (t.up ==> outcome.Reconciled? || outcome.TipBelow?)
    && (!outcome.GaveUp? ==>
          && outcome == Verdict(s.chain, node, Budget(Discarded(s), undo))
          && deleted == WalkedOff(s.chain, node, Budget(Discarded(s), undo)))
  }

  /** In heights: the walk is decided by the fork, the start of the stored window and the configured depth. */
  lemma WalkedInHeights(s: State, t: State, node: seq<Block>, undo: nat, outcome: Outcome, deleted: nat)
    requires WalkedBack(s, t, node, undo, outcome, deleted) && !outcome.GaveUp?
    ensures InHeights(s.chain, s.from, node, undo, outcome, deleted)
  {
    hide InHeights, Verdict, WalkedOff;
    VerdictInHeights(Discarded(s), node, undo);
  }

  lemma WalkedList(s: State, t: State, deleted: nat)
    requires Walked(s, t, deleted)
    ensures deleted <= |s.chain| && t.chain == s.chain[..|s.chain| - deleted] && t.staged == s.staged
    ensures t.live == s.live && t.from == s.from && t.pending == s.pending && t.stored == s.stored
    ensures !t.up ==> Settled(t)
  {
  }

  lemma CleanedList(s: State, fails: bool)
    requires s.staged == [] && s.live == s.from && (s.pending == [] ==> s.stored == None)
    ensures var t := CleanedUp(s, fails);
      Settled(t) && t.chain == s.chain && t.from == s.from && t.All() == s.All() && t.staged == s.staged
      && (!fails ==> t.up == s.up) && (t.up ==> s.up)
  {
  }

  lemma DiscardedList(s: State, undo: nat)
    requires Wf(s, undo) && s.up
    ensures var t := Discarded(s);
      && t.staged == [] && t.live == t.from <= |t.chain| && t.up && t.chain == s.chain && t.from == s.from
      && (t.pending == [] ==> t.stored == None)
  {
  }

  /** Behind the node's tip: the next block is staged when it extends our tip, and otherwise is a reorg. */
  method IndexNextBlock(tr: UtxoTracker, b: Block, flush: bool, flushFails: bool, cleanupFails: bool,
                        node: seq<Block>, faults: seq<Fault>, commitFails: seq<bool>)
    returns (rolled: Option<(Outcome, nat)>)
    requires tr.Valid() && tr.s.up
    requires Extends(tr.s.All(), b) ==> ValidChain(tr.s.All() + [b])
    modifies tr, tr.store
    ensures tr.Valid()
    ensures rolled == None <==> Extends(old(tr.s).All(), b)
    ensures rolled == None <==>
      old(tr.s).All() == [] || b.prevHash == old(tr.s).All()[|old(tr.s).All()| - 1].hash
    ensures rolled == None ==>
      tr.s == Step(old(tr.s), Event.IndexBlock(b, flush, flushFails, cleanupFails), tr.undoBlocks)
    ensures rolled.Some? ==>
      WalkedBack(old(tr.s), tr.s, node, tr.undoBlocks, rolled.value.0, rolled.value.1)
  {
    hide Wf, Durable, Memory, ValidChain, WalkedBack;
    var height := tr.lastProcessedBlockIndex + 1;
    if height > 0 && tr.lastProcessedBlockHash != Some(b.prevHash) {
      var outcome, deleted := RollBackToAncestor(tr, node, faults, commitFails, cleanupFails);
      return Some((outcome, deleted));
    }
    tr.IndexBlock(b, flush, flushFails, cleanupFails);
    rolled := None;
  }

  predicate Extends(c: seq<Block>, b: Block) {
    c == [] || b.prevHash == c[|c| - 1].hash
  }

  /** The node names another block at our tip's height; genesis is not asked about. */
  predicate Swapped(c: seq<Block>, tipHashFromNode: Option<BlockHash>) {
    |c| > 1 && tipHashFromNode.Some? && tipHashFromNode != Some(c[|c| - 1].hash)
  }

  /** At the node's tip: a different hash at our height is a reorg; otherwise what is staged is committed. */
  method PollAtChainTip(tr: UtxoTracker, tipHashFromNode: Option<BlockHash>, flushFails: bool, cleanupFails: bool,
                        node: seq<Block>, faults: seq<Fault>, commitFails: seq<bool>)
    returns (synced: bool, rolled: Option<(Outcome, nat)>)
    requires tr.Valid() && tr.s.up
    modifies tr, tr.store
    ensures tr.Valid()
    ensures rolled.Some? <==> Swapped(old(tr.s).All(), tipHashFromNode)
    ensures rolled.Some? ==>
      !synced && WalkedBack(old(tr.s), tr.s, node, tr.undoBlocks, rolled.value.0, rolled.value.1)
    ensures rolled == None && old(tr.s).staged != [] ==>
      !synced && tr.s == Step(old(tr.s), FlushPending(flushFails, cleanupFails), tr.undoBlocks)
    ensures rolled == None && old(tr.s).staged == [] ==> synced && tr.s == old(tr.s)
    ensures rolled.Some? <==>
      |old(tr.s).All()| > 1 && tipHashFromNode.Some? && tipHashFromNode.value != old(tr.s).All()[|old(tr.s).All()| - 1].hash
    ensures synced && |tr.s.chain| > 1 && tipHashFromNode.Some? ==>
      tipHashFromNode.value == tr.s.chain[|tr.s.chain| - 1].hash
  {
    hide Wf, Durable, Memory, ValidChain, WalkedBack;
    rolled := None;
    var pending := tr.blocksQuantity > 0;
    if tr.lastProcessedBlockIndex > 0 && tipHashFromNode.Some? && tipHashFromNode != tr.lastProcessedBlockHash {
      var outcome, deleted := RollBackToAncestor(tr, node, faults, commitFails, cleanupFails);
      return false, Some((outcome, deleted));
    }
    if pending {
      tr.FlushPendingAtTip(flushFails, cleanupFails);
      return false, None;
    }
    assert tr.s.All() == tr.s.chain;
    synced := true;
  }

  // ----- the node's tip below ours

  /** The highest stored block, found by scanning the block records. */
  method GetLastBlock(db: Db) returns (last: Option<(BlockHash, BlockRec)>)
    ensures last == None <==> forall bh :: GetBlock(db, bh) == None
    ensures last.Some? ==> GetBlock(db, last.value.0) == Some(last.value.1)
    ensures last.Some? ==> forall bh :: GetBlock(db, bh).Some? ==> GetBlock(db, bh).value.height <= last.value.1.height
  {
    var todo := set k | k in db && k.B? && db[k].VBlock? :: k.bh;
    ghost var all := todo;
    last := None;
    while todo != {}
      invariant todo <= all
      invariant last == None <==> todo == all
      invariant last.Some? ==> last.value.0 in all - todo && GetBlock(db, last.value.0) == Some(last.value.1)
      invariant last.Some? ==> forall bh :: bh in all - todo ==> HeightOf(db, bh) <= last.value.1.height
      decreases |todo|
    {
      var bh :| bh in todo;
      var rec := db[B(bh)].rec;
      if last == None || rec.height > last.value.1.height {
        last := Some((bh, rec));
      }
      todo := todo - {bh};
    }
    forall bh ensures GetBlock(db, bh).Some? <==> bh in all {
      assert B(bh) in db && db[B(bh)].VBlock? ==> B(bh).bh in all;
    }
    assert all - todo == all;
    if last.Some? {
      forall bh | GetBlock(db, bh).Some? ensures GetBlock(db, bh).value.height <= last.value.1.height {
        assert HeightOf(db, bh) <= last.value.1.height;
      }
    }
  }

  lemma LastBlockIsTip(db: Db, s: State, undo: nat, last: Option<(BlockHash, BlockRec)>)
    requires Wf(s, undo) && Durable(db, s)
    requires last == None <==> forall bh :: GetBlock(db, bh) == None
    requires last.Some? ==> GetBlock(db, last.value.0) == Some(last.value.1)
    requires last.Some? ==> forall bh :: GetBlock(db, bh).Some? ==> GetBlock(db, bh).value.height <= last.value.1.height
    ensures last == None <==> s.chain == []
    ensures last.Some? ==> last.value.0 == s.chain[|s.chain| - 1].hash && last.value.1.height == |s.chain| - 1
  {
    hide Wf, Durable, GetBlock;
    TipRead(db, s, undo);
    if last.Some? {
      RecordedInChain(db, s, undo, last.value.0);
    }
  }

  lemma RecordedInChain(db: Db, s: State, undo: nat, bh: BlockHash)
    requires Wf(s, undo) && Durable(db, s) && GetBlock(db, bh).Some?
    ensures exists i :: 0 <= i < |s.chain| && s.chain[i].hash == bh && GetBlock(db, bh).value.height == i
  {
    hide Wf, Durable, Holds, Windowed, ValidChain, HashSet, Described, IndexOf;
    DurableChain(s, undo, db);
    ChainDescribed(s.chain);
    BlocksAre(s.chain, IndexOf(s.chain), s.from);
    RecordHeld(db, Windowed(s.chain, s.from), bh);
    InHashSet(s.chain, bh);
    var i :| 0 <= i < |s.chain| && s.chain[i].hash == bh;
    WindowHeights(db, s.chain, s.from, i);
  }

  lemma BlocksAre(c: seq<Block>, ix: Index, from: nat)
    requires ix == IndexOf(c) && Described(c, ix) && from <= |c|
    ensures Windowed(c, from).blocks.Keys == HashSet(c)
  {
    hide IndexOf, HashSet;
  }

  lemma RecordHeld(db: Db, ix: Index, bh: BlockHash)
    requires Holds(db, ix) && GetBlock(db, bh).Some?
    ensures bh in ix.blocks.Keys
  {
    assert Get(db, B(bh)) == At(ix, B(bh));
  }

  lemma InHashSet(c: seq<Block>, bh: BlockHash)
    ensures bh in HashSet(c) ==> exists i :: 0 <= i < |c| && c[i].hash == bh
  {
  }

  /** The node's tip has settled below our cursor: drop what is staged, then walk the committed blocks
      above that tip back, or, when none is, leave them and return the cursor to the committed tip.
      A store with no committed block is taken for a corrupt one, though it is only still empty. */
  method RecoverFromTipBelowOurs(tr: UtxoTracker, tip: int, node: seq<Block>, faults: seq<Fault>, commitFails: seq<bool>,
                                 repairFails: bool)
    returns (outcome: Outcome, deleted: nat, walked: bool)
    requires tr.Valid() && tr.s.up && tip == |node| - 1 && tr.lastProcessedBlockIndex > tip
    modifies tr, tr.store
    ensures tr.Valid()
    ensures deleted <= |old(tr.s).chain| && tr.s.chain == old(tr.s).chain[..|old(tr.s).chain| - deleted]
    ensures tr.s.from == old(tr.s).from && (tr.s.up ==> tr.s.staged == [])
    ensures tr.s.up ==> outcome.Reconciled? || outcome.TipBelow?
    ensures walked <==> |old(tr.s).chain| > |node|
    ensures old(tr.s).chain == [] ==> outcome == Corrupt && !tr.s.up
    ensures |old(tr.s).chain| > |node| && !outcome.GaveUp? ==>
      && outcome == Verdict(old(tr.s).chain, node, Budget(Discarded(old(tr.s)), tr.undoBlocks))
      && deleted == WalkedOff(old(tr.s).chain, node, Budget(Discarded(old(tr.s)), tr.undoBlocks))
    ensures 0 < |old(tr.s).chain| <= |node| ==> deleted == 0
    ensures |old(tr.s).chain| > |node| && !outcome.GaveUp? ==>
      InHeights(old(tr.s).chain, old(tr.s).from, node, tr.undoBlocks, outcome, deleted)
  {
    hide InHeights;
    hide Wf, Durable, Memory, Verdict, WalkedOff, Walked, GetBlock;
    QuietWindowOf(tr.s, tr.undoBlocks);
    if tr.blocksQuantity > 0 {
      tr.DiscardBatch();
    }
    ghost var s1 := tr.s;
    assert s1.All() == s1.chain;
    deleted := 0;
    assert old(tr.s).chain[..|old(tr.s).chain|] == old(tr.s).chain;
    var last := GetLastBlock(tr.store.db);
    LastBlockIsTip(tr.store.db, tr.s, tr.undoBlocks, last);
    if last == None {
      tr.Abort();
      return Corrupt, 0, false;
    }
    var up: bool;
    walked := last.value.1.height > tip;
    if walked {
      outcome, deleted := VerifyReorg(tr, Some(tip), node, faults, commitFails);
      WalkedList(s1, tr.s, deleted);
      up := outcome.Reconciled? || outcome.TipBelow?;
    } else {
      outcome := Reconciled;
      up := tr.CommitLastBlockPointerRepair(last.value.0, last.value.1.height, repairFails);
    }
    if up {
      tr.ReadCursor();
    }
  }

  lemma QuietWindowOf(s: State, undo: nat)
    requires Wf(s, undo) && s.up
    ensures s.from <= |s.chain| && (s.staged == [] ==> s.live == s.from && s.All() == s.chain)
    ensures s.staged == [] ==> Budget(Discarded(s), undo) == Budget(s, undo)
  {
  }
}
