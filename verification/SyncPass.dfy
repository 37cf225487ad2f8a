/** One pass of the sync loop, and which refused walks hold back later ones. */
module SyncPass {
  import opened Chain
  import opened Index
  import opened Ledger
  import opened SyncSpec
  import opened TrackerState
  import opened Tracker
  import opened ReorgWalk
  import opened SyncLoop
  import opened TipSettle

  /** What a pass meets: the loop's state, the node's tip and whether it is still catching up, the re-reads a
      lower tip gets, the node's hash at our height and its next block, and the chain it keeps through a walk. */
  datatype Pass = Pass(before: State, tip: int, catchingUp: bool, readings: seq<Reading>,
                       tipHash: Option<BlockHash>, next: Block, node: seq<Block>)

  function Cursor(p: Pass): int {
    |p.before.All()| - 1
  }

  /** The pass starts a rollback to the node's lower tip: it has settled below our cursor and a committed
      block stands above it. */
  ghost predicate StartsBelow(latched: bool, p: Pass) {
    && Cursor(p) > p.tip && !p.catchingUp && !latched
    && exists t :: SettlesOn(p.tip, p.readings, t) && t < Cursor(p) && t < |p.before.chain| - 1
  }

  /** The pass starts a walk without a tip: another block at our height, or a next block that is not ours. */
  predicate StartsForward(p: Pass) {
    Cursor(p) <= p.tip &&
    if Cursor(p) == p.tip then Swapped(p.before.All(), p.tipHash) else !Extends(p.before.All(), p.next)
  }

  /** The node's chain ends below the stored window, or further down than the configured depth reaches. */
  predicate Refused(p: Pass, undo: nat) {
    && p.before.from <= |p.before.chain| && p.before.chain != []
    && (|p.node| < p.before.from || |p.before.chain| - |p.node| > undo)
  }

  /** The refusal latch: dropped once the tip is back at our cursor, set by a refused rollback to a lower tip. */
  ghost function LatchAfter(latched: bool, p: Pass, undo: nat): bool {
    if Cursor(p) <= p.tip then false else if StartsBelow(latched, p) then Refused(p, undo) else latched
  }

  ghost function LatchAt(passes: seq<Pass>, n: nat, undo: nat): bool
    requires n <= |passes|
  {
    n > 0 && LatchAfter(LatchAt(passes, n - 1, undo), passes[n - 1], undo)
  }

  // ----- the pass itself

  /** At or behind the node's tip: poll there, or index the next block. */
  method AtOrBehind(tr: UtxoTracker, tip: int, tipHash: Option<BlockHash>, b: Block, node: seq<Block>, flush: bool,
                    flushFails: bool, cleanupFails: bool, faults: seq<Fault>, commitFails: seq<bool>)
    returns (walked: Option<Outcome>)
    requires tr.Valid() && tr.s.up && |tr.s.All()| - 1 <= tip
    requires Extends(tr.s.All(), b) ==> ValidChain(tr.s.All() + [b])
    modifies tr, tr.store
    ensures tr.Valid()
    ensures walked.Some? <==>
      if |old(tr.s).All()| - 1 == tip then Swapped(old(tr.s).All(), tipHash) else !Extends(old(tr.s).All(), b)
    ensures walked.Some? ==> exists deleted :: WalkedBack(old(tr.s), tr.s, node, tr.undoBlocks, walked.value, deleted)
  {
    hide Wf, Durable, Memory, ValidChain, WalkedBack;
    if tr.lastProcessedBlockIndex == tip {
      var synced, rolled := PollAtChainTip(tr, tipHash, flushFails, cleanupFails, node, faults, commitFails);
      walked := if rolled.Some? then Some(rolled.value.0) else None;
    } else {
      var rolled := IndexNextBlock(tr, b, flush, flushFails, cleanupFails, node, faults, commitFails);
      walked := if rolled.Some? then Some(rolled.value.0) else None;
    }
  }

  /** A walk that leaves the loop up ends in the verdict: reconciled, or refused. */
  lemma WalkedVerdict(s: State, t: State, node: seq<Block>, undo: nat, outcome: Outcome, deleted: nat, p: Pass)
    requires WalkedBack(s, t, node, undo, outcome, deleted) && t.up && p.before == s && p.node == node
    ensures outcome.TipBelow? <==> Refused(p, undo)
  {
    VerdictInHeights(Discarded(s), node, undo);
  }

  /** One pass over the tracker: at or behind the node's tip it polls or indexes; above it, it settles the tip
      and recovers. Unless a step threw, it leaves the latch specified, and a walk in it was refused exactly
      by the verdict. */
  method RunPass(tr: UtxoTracker, latched: bool, tip: int, catchingUp: bool, readings: seq<Reading>,
                 tipHash: Option<BlockHash>, b: Block, node: seq<Block>, flush: bool, flushFails: bool,
                 cleanupFails: bool, repairFails: bool, faults: seq<Fault>, commitFails: seq<bool>)
    returns (latch: bool, walked: Option<Outcome>)
    requires tr.Valid() && tr.s.up && |readings| >= MAX_READS
    requires Extends(tr.s.All(), b) ==> ValidChain(tr.s.All() + [b])
    requires forall t :: SettlesOn(tip, readings, t) && t < |tr.s.All()| - 1 ==> t == |node| - 1
    modifies tr, tr.store
    ensures tr.Valid()
    ensures var p := Pass(old(tr.s), tip, catchingUp, readings, tipHash, b, node);
      && (walked.Some? <==> StartsForward(p) || StartsBelow(latched, p))
      && (tr.s.up ==> latch == LatchAfter(latched, p, tr.undoBlocks))
      && (tr.s.up && walked.Some? ==> (walked.value.TipBelow? <==> Refused(p, tr.undoBlocks)))
  {
    hide Wf, Durable, Memory, ValidChain, WalkedBack, Refused, SettlesOn;
    ghost var p := Pass(tr.s, tip, catchingUp, readings, tipHash, b, node);
    QuietWindowOf(tr.s, tr.undoBlocks);
    walked := None;
    if tr.lastProcessedBlockIndex <= tip {
      walked := AtOrBehind(tr, tip, tipHash, b, node, flush, flushFails, cleanupFails, faults, commitFails);
      if walked.Some? && tr.s.up {
        ghost var deleted :| WalkedBack(p.before, tr.s, node, tr.undoBlocks, walked.value, deleted);
        WalkedVerdict(p.before, tr.s, node, tr.undoBlocks, walked.value, deleted, p);
      }
      return false, walked;
    }
    if catchingUp || latched {
      return latched, None;
    }
    var goOn, settled := SettleNodeTipBelow(tip, readings, tr.lastProcessedBlockIndex);
    forall t | SettlesOn(tip, readings, t) ensures t == settled {
      SettledTipUnique(tip, readings, t, settled);
    }
    if !goOn {
      return latched, None;
    }
    var outcome, deleted, began := RecoverFromTipBelowOurs(tr, settled, node, faults, commitFails, repairFails);
    if began {
      RecoveredVerdict(p, outcome, tr.undoBlocks);
      return outcome.TipBelow?, Some(outcome);
    }
    latch := latched;
  }

  lemma RecoveredVerdict(p: Pass, outcome: Outcome, undo: nat)
    requires p.before.from <= |p.before.chain|
    ensures outcome == Verdict(p.before.chain, p.node, Budget(Discarded(p.before), undo)) ==>
      (outcome.TipBelow? <==> Refused(p, undo))
  {
    VerdictInHeights(Discarded(p.before), p.node, undo);
  }

  // ----- runs of passes

  lemma {:induction false} LatchHolds(passes: seq<Pass>, i: nat, j: nat, undo: nat)
    requires i < j <= |passes| && StartsBelow(LatchAt(passes, i, undo), passes[i]) && Refused(passes[i], undo)
    requires forall k :: i < k < j ==> Cursor(passes[k]) > passes[k].tip
    ensures LatchAt(passes, j, undo)
  {
    hide Refused, SettlesOn;
    if j > i + 1 {
      LatchHolds(passes, i, j - 1, undo);
    }
  }

  /** Once a rollback to a lower tip is refused, no further one starts until a reading has reached our cursor. */
  lemma RefusedUntilRegained(passes: seq<Pass>, i: nat, j: nat, undo: nat)
    requires i < j < |passes|
    requires StartsBelow(LatchAt(passes, i, undo), passes[i]) && Refused(passes[i], undo)
    requires StartsBelow(LatchAt(passes, j, undo), passes[j])
    ensures exists k :: i < k < j && Cursor(passes[k]) <= passes[k].tip
  {
    hide Refused, SettlesOn;
    if forall k :: i < k < j ==> Cursor(passes[k]) > passes[k].tip {
      LatchHolds(passes, i, j, undo);
    }
  }

  /** The pass would start a rollback to a lower tip if no refusal held it back. */
  ghost predicate WouldStart(p: Pass) {
    StartsBelow(false, p)
  }

  /** Which refusals hold the next pass back: of two passes in a row, the first ending in a refused walk and the
      second meeting a tip that calls for a rollback, the second starts it if and only if the refused walk was
      one begun without a tip. Such a walk hands its refusal back to the tip check and sets no latch. */
  lemma HandedBackDoesNotBlock(passes: seq<Pass>, i: nat, undo: nat)
    requires i + 1 < |passes| && Refused(passes[i], undo) && WouldStart(passes[i + 1])
    requires StartsForward(passes[i]) || StartsBelow(LatchAt(passes, i, undo), passes[i])
    ensures StartsBelow(LatchAt(passes, i + 1, undo), passes[i + 1]) <==> StartsForward(passes[i])
  {
    hide Refused, SettlesOn, Swapped, Extends;
  }

  /** Such a run, from any quiet state whose blocks outnumber the budget: the next block is not ours, the node
      loses its whole chain during the walk, and the very next pass starts a rollback to the lower tip. */
  lemma HandedBackRun(s: State, b: Block, undo: nat)
    requires s.staged == [] && s.from <= |s.chain| && Budget(Discarded(s), undo) < |s.chain|
    requires !Extends(s.chain, b)
    ensures var p := Pass(s, |s.chain|, false, [], None, b, []);
      var q := Pass(s, -1, false, seq(MAX_READS, _ => Tip(-1)), None, b, []);
      && StartsForward(p) && Refused(p, undo) && StartsBelow(LatchAt([p, q], 1, undo), q)
  {
    var p := Pass(s, |s.chain|, false, [], None, b, []);
    var q := Pass(s, -1, false, seq(MAX_READS, _ => Tip(-1)), None, b, []);
    assert s.All() == s.chain;
    assert StillAt(-1, q.readings, STABLE_READS) && WithFirst(-1, q.readings)[STABLE_READS] == Tip(-1);
    assert SettlesOn(q.tip, q.readings, -1);
    HandedBackDoesNotBlock([p, q], 0, undo);
  }
}
