/** The sync loop as a state machine on the chain, its batch and its undo window. */
module SyncSpec {
  import opened Chain
  import opened Index
  import opened Ledger

  const DB_TRANSACTION_BLOCKS_QUANTITY: nat := 200

  /** `chain` is durable, `staged` sits in the open batch. Undo records survive on disk from
      height `from` on; the in-memory window starts at height `live`. `pending` lists the blocks
      awaiting cleanup in memory, `stored` the list under the durable P key. `up` is false once
      a step has thrown out of the loop: only a restart follows. */
  datatype State = State(chain: seq<Block>, staged: seq<Block>, from: nat, live: nat,
                         pending: seq<BlockHash>, stored: Option<seq<BlockHash>>, up: bool) {
    function All(): seq<Block> { chain + staged }
  }

  datatype Event =
    | IndexBlock(b: Block, flush: bool, commitFails: bool, cleanupFails: bool)
    | FlushPending(commitFails: bool, cleanupFails: bool)
    | CleanUp(fails: bool)
    | Discard
    | RollBack(fails: bool)
    | Restart

  const INITIAL := State([], [], 0, 0, [], None, true)

  /** The first height the window still covers once it holds at most `undo` blocks. */
  function Aged(live: nat, len: nat, undo: nat): (r: nat)
    ensures live <= r && len - r <= undo && (live <= len ==> r <= len)
  {
    if len - live > undo then len - undo else live
  }

  /** Staging pushes the block on the window and shifts what no longer fits into the pending list. */
  function Staged(s: State, b: Block, undo: nat): State
    requires s.live <= |s.All()|
  {
    var all := s.All() + [b];
    var live := Aged(s.live, |all|, undo);
    s.(staged := s.staged + [b], live := live, pending := s.pending + Hashes(all[s.live..live]))
  }

  function Committed(s: State): State {
    s.(chain := s.All(), staged := [], stored := if s.pending != [] then Some(s.pending) else s.stored)
  }

  /** Cleaning up prunes every block that has left the window, and the list with it. */
  function Cleaned(s: State): State {
    if s.pending == [] then s else s.(from := s.live, pending := [], stored := None)
  }

  function CleanedUp(s: State, fails: bool): State {
    if s.pending == [] then s else if fails then s.(up := false) else Cleaned(s)
  }

  function Flushed(s: State, commitFails: bool, cleanupFails: bool): State {
    if commitFails then s.(up := false) else CleanedUp(Committed(s), cleanupFails)
  }

  /** The batch is dropped, the cleanup list saved on its own, the window read back from disk. */
  function Discarded(s: State): State {
    s.(staged := [], live := s.from, stored := if s.pending != [] then Some(s.pending) else s.stored)
  }

  function RolledBack(s: State, fails: bool): State
    requires s.chain != []
  {
    if s.live >= |s.chain| then s.(up := false)
    else if fails then s.(live := s.from)
    else s.(chain := s.chain[..|s.chain| - 1])
  }

  function Restarted(s: State): State {
    s.(staged := [], live := s.from, pending := if s.stored.Some? then s.stored.value else [], up := true)
  }

  // ----- what every state of a run satisfies

  /** Whatever has left the window but still has undo records is on the cleanup list. */
  ghost predicate Queued(s: State) {
    s.from <= s.live <= |s.All()| && HashSet(s.All()[s.from..s.live]) <= Elems(s.pending)
  }

  /** While the loop is up the two windows differ only under staged blocks that filled the window. */
  predicate Tight(s: State, undo: nat) {
    s.live == s.from || (s.staged != [] && |s.All()| - s.live == undo)
  }

  ghost predicate Wf(s: State, undo: nat) {
    && ValidChain(s.All()) && s.from <= |s.chain| && Queued(s)
    && (s.stored.Some? ==> s.stored.value != [] && (s.up ==> s.pending != []))
    && (s.staged != [] ==> |s.All()| - s.live <= undo)
    && (s.up ==> Tight(s, undo))
    && (s.up ==> |s.staged| < DB_TRANSACTION_BLOCKS_QUANTITY)
  }

  lemma WfBounds(s: State, undo: nat)
    requires Wf(s, undo)
    ensures ValidChain(s.All()) && s.from <= s.live <= |s.All()| && s.from <= |s.chain|
    ensures s.up ==> |s.staged| < DB_TRANSACTION_BLOCKS_QUANTITY
  {
  }

  lemma Downed(s: State, undo: nat)
    requires Wf(s, undo)
    ensures Wf(s.(up := false), undo)
  {
    assert s.(up := false).All() == s.All();
  }

  predicate FlushDue(s: State, flush: bool) {
    flush || |s.staged| + 1 == DB_TRANSACTION_BLOCKS_QUANTITY
  }

  ghost predicate Enabled(s: State, e: Event) {
    match e
    case IndexBlock(b, _, _, _) => s.up && ValidChain(s.All() + [b])
    case FlushPending(_, _) => s.up && s.staged != []
    case CleanUp(_) => s.up && s.staged == []
    case Discard => s.up
    case RollBack(_) => s.up && s.staged == [] && s.chain != []
    case Restart => true
  }

  ghost function Step(s: State, e: Event, undo: nat): State
    requires Wf(s, undo) && Enabled(s, e)
  {
    match e
    case IndexBlock(b, flush, commitFails, cleanupFails) =>
      if FlushDue(s, flush) then Flushed(Staged(s, b, undo), commitFails, cleanupFails) else Staged(s, b, undo)
    case FlushPending(commitFails, cleanupFails) => Flushed(s, commitFails, cleanupFails)
    case CleanUp(fails) => CleanedUp(s, fails)
    case Discard => Discarded(s)
    case RollBack(fails) => RolledBack(s, fails)
    case Restart => Restarted(s)
  }

  // ----- every step keeps it

  lemma HashesElems(c: seq<Block>)
    ensures Elems(Hashes(c)) == HashSet(c)
  {
    forall x | x in HashSet(c) ensures x in Elems(Hashes(c)) {
      var i :| 0 <= i < |c| && c[i].hash == x;
      assert Hashes(c)[i] == x;
    }
    forall x | x in Elems(Hashes(c)) ensures x in HashSet(c) {
      var i :| 0 <= i < |c| && Hashes(c)[i] == x;
    }
  }

  lemma QueuedAged(c: seq<Block>, pending: seq<BlockHash>, from: nat, live: nat, to: nat)
    requires from <= live <= to <= |c| && HashSet(c[from..live]) <= Elems(pending)
    ensures HashSet(c[from..to]) <= Elems(pending + Hashes(c[live..to]))
  {
    assert c[from..to][..live - from] == c[from..live] && c[from..to][live - from..] == c[live..to];
    HashesElems(c[live..to]);
    ElemsAppend(pending, Hashes(c[live..to]));
  }

  lemma StagedQueued(s: State, b: Block, undo: nat)
    requires Queued(s)
    ensures Queued(Staged(s, b, undo)) && Staged(s, b, undo).All() == s.All() + [b]
    ensures |s.All()| + 1 - Staged(s, b, undo).live <= undo
    ensures Tight(s, undo) ==> Tight(Staged(s, b, undo), undo)
  {
    var all, t := s.All() + [b], Staged(s, b, undo);
    assert t.All() == all;
    assert all[s.from..s.live] == s.All()[s.from..s.live];
    QueuedAged(all, s.pending, s.from, s.live, t.live);
  }

  /** Staged, and well formed but for the batch bound, which the flush trigger restores: what a flush starts
      from, whether the batch is full, at the node's tip, or flushed for another reason. */
  ghost predicate Full(s: State, undo: nat) {
    && ValidChain(s.All()) && s.from <= |s.chain| && Queued(s) && s.up
    && (s.stored.Some? ==> s.stored.value != [] && s.pending != [])
    && s.staged != [] && |s.All()| - s.live <= undo && Tight(s, undo)
  }

  lemma BatchIsFull(s: State, undo: nat)
    requires Wf(s, undo) && s.up && s.staged != []
    ensures Full(s, undo)
  {
  }

  lemma StagedFull(s: State, b: Block, undo: nat)
    requires (Wf(s, undo) || Full(s, undo)) && s.up && ValidChain(s.All() + [b])
    ensures Full(Staged(s, b, undo), undo)
    ensures |s.staged| + 1 < DB_TRANSACTION_BLOCKS_QUANTITY ==> Wf(Staged(s, b, undo), undo)
  {
    if Wf(s, undo) && s.staged != [] {
      BatchIsFull(s, undo);
    }
    StagedQueued(s, b, undo);
  }

  lemma FullBounds(s: State, undo: nat)
    requires Full(s, undo)
    ensures s.from <= s.live <= |s.All()|
  {
  }

  lemma CommittedQueued(s: State)
    requires Queued(s)
    ensures Queued(Committed(s)) && Committed(s).All() == s.All()
  {
    assert s.All() + [] == s.All();
  }

  lemma HashSetHas(c: seq<Block>, i: nat)
    requires i < |c|
    ensures c[i].hash in HashSet(c)
  {
  }

  lemma CleanedQueued(s: State)
    requires Queued(s) && s.staged == []
    ensures Queued(Cleaned(s)) && (s.pending == [] ==> s.from == s.live)
  {
    if s.from < s.live {
      HashSetHas(s.All()[s.from..s.live], 0);
    }
    assert HashSet(s.All()[s.live..s.live]) == {};
  }

  lemma CleanedUpWf(s: State, undo: nat, fails: bool)
    requires Wf(s, undo) || FreshlyCommitted(s, undo)
    requires s.staged == []
    ensures Wf(CleanedUp(s, fails), undo)
  {
    CleanedQueued(s);
    assert s.All() == s.chain && CleanedUp(s, fails).All() == s.chain;
  }

  /** Between a commit and its cleanup: all of a well-formed state but for the window still to prune. */
  ghost predicate FreshlyCommitted(s: State, undo: nat) {
    && ValidChain(s.All()) && s.from <= |s.chain| && Queued(s) && s.staged == [] && s.up
    && (s.stored.Some? ==> s.stored.value != [] && s.pending != [])
  }

  lemma CommittedWf(s: State, undo: nat)
    requires Full(s, undo)
    ensures FreshlyCommitted(Committed(s), undo)
  {
    CommittedQueued(s);
  }

  lemma FlushedWf(s: State, undo: nat, commitFails: bool, cleanupFails: bool)
    requires Full(s, undo)
    ensures Wf(Flushed(s, commitFails, cleanupFails), undo)
  {
    CommittedWf(s, undo);
    CleanedUpWf(Committed(s), undo, cleanupFails);
  }

  lemma ReloadedWf(s: State, undo: nat)
    requires Wf(s, undo)
    ensures Wf(Discarded(s), undo) && Wf(Restarted(s), undo)
  {
    assert s.All()[..|s.chain|] == s.chain;
    PrefixValid(s.All(), |s.chain|);
    assert s.chain + [] == s.chain;
    assert HashSet(s.chain[s.from..s.from]) == {};
  }

  lemma QueuedInit(chain: seq<Block>, from: nat, live: nat, pending: seq<BlockHash>)
    requires from <= live < |chain| && HashSet(chain[from..live]) <= Elems(pending)
    ensures HashSet(chain[..|chain| - 1][from..live]) <= Elems(pending)
  {
    assert chain[..|chain| - 1][from..live] == chain[from..live];
  }

  lemma PoppedWf(s: State, undo: nat)
    requires Wf(s, undo) && s.staged == [] && s.live < |s.chain|
    ensures Wf(s.(chain := s.chain[..|s.chain| - 1]), undo)
  {
    var t := s.(chain := s.chain[..|s.chain| - 1]);
    assert s.All() == s.chain && t.All() == t.chain;
    hide ValidChain, HashSet, Elems, Aged;
    PrefixValid(s.chain, |s.chain| - 1);
    QueuedInit(s.chain, s.from, s.live, s.pending);
  }

  lemma ReloadWf(s: State, undo: nat)
    requires Wf(s, undo) && s.staged == []
    ensures Wf(s.(live := s.from), undo)
  {
    assert s.All() == s.chain;
    NoHashes(s.chain[s.from..s.from]);
  }

  lemma RolledBackWf(s: State, undo: nat, fails: bool)
    requires Wf(s, undo) && s.staged == [] && s.chain != []
    ensures Wf(RolledBack(s, fails), undo)
  {
    if s.live >= |s.chain| {
      assert s.(up := false).All() == s.All();
    } else if fails {
      ReloadWf(s, undo);
    } else {
      PoppedWf(s, undo);
    }
  }

  lemma NoHashes(c: seq<Block>)
    requires |c| == 0
    ensures HashSet(c) == {}
  {
  }

  /** Every step from a well-formed state leads to one. */
  lemma StepWf(s: State, e: Event, undo: nat)
    requires Wf(s, undo) && Enabled(s, e)
    ensures Wf(Step(s, e, undo), undo)
  {
    match e
    case IndexBlock(b, flush, commitFails, cleanupFails) =>
      StagedFull(s, b, undo);
      FlushedWf(Staged(s, b, undo), undo, commitFails, cleanupFails);
    case FlushPending(commitFails, cleanupFails) => FlushedWf(s, undo, commitFails, cleanupFails);
    case CleanUp(fails) => CleanedUpWf(s, undo, fails);
    case Discard => ReloadedWf(s, undo);
    case RollBack(fails) => RolledBackWf(s, undo, fails);
    case Restart => ReloadedWf(s, undo);
  }

  // ----- whole runs

  /** A run takes each step where the loop can take it. */
  ghost predicate Runnable(s: State, es: seq<Event>, undo: nat)
    requires Wf(s, undo)
    decreases |es|
  {
    es == [] ||
    (Enabled(s, es[0]) && (StepWf(s, es[0], undo); Runnable(Step(s, es[0], undo), es[1..], undo)))
  }

  ghost function Run(s: State, es: seq<Event>, undo: nat): State
    requires Wf(s, undo) && Runnable(s, es, undo)
    decreases |es|
  {
    if es == [] then s else StepWf(s, es[0], undo); Run(Step(s, es[0], undo), es[1..], undo)
  }

  lemma {:induction false} RunWf(s: State, es: seq<Event>, undo: nat)
    requires Wf(s, undo) && Runnable(s, es, undo)
    ensures Wf(Run(s, es, undo), undo)
    decreases |es|
  {
    if es != [] {
      StepWf(s, es[0], undo);
      RunWf(Step(s, es[0], undo), es[1..], undo);
    }
  }

  lemma InitialWf(undo: nat)
    ensures Wf(INITIAL, undo)
  {
    assert HashSet([]) == {};
  }

  // ----- what a flush leaves behind

  /** A flush that goes through, a full batch's included, leaves a stored window of at most `undo` blocks ending at the tip,
      equal to the one in memory, and nothing waiting for cleanup. */
  lemma FlushTrimsWindow(s: State, undo: nat)
    requires Full(s, undo)
    ensures Trimmed(Flushed(s, false, false), s.All(), undo)
  {
    CommittedQueued(s);
    CleanedQueued(Committed(s));
  }

  /** All of `chain` is committed and nothing more staged; the stored window is the one in memory, at most `undo`
      blocks ending at the tip, and nothing waits for cleanup. */
  predicate Trimmed(t: State, chain: seq<Block>, undo: nat) {
    && t.chain == chain && t.staged == [] && t.up
    && t.from == t.live <= |t.chain| && |t.chain| - t.from <= undo
    && t.pending == [] && t.stored == None
  }

  /** So every pass that indexes a block and flushes, be it the one that fills the batch, ends there. */
  lemma IndexBlockTrimsWindow(s: State, b: Block, flush: bool, undo: nat)
    requires Wf(s, undo) && Enabled(s, IndexBlock(b, flush, false, false)) && FlushDue(s, flush)
    ensures Trimmed(Step(s, IndexBlock(b, flush, false, false), undo), s.All() + [b], undo)
  {
    StagedFull(s, b, undo);
    StagedShape(s, b, undo);
    FlushTrimsWindow(Staged(s, b, undo), undo);
  }

  /** In every state of a run with nothing staged, what is stored and what memory counts on agree. */
  lemma QuietWindow(s: State, undo: nat)
    requires Wf(s, undo) && s.up && s.staged == []
    ensures s.from == s.live
  {
  }

  /** What earlier cleanups left undone does not outlive a flush: only the chain, the staged
      blocks and the window in memory decide what it leaves. */
  lemma FlushForgetsPending(s: State, t: State, undo: nat)
    requires Full(s, undo) && Full(t, undo)
    requires s.chain == t.chain && s.staged == t.staged && s.live == t.live
    ensures Flushed(s, false, false) == Flushed(t, false, false)
  {
    FlushTrimsWindow(s, undo);
    FlushTrimsWindow(t, undo);
  }

  /** Staging a list of blocks into the batch. */
  ghost function StagedAllOf(s: State, bs: seq<Block>, undo: nat): State
    requires s.live <= |s.All()|
    decreases |bs|
  {
    if bs == [] then s else StagedAllOf(Staged(s, bs[0], undo), bs[1..], undo)
  }

  /** Two running states with the same staged blocks and the same window in memory. */
  ghost predicate Alike(s: State, t: State, undo: nat) {
    && Full(s, undo) && Full(t, undo)
    && s.chain == t.chain && s.staged == t.staged && s.live == t.live
  }

  lemma FirstOfRest(all: seq<Block>, bs: seq<Block>)
    requires ValidChain(all + bs) && bs != []
    ensures ValidChain(all + [bs[0]]) && (all + [bs[0]]) + bs[1..] == all + bs
  {
    assert all + bs == (all + [bs[0]]) + bs[1..];
    assert (all + bs)[..|all| + 1] == all + [bs[0]];
    PrefixValid(all + bs, |all| + 1);
    hide ValidChain;
  }

  lemma AlikeStaged(s: State, t: State, b: Block, undo: nat)
    requires (Wf(s, undo) && Wf(t, undo)) || (Full(s, undo) && Full(t, undo))
    requires s.up && t.up && s.chain == t.chain && s.staged == t.staged
    requires s.live <= |s.All()| && t.live <= |t.All()|
    requires Aged(s.live, |s.All()| + 1, undo) == Aged(t.live, |t.All()| + 1, undo)
    requires ValidChain(s.All() + [b])
    ensures Alike(Staged(s, b, undo), Staged(t, b, undo), undo)
    ensures Staged(s, b, undo).All() == s.All() + [b] && Staged(s, b, undo).staged == s.staged + [b]
  {
    hide Wf, Full, ValidChain;
    StagedFull(s, b, undo);
    StagedFull(t, b, undo);
    StagedShape(s, b, undo);
    StagedShape(t, b, undo);
  }

  lemma {:induction false} StagedSame(s: State, t: State, bs: seq<Block>, undo: nat)
    requires Alike(s, t, undo) && ValidChain(s.All() + bs)
    requires s.live <= |s.All()|
    ensures Alike(StagedAllOf(s, bs, undo), StagedAllOf(t, bs, undo), undo)
    ensures StagedAllOf(s, bs, undo).staged == s.staged + bs
    decreases |bs|
  {
    hide ValidChain, Wf, Queued, Tight;
    if bs != [] {
      FirstOfRest(s.All(), bs);
      AlikeStaged(s, t, bs[0], undo);
      FullBounds(Staged(s, bs[0], undo), undo);
      StagedSame(Staged(s, bs[0], undo), Staged(t, bs[0], undo), bs[1..], undo);
      assert s.staged + bs == (s.staged + [bs[0]]) + bs[1..];
    }
  }

  lemma StagedShape(s: State, b: Block, undo: nat)
    requires s.live <= |s.All()|
    ensures var t := Staged(s, b, undo);
      t.All() == s.All() + [b] && t.staged == s.staged + [b] && t.chain == s.chain && t.up == s.up
      && t.live == Aged(s.live, |s.All()| + 1, undo)
  {
  }

  /** A crash between a flush's commit and its cleanup heals: after the restart, staging the next
      blocks, up to a full batch, and flushing them leaves exactly the state of the run without the crash. */
  lemma CrashGapHeals(s: State, bs: seq<Block>, undo: nat)
    requires Full(s, undo)
    requires 0 < |bs| <= DB_TRANSACTION_BLOCKS_QUANTITY && ValidChain(s.All() + bs)
    ensures var crashed, clean := Restarted(Flushed(s, false, true)), Flushed(s, false, false);
      && crashed.live <= |crashed.All()| && clean.live <= |clean.All()|
      && Flushed(StagedAllOf(crashed, bs, undo), false, false) == Flushed(StagedAllOf(clean, bs, undo), false, false)
  {
    hide ValidChain, Wf, Flushed, Restarted, Staged;
    var crashed, clean := Restarted(Flushed(s, false, true)), Flushed(s, false, false);
    FlushedWf(s, undo, false, true);
    FlushedWf(s, undo, false, false);
    ReloadedWf(Flushed(s, false, true), undo);
    CrashedShape(s, undo);
    FirstOfRest(s.All(), bs);
    AlikeStaged(crashed, clean, bs[0], undo);
    GapSame(crashed, clean, bs, undo);
  }

  lemma GapSame(s: State, t: State, bs: seq<Block>, undo: nat)
    requires bs != [] && s.live <= |s.All()| && t.live <= |t.All()|
    requires Alike(Staged(s, bs[0], undo), Staged(t, bs[0], undo), undo)
    requires ValidChain(Staged(s, bs[0], undo).All() + bs[1..])
    ensures Flushed(StagedAllOf(s, bs, undo), false, false) == Flushed(StagedAllOf(t, bs, undo), false, false)
  {
    hide ValidChain, Wf, Flushed, Staged, Queued, Tight;
    FullBounds(Staged(s, bs[0], undo), undo);
    StagedSame(Staged(s, bs[0], undo), Staged(t, bs[0], undo), bs[1..], undo);
    FlushForgetsPending(StagedAllOf(s, bs, undo), StagedAllOf(t, bs, undo), undo);
  }

  lemma CrashedShape(s: State, undo: nat)
    requires Full(s, undo)
    ensures var crashed, clean := Restarted(Flushed(s, false, true)), Flushed(s, false, false);
      && crashed.up && clean.up && crashed.chain == clean.chain == crashed.All() == clean.All() == s.All()
      && crashed.staged == clean.staged == []
      && crashed.live <= |s.All()| && clean.live <= |s.All()|
      && Aged(crashed.live, |s.All()| + 1, undo) == Aged(clean.live, |s.All()| + 1, undo)
  {
    CommittedQueued(s);
    CleanedQueued(Committed(s));
    assert s.All() + [] == s.All();
  }

  /** A crash before the commit, or a commit that fails, loses the batch and nothing else. */
  lemma FailedCommitLosesBatchOnly(s: State, undo: nat)
    requires Full(s, undo)
    ensures Restarted(Flushed(s, true, false)) == Restarted(s)
    ensures Restarted(s).chain == s.chain && Restarted(s).from == s.from && Restarted(s).stored == s.stored
  {
  }

  /** A cleanup, the one after a commit included, moves the stored window exactly up to the one in memory, and
      running it again, or after an attempt that failed, comes to the same. */
  lemma CleanupIdempotent(s: State, undo: nat)
    requires (Wf(s, undo) || FreshlyCommitted(s, undo)) && s.up && s.staged == []
    ensures CleanedUp(s, false).from == s.live == CleanedUp(s, false).live
    ensures CleanedUp(CleanedUp(s, false), false) == CleanedUp(s, false)
    ensures CleanedUp(CleanedUp(s, true).(up := true), false) == CleanedUp(s, false)
  {
    CleanedQueued(s);
  }
}
