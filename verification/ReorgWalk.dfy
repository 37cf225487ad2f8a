/** The reorg walk: what it removes, when it returns, how it is refused. */
module ReorgWalk {
  import opened Chain
  import opened Index
  import opened Ledger
  import opened StoreKeys
  import opened LevelUpStore
  import opened SyncSpec
  import opened LastBlocks
  import opened TrackerState
  import opened Tracker

  /** A hash fetch that fails although the node has the height, and the tip re-read after it. Faults, like
      failed commits, come as finite lists of outcomes; past their end every read and commit succeeds. */
  datatype Fault = Fault(fetch: bool, refresh: bool)

  datatype Outcome =
    | Reconciled       // the tip is the node's block at that height
    | TipBelow         // refused before any delete: the node's tip is too far below
    | DepthExceeded    // refused: the rollback budget is spent
    | Corrupt          // no block left to compare
    | GaveUp           // one block failed to roll back ten times

  const MAX_ATTEMPTS: nat := 10

  /** The length of the chain up to its highest block that the node has at the same height. */
  function Fork(chain: seq<Block>, node: seq<Block>): (n: nat)
    ensures n <= |chain|
    decreases |chain|
  {
    if chain == [] then 0
    else if |chain| <= |node| && chain[|chain| - 1].hash == node[|chain| - 1].hash then |chain|
    else Fork(chain[..|chain| - 1], node)
  }

  predicate Linked(c: seq<Block>) {
    forall i :: 0 < i < |c| ==> c[i].prevHash == c[i - 1].hash
  }

  /** A block hash commits to the parent's. */
  predicate HashBinds(a: seq<Block>, b: seq<Block>) {
    forall i, j :: 0 <= i < |a| && 0 <= j < |b| && a[i].hash == b[j].hash ==> a[i].prevHash == b[j].prevHash
  }

  lemma {:induction false} AgreeBelow(chain: seq<Block>, node: seq<Block>, n: nat)
    requires Linked(chain) && Linked(node) && HashBinds(chain, node)
    requires 0 < n <= |chain| && n <= |node| && chain[n - 1].hash == node[n - 1].hash
    ensures Hashes(chain[..n]) == Hashes(node[..n])
  {
    if n > 1 {
      AgreeBelow(chain, node, n - 1);
      assert Hashes(chain[..n]) == Hashes(chain[..n - 1]) + [chain[n - 1].hash];
      assert Hashes(node[..n]) == Hashes(node[..n - 1]) + [node[n - 1].hash];
    }
  }

  /** The fork point is the highest common ancestor: both chains agree below it and nowhere above. */
  lemma {:induction false} ForkIsHighestCommon(chain: seq<Block>, node: seq<Block>)
    requires Linked(chain) && Linked(node) && HashBinds(chain, node)
    ensures var n := Fork(chain, node);
      && n <= |node| && Hashes(chain[..n]) == Hashes(node[..n])
      && forall i :: n <= i < |chain| && i < |node| ==> chain[i].hash != node[i].hash
    decreases |chain|
  {
    if chain != [] {
      if |chain| <= |node| && chain[|chain| - 1].hash == node[|chain| - 1].hash {
        AgreeBelow(chain, node, |chain|);
      } else {
        var init := chain[..|chain| - 1];
        ForkIsHighestCommon(init, node);
        assert chain[..Fork(init, node)] == init[..Fork(init, node)];
      }
    }
  }

  lemma ChainLinked(c: seq<Block>)
    requires ValidChain(c)
    ensures Linked(c)
  {
    hide ValidBlock, IndexOf;
    forall i | 0 < i < |c| ensures c[i].prevHash == c[i - 1].hash {
      assert ValidAt(c, i);
    }
  }

  function Min(a: nat, b: nat): nat {
    if a <= b then a else b
  }

  /** How far back a walk may go: the window it starts with, capped by the configured depth. */
  function Budget(s: State, undo: nat): nat
    requires s.live <= |s.chain|
  {
    Min(|s.chain| - s.live, undo)
  }

  /** What a walk that commits its rollbacks ends in. */
  function Verdict(chain: seq<Block>, node: seq<Block>, budget: nat): Outcome {
    if chain == [] then Corrupt
    else if |chain| - |node| > budget then TipBelow
    else if |chain| - Fork(chain, node) > budget then DepthExceeded
    else if Fork(chain, node) == 0 then Corrupt
    else Reconciled
  }

  /** How many blocks it removes. */
  function WalkedOff(chain: seq<Block>, node: seq<Block>, budget: nat): (n: nat)
    ensures n <= |chain|
  {
    if chain == [] || |chain| - |node| > budget then 0
    else Min(|chain| - Fork(chain, node), Min(budget, |chain|))
  }

  /** With a shared genesis the walk returns exactly when the highest common ancestor is within the
      budget, having removed exactly the blocks above it. Otherwise it has removed nothing, because
      the node's tip alone is too far below, or the whole budget. */
  lemma ReturnsExactlyWithinBudget(chain: seq<Block>, node: seq<Block>, budget: nat)
    requires Linked(chain) && Linked(node) && HashBinds(chain, node) && Fork(chain, node) > 0
    ensures Verdict(chain, node, budget).Reconciled? <==> |chain| - Fork(chain, node) <= budget
    ensures Verdict(chain, node, budget).Reconciled? ==>
      WalkedOff(chain, node, budget) == |chain| - Fork(chain, node)
    ensures Verdict(chain, node, budget).TipBelow? ==>
      |chain| - |node| > budget && WalkedOff(chain, node, budget) == 0
    ensures Verdict(chain, node, budget).DepthExceeded? ==>
      |chain| - |node| <= budget && WalkedOff(chain, node, budget) == budget
    ensures !Verdict(chain, node, budget).Corrupt? && !Verdict(chain, node, budget).GaveUp?
  {
    ForkIsHighestCommon(chain, node);
  }

  /** The walk's end told in heights. It returns exactly when the fork is inside both the window, which starts
      at `from`, and the configured depth, having removed exactly the blocks above the fork. It is refused at
      once exactly when the node's tip alone is further down than one of the two. Otherwise it has removed as
      many blocks as the smaller of the two allows. */
  predicate InHeights(chain: seq<Block>, from: nat, node: seq<Block>, undo: nat, outcome: Outcome, deleted: nat) {
    var fork := Fork(chain, node);
    && (outcome.Reconciled? <==> fork > 0 && fork >= from && |chain| - fork <= undo)
    && (outcome.Reconciled? ==> deleted == |chain| - fork)
    && (outcome.TipBelow? <==> chain != [] && (|node| < from || |chain| - |node| > undo))
    && (outcome.TipBelow? ==> deleted == 0)
    && (outcome.DepthExceeded? <==>
          chain != [] && |node| >= from && |chain| - |node| <= undo && (fork < from || |chain| - fork > undo))
    && (outcome.DepthExceeded? ==>
          deleted <= |chain| - from && deleted <= undo && (deleted == |chain| - from || deleted == undo))
    && (outcome.Corrupt? ==> fork == 0 && deleted == |chain|)
    && !outcome.GaveUp?
  }

  lemma VerdictInHeights(s: State, node: seq<Block>, undo: nat)
    requires s.live <= |s.chain|
    ensures InHeights(s.chain, s.live, node, undo,
      Verdict(s.chain, node, Budget(s, undo)), WalkedOff(s.chain, node, Budget(s, undo)))
  {
    ForkAtMostNode(s.chain, node);
  }

  lemma ForkAtMostNode(chain: seq<Block>, node: seq<Block>)
    ensures Fork(chain, node) <= |node|
    decreases |chain|
  {
  }

  /** A walk that returns leaves a prefix of the node's chain. */
  lemma ReconciledIsPrefix(chain: seq<Block>, node: seq<Block>, budget: nat)
    requires Linked(chain) && Linked(node) && HashBinds(chain, node)
    requires Verdict(chain, node, budget).Reconciled?
    ensures var kept := chain[..|chain| - WalkedOff(chain, node, budget)];
      kept != [] && |kept| <= |node| && Hashes(kept) == Hashes(node[..|kept|])
  {
    ForkIsHighestCommon(chain, node);
  }

  ghost predicate TenInARow(commitFails: seq<bool>) {
    exists i: nat :: FailsFrom(commitFails, i, 10)
  }

  ghost predicate FailsFrom(commitFails: seq<bool>, i: nat, n: nat) {
    forall k: nat :: i <= k < i + n ==> FailAt(commitFails, k)
  }

  /** Of the first `used` commits `deleted` went through, and nowhere among them did ten in a row fail, but at
      the very end if the walk gave up. */
  ghost predicate Commits(commitFails: seq<bool>, used: nat, deleted: nat, gaveUp: bool) {
    && deleted == Successes(commitFails, used)
    && (if gaveUp then used >= 10 && FailsFrom(commitFails, used - 10, 10) && NoTen(commitFails, used - 1)
        else NoTen(commitFails, used))
  }

  ghost function Successes(commitFails: seq<bool>, n: nat): nat {
    if n == 0 then 0 else Successes(commitFails, n - 1) + (if FailAt(commitFails, n - 1) then 0 else 1)
  }

  ghost predicate NoTen(commitFails: seq<bool>, n: nat) {
    forall i: nat :: i + 10 <= n ==> !FailsFrom(commitFails, i, 10)
  }

  function FaultAt(faults: seq<Fault>, i: nat): Fault {
    if i < |faults| then faults[i] else Fault(false, false)
  }

  /** The node's hash at a height, or none after a failed fetch; the tip known to the walk is then re-read. */
  method NodeBlockHashOrRetry(node: seq<Block>, height: nat, tip: Option<int>, fault: Fault)
    returns (hash: Option<BlockHash>, tip': Option<int>)
    ensures hash.Some? <==> height < |node| && !fault.fetch
    ensures hash.Some? ==> hash == Some(node[height].hash) && tip' == tip
    ensures hash.None? ==> tip' == if fault.refresh then tip else Some(|node| - 1)
  {
    if height < |node| && !fault.fetch {
      return Some(node[height].hash), tip;
    }
    hash, tip' := None, if fault.refresh then tip else Some(|node| - 1);
  }

  /** Where a walk stands: the blocks removed so far, none of them the node's, within the budget. */
  predicate WalkedTo(chain0: seq<Block>, chain: seq<Block>, deleted: nat, node: seq<Block>, budget: nat) {
    && deleted <= |chain0| && chain == chain0[..|chain0| - deleted]
    && Fork(chain, node) == Fork(chain0, node)
    && deleted <= budget && (deleted > 0 ==> |chain0| - |node| <= budget)
  }

  lemma WalkStep(chain0: seq<Block>, chain: seq<Block>, deleted: nat, node: seq<Block>, budget: nat)
    requires WalkedTo(chain0, chain, deleted, node, budget) && chain != [] && deleted < budget
    requires |chain0| - |node| <= budget
    requires |chain| > |node| || chain[|chain| - 1].hash != node[|chain| - 1].hash
    ensures WalkedTo(chain0, chain[..|chain| - 1], deleted + 1, node, budget)
  {
    assert chain0[..|chain0| - deleted][..|chain| - 1] == chain0[..|chain0| - (deleted + 1)];
  }

  /** The walk's ending fits the fork, seen from the chain it started on. */
  lemma WalkEnds(chain0: seq<Block>, chain: seq<Block>, deleted: nat, node: seq<Block>, budget: nat)
    requires WalkedTo(chain0, chain, deleted, node, budget)
    ensures chain == [] ==>
      Verdict(chain0, node, budget) == Corrupt && WalkedOff(chain0, node, budget) == deleted
    ensures chain != [] && |chain0| - |node| > budget ==>
      Verdict(chain0, node, budget) == TipBelow && WalkedOff(chain0, node, budget) == deleted
    ensures chain != [] && |chain0| - |node| <= budget && Fork(chain, node) < |chain| && deleted == budget ==>
      Verdict(chain0, node, budget) == DepthExceeded && WalkedOff(chain0, node, budget) == deleted
    ensures chain != [] && |chain0| - |node| <= budget && Fork(chain, node) == |chain| ==>
      Verdict(chain0, node, budget) == Reconciled && WalkedOff(chain0, node, budget) == deleted
  {
  }

  /** What one look at the committed tip finds. */
  datatype Look =
    | NoBlocks
    | GapTooDeep
    | LookAgain
    | Same
    | Differs(hash: BlockHash, rec: BlockRec)

  /** Compares the committed tip with the node: by height when it sits above the tip the walk knows
      of, by hash otherwise. */
  method CompareTip(tr: UtxoTracker, node: seq<Block>, tip: Option<int>, fault: Fault, deleted: nat, budget: nat)
    returns (look: Look, tip': Option<int>)
    requires Wf(tr.s, tr.undoBlocks) && tr.Loaded()
    requires tip == None || tip == Some(|node| - 1)
    ensures look.NoBlocks? <==> tr.s.chain == []
    ensures tip' == tip || (tip == None && tip' == Some(|node| - 1))
    ensures look.LookAgain? ==> tip' != tip || fault != Fault(false, false)
    ensures look.GapTooDeep? ==> deleted + |tr.s.chain| - |node| > budget
    ensures look.Same? ==> Fork(tr.s.chain, node) == |tr.s.chain| <= |node|
    ensures look.Differs? ==>
      && (|tr.s.chain| > |node| || tr.s.chain[|tr.s.chain| - 1].hash != node[|tr.s.chain| - 1].hash)
      && (|tr.s.chain| > |node| ==> deleted + |tr.s.chain| - |node| <= budget)
      && look.hash == tr.s.chain[|tr.s.chain| - 1].hash && GetBlock(tr.store.db, look.hash) == Some(look.rec)
  {
    hide Wf, Durable, Memory, GetBlock;
    var lastBlockIndex, lastBlockHash := GetLastBlockHeight(tr.store.db), GetLastBlockHash(tr.store.db);
    var rec := if lastBlockHash.Some? then GetBlock(tr.store.db, lastBlockHash.value) else None;
    TipRead(tr.store.db, tr.s, tr.undoBlocks);
    // With blocks committed the pointer and the record always agree, so the scan that would
    // repair the pointer is only reached on an empty store, where it finds nothing.
    if rec.None? || rec.value.height != lastBlockIndex {
      return NoBlocks, tip;
    }
    var aboveNodeTip := tip.Some? && lastBlockIndex > tip.value;
    if aboveNodeTip && deleted + (lastBlockIndex - tip.value) > budget {
      return GapTooDeep, tip;
    }
    tip' := tip;
    var fromNode: Option<BlockHash> := None;
    if !aboveNodeTip {
      fromNode, tip' := NodeBlockHashOrRetry(node, lastBlockIndex, tip, fault);
      if fromNode.None? {
        return LookAgain, tip';
      }
    }
    look := if aboveNodeTip || lastBlockHash != fromNode then Differs(lastBlockHash.value, rec.value) else Same;
  }

  /** One rollback of the walk: the tip is off, or the commit failed and all is as it was. */
  method TakeOffTip(tr: UtxoTracker, ghost s0: State, hash: BlockHash, rec: BlockRec, fails: bool, ghost deleted: nat,
                    ghost node: seq<Block>, ghost budget: nat)
    returns (rolled: bool)
    requires Wf(tr.s, tr.undoBlocks) && tr.Loaded() && tr.s == s0.(chain := tr.s.chain)
    requires tr.s.up && tr.s.staged == [] && tr.s.live == tr.s.from < |tr.s.chain|
    requires hash == tr.s.chain[|tr.s.chain| - 1].hash && GetBlock(tr.store.db, hash) == Some(rec)
    requires WalkedTo(s0.chain, tr.s.chain, deleted, node, budget) && deleted < budget && |s0.chain| - |node| <= budget
    requires |tr.s.chain| > |node| || hash != node[|tr.s.chain| - 1].hash
    modifies tr`lastBlocks, tr`s, tr.store
    ensures Wf(tr.s, tr.undoBlocks) && tr.Loaded() && tr.s == s0.(chain := tr.s.chain)
    ensures rolled == !fails
    ensures if rolled then |tr.s.chain| == |old(tr.s).chain| - 1 else tr.s == old(tr.s)
    ensures WalkedTo(s0.chain, tr.s.chain, if rolled then deleted + 1 else deleted, node, budget)
  {
    hide Wf, Durable, Memory, WalkedTo, GetBlock, Fork, RolledBack;
    RollStep(s0, tr.s, fails, deleted, node, budget);
    var r := tr.RollBackTipBlock(hash, rec, fails);
    rolled := r == Done;
  }

  /** Walks back from the committed tip, a block at a time, until it is the node's. */
  method WalkBack(tr: UtxoTracker, nodeTipHeight: Option<int>, node: seq<Block>, faults: seq<Fault>, commitFails: seq<bool>,
                  windowAtEntry: nat, budget: nat)
    returns (outcome: Outcome, deleted: nat)
    requires Wf(tr.s, tr.undoBlocks) && tr.Loaded() && tr.s.up && tr.s.staged == [] && tr.s.live == tr.s.from <= |tr.s.chain|
    requires nodeTipHeight == None || nodeTipHeight == Some(|node| - 1)
    requires budget <= windowAtEntry == |tr.s.chain| - tr.s.from
    modifies tr`lastBlocks, tr`s, tr.store
    ensures Wf(tr.s, tr.undoBlocks) && tr.Loaded() && Walked(old(tr.s), tr.s, deleted)
    ensures tr.s.up <==> outcome.Reconciled? || outcome.TipBelow?
    ensures outcome.GaveUp? ==> TenInARow(commitFails)
    ensures exists used: nat :: Commits(commitFails, used, deleted, outcome.GaveUp?)
    ensures !outcome.GaveUp? ==>
      outcome == Verdict(old(tr.s).chain, node, budget) && deleted == WalkedOff(old(tr.s).chain, node, budget)
  {
    hide Wf, Durable, Memory, Verdict, WalkedOff, WalkedTo, Failing, TenInARow, Commits, GetBlock, Fork, RolledBack;
    var tip, retryCount: nat, f: nat, c: nat := nodeTipHeight, 0, 0, 0;
    ghost var s0 := tr.s;
    outcome, deleted := Corrupt, 0;
    WalkStarts(s0.chain, node, budget, commitFails);
    while true
      invariant Wf(tr.s, tr.undoBlocks) && tr.Loaded() && tr.s == s0.(chain := tr.s.chain)
      invariant WalkedTo(s0.chain, tr.s.chain, deleted, node, budget)
      invariant tip == None || tip == Some(|node| - 1)
      invariant retryCount < MAX_ATTEMPTS && f <= |faults|
      invariant Failing(commitFails, c, retryCount, deleted)
      decreases |tr.s.chain|, MAX_ATTEMPTS - retryCount, |faults| - f, if tip == None then 1 else 0
    {
      var look: Look;
      WalkEnds(s0.chain, tr.s.chain, deleted, node, budget);
      WalkGap(s0.chain, tr.s.chain, deleted, node, budget);
      CommitsSoFar(commitFails, c, retryCount, deleted);
      look, tip := CompareTip(tr, node, tip, FaultAt(faults, f), deleted, budget);
      f := Min(f + 1, |faults|);
      match look
      case NoBlocks =>
        outcome := Corrupt;
        break;
      case GapTooDeep =>
        return TipBelow, deleted;
      case LookAgain =>
      case Same =>
        return Reconciled, deleted;
      case Differs(hash, rec) =>
        if windowAtEntry == 0 || deleted >= budget {
          ForkHere(tr.s.chain, node);
          outcome := DepthExceeded;
          break;
        }
        var rolled := TakeOffTip(tr, s0, hash, rec, FailAt(commitFails, c), deleted, node, budget);
        CountFailure(commitFails, c, retryCount, deleted);
        c := c + 1;
        if rolled {
          retryCount := 0;
          deleted := deleted + 1;
        } else {
          retryCount := retryCount + 1;
          if retryCount >= MAX_ATTEMPTS {
            outcome := GaveUp;
            break;
          }
        }
    }
    tr.Abort();
  }

  /** Rolls the index back to the node's chain. Every caller has just read the window back from disk. */
  method VerifyReorg(tr: UtxoTracker, nodeTipHeight: Option<int>, node: seq<Block>, faults: seq<Fault>, commitFails: seq<bool>)
    returns (outcome: Outcome, deleted: nat)
    requires Wf(tr.s, tr.undoBlocks) && tr.Loaded() && tr.s.up && tr.s.staged == [] && tr.s.live == tr.s.from <= |tr.s.chain|
    requires nodeTipHeight == None || nodeTipHeight == Some(|node| - 1)
    modifies tr`lastBlocks, tr`s, tr.store
    ensures Wf(tr.s, tr.undoBlocks) && tr.Loaded() && Walked(old(tr.s), tr.s, deleted)
    ensures tr.s.up <==> outcome.Reconciled? || outcome.TipBelow?
    ensures outcome.GaveUp? ==> TenInARow(commitFails)
    ensures exists used: nat :: Commits(commitFails, used, deleted, outcome.GaveUp?)
    ensures !outcome.GaveUp? ==>
      && outcome == Verdict(old(tr.s).chain, node, Budget(old(tr.s), tr.undoBlocks))
      && deleted == WalkedOff(old(tr.s).chain, node, Budget(old(tr.s), tr.undoBlocks))
    ensures !outcome.GaveUp? ==> InHeights(old(tr.s).chain, old(tr.s).from, node, tr.undoBlocks, outcome, deleted)
  {
    hide Wf, Durable, Memory, InHeights, Verdict, WalkedOff, Walked, TenInARow, Commits;
    VerdictInHeights(tr.s, node, tr.undoBlocks);
    MemoryParts(tr.s, tr.lastBlocks, tr.pendingKMCleanup, tr.store.knownScripts, tr.store.outputCache,
      tr.store.db, tr.store.transactionArray);
    assert tr.s.All() == tr.s.chain;
    var windowAtEntry := |tr.lastBlocks|;
    var budget := if windowAtEntry > 0 then Min(windowAtEntry, tr.undoBlocks) else 0;
    outcome, deleted := WalkBack(tr, nodeTipHeight, node, faults, commitFails, windowAtEntry, budget);
  }

  function FailAt(commitFails: seq<bool>, c: nat): bool {
    c < |commitFails| && commitFails[c]
  }

  /** A walk only ever takes blocks off the tip. */
  ghost predicate Walked(s: State, t: State, deleted: nat) {
    deleted <= |s.chain| && t == s.(chain := s.chain[..|s.chain| - deleted], up := t.up)
  }

  lemma WalkStarts(chain: seq<Block>, node: seq<Block>, budget: nat, commitFails: seq<bool>)
    ensures WalkedTo(chain, chain, 0, node, budget) && Failing(commitFails, 0, 0, 0)
  {
    assert chain[..|chain|] == chain;
  }

  /** The last `n` of the first `c` commits failed, not the one before them, and never yet ten in a row;
      `deleted` went through. */
  ghost predicate Failing(commitFails: seq<bool>, c: nat, n: nat, deleted: nat) {
    && n <= c && FailsFrom(commitFails, c - n, n) && (n < c ==> !FailAt(commitFails, c - n - 1))
    && NoTen(commitFails, c) && deleted == Successes(commitFails, c)
  }

  /** A run of ten that ends now would have to begin where the present run of failures does. */
  lemma TenNow(commitFails: seq<bool>, c: nat, n: nat, i: nat)
    requires n <= c && (n < c ==> !FailAt(commitFails, c - n - 1)) && i + 10 == c + 1 && FailsFrom(commitFails, i, 10)
    ensures n >= 9 && FailAt(commitFails, c)
  {
    assert forall k: nat :: i <= k <= c ==> FailAt(commitFails, k);
  }

  lemma CountFailure(commitFails: seq<bool>, c: nat, n: nat, deleted: nat)
    requires Failing(commitFails, c, n, deleted) && n < 10
    ensures FailAt(commitFails, c) && n < 9 ==> Failing(commitFails, c + 1, n + 1, deleted)
    ensures FailAt(commitFails, c) && n == 9 ==>
      TenInARow(commitFails) && Commits(commitFails, c + 1, deleted, true)
    ensures !FailAt(commitFails, c) ==> Failing(commitFails, c + 1, 0, deleted + 1)
  {
    forall i: nat | i + 10 <= c + 1 && FailsFrom(commitFails, i, 10) ensures n == 9 && FailAt(commitFails, c) {
      TenNow(commitFails, c, n, i);
    }
    if FailAt(commitFails, c) && n == 9 {
      assert FailsFrom(commitFails, c - 9, 10);
    }
  }

  lemma CommitsSoFar(commitFails: seq<bool>, c: nat, n: nat, deleted: nat)
    requires Failing(commitFails, c, n, deleted)
    ensures Commits(commitFails, c, deleted, false)
  {
  }

  lemma WalkGap(chain0: seq<Block>, chain: seq<Block>, deleted: nat, node: seq<Block>, budget: nat)
    requires WalkedTo(chain0, chain, deleted, node, budget)
    ensures |chain| == |chain0| - deleted && chain == chain0[..|chain0| - deleted]
    ensures deleted <= budget && (deleted > 0 ==> |chain0| - |node| <= budget)
  {
  }

  lemma ForkHere(chain: seq<Block>, node: seq<Block>)
    requires chain != []
    ensures Fork(chain, node) == |chain| <==> |chain| <= |node| && chain[|chain| - 1].hash == node[|chain| - 1].hash
    ensures Fork(chain, node) <= |chain|
  {
  }

  /** One rollback attempt of the walk: it takes the tip off, or fails and leaves all as it was. */
  lemma RollStep(s0: State, s: State, fails: bool, deleted: nat, node: seq<Block>, budget: nat)
    requires s == s0.(chain := s.chain) && s.chain != [] && s.live == s.from < |s.chain|
    requires WalkedTo(s0.chain, s.chain, deleted, node, budget) && deleted < budget && |s0.chain| - |node| <= budget
    requires |s.chain| > |node| || s.chain[|s.chain| - 1].hash != node[|s.chain| - 1].hash
    ensures fails ==> RolledBack(s, fails) == s
    ensures !fails ==>
      && RolledBack(s, fails) == s0.(chain := RolledBack(s, fails).chain) && |RolledBack(s, fails).chain| == |s.chain| - 1
      && WalkedTo(s0.chain, RolledBack(s, fails).chain, deleted + 1, node, budget)
  {
    WalkStep(s0.chain, s.chain, deleted, node, budget);
  }

  /** Reading the tip back: the record it names is there exactly when a block is committed. */
  lemma TipRead(db: Db, s: State, undo: nat)
    requires Wf(s, undo) && Durable(db, s)
    ensures s.chain == [] ==> forall bh :: GetBlock(db, bh) == None
    ensures s.chain != [] ==>
      && GetLastBlockHeight(db) == |s.chain| - 1
      && GetLastBlockHash(db) == Some(s.chain[|s.chain| - 1].hash)
      && GetBlock(db, s.chain[|s.chain| - 1].hash).Some?
      && GetBlock(db, s.chain[|s.chain| - 1].hash).value.height == |s.chain| - 1
  {
    if s.chain != [] {
      hide Durable, Wf;
      CommittedTip(db, s, undo);
    } else {
      EmptyChainHasNoBlocks(db, s);
    }
  }

  lemma EmptyChainHasNoBlocks(db: Db, s: State)
    requires Durable(db, s) && s.chain == []
    ensures forall bh :: GetBlock(db, bh) == None
  {
    assert Windowed(s.chain, s.from).blocks == map[];
    forall bh ensures GetBlock(db, bh) == None {
      assert Get(db, B(bh)) == At(Windowed(s.chain, s.from), B(bh));
    }
  }
}
