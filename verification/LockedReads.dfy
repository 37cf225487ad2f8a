/** Address reads under the store-commit lock, beside any commits. */
module LockedReads {
  import opened Chain
  import opened SpentOnce
  import opened MempoolStore
  import opened MempoolCommits
  import opened AddressReads
  import opened ConfirmingSpends
  import opened MempoolPass
  import L = StoreLock

  /** A flush changes the stores twice, first the confirmed one and then the mempool one; every other commit once. */
  function Script(c: Commit): seq<Stores -> Stores> {
    match c
    case Flush(blocks) =>
      [(s: Stores) => s.(chain := s.chain + blocks),
       (s: Stores) => s.(mempool := DropSet(s.mempool, TxidsOf(blocks)))]
    case _ => [(s: Stores) => Apply(s, c)]
  }

  lemma ScriptApplies(c: Commit, s: Stores)
    ensures L.Applied(Script(c), |Script(c)|, s) == Apply(s, c)
  {
    hide DropSet, StageAll;
    if c.Flush? {
      assert L.Applied(Script(c), 1, s) == s.(chain := s.chain + c.blocks);
    }
  }

  /** Each writing task is one of these commits. */
  ghost predicate Performs(s: L.State<Stores>, todo: seq<Commit>) {
    |todo| == |s.tasks| && forall i :: 0 <= i < |todo| && s.tasks[i].Writer? ==> s.tasks[i].script == Script(todo[i])
  }

  /** The commits that have finished, in the order they took the lock. */
  ghost function Finished(s: L.State<Stores>, todo: seq<Commit>): (r: seq<Commit>)
    requires Performs(s, todo) && L.Logged(s)
    ensures |r| == |s.log|
  {
    seq(|s.log|, k requires 0 <= k < |s.log| => todo[s.log[k]])
  }

  lemma {:induction false} SettledRun(s: L.State<Stores>, todo: seq<Commit>, k: nat)
    requires Performs(s, todo) && L.Logged(s) && k <= |s.log|
    ensures s.settled[k] == RunOf(s.settled[0], Finished(s, todo)[..k])
  {
    hide Apply, Script;
    if k > 0 {
      SettledRun(s, todo, k - 1);
      RunStep(s.settled[0], Finished(s, todo), k - 1);
      ScriptApplies(todo[s.log[k - 1]], s.settled[k - 1]);
    }
  }

  // ----- a schedule of commits and reads

  /** The tasks arrive at a free lock and take it in turn as the schedule says. */
  ghost predicate Scheduled(s: L.State<Stores>, schedule: seq<nat>, todo: seq<Commit>) {
    L.Initial(s) && Performs(s, todo) && (L.InitialInv(s); L.Schedulable(s, schedule))
  }

  ghost function Later(s: L.State<Stores>, schedule: seq<nat>, todo: seq<Commit>): L.State<Stores>
    requires Scheduled(s, schedule, todo)
  {
    L.InitialInv(s);
    L.After(s, schedule)
  }

  lemma LaterFacts(s: L.State<Stores>, schedule: seq<nat>, todo: seq<Commit>)
    requires Scheduled(s, schedule, todo)
    ensures var t := Later(s, schedule, todo);
      && L.Logged(t) && Performs(t, todo) && t.settled[0] == s.stores
      && forall i :: 0 <= i < |t.tasks| && t.tasks[i].Reader? ==> L.SeenSettled(t.tasks[i].seen, t.settled)
  {
    L.InitialInv(s);
    L.ReadsAreAtomic(s, schedule);
    hide Script, L.Inv, L.SeenSettled;
  }

  /** The commits the schedule has finished, in the order they took the lock. */
  ghost function Done(s: L.State<Stores>, schedule: seq<nat>, todo: seq<Commit>): seq<Commit>
    requires Scheduled(s, schedule, todo)
  {
    LaterFacts(s, schedule, todo);
    Finished(Later(s, schedule, todo), todo)
  }

  /** A read of the schedule has seen this so far, await by await. */
  ghost predicate ReadSaw(s: L.State<Stores>, schedule: seq<nat>, todo: seq<Commit>, seen: seq<Stores>)
    requires Scheduled(s, schedule, todo)
  {
    var t := Later(s, schedule, todo);
    exists i :: 0 <= i < |t.tasks| && t.tasks[i].Reader? && t.tasks[i].seen == seen
  }

  /** Whatever a read sees is the stores as they were after some of the finished commits, never between the two
      changes of a flush. */
  lemma SeesOneBoundary(s: L.State<Stores>, schedule: seq<nat>, todo: seq<Commit>, seen: seq<Stores>) returns (k: nat)
    requires Scheduled(s, schedule, todo) && ReadSaw(s, schedule, todo, seen)
    ensures k <= |Done(s, schedule, todo)|
    ensures forall x :: x in seen ==> x == RunOf(s.stores, Done(s, schedule, todo)[..k])
  {
    LaterFacts(s, schedule, todo);
    hide Script, Apply, Scheduled, Performs, L.Logged, Later;
    var t := Later(s, schedule, todo);
    var i :| 0 <= i < |t.tasks| && t.tasks[i].Reader? && t.tasks[i].seen == seen;
    assert L.SeenSettled(seen, t.settled);
    k := SomeSettled(t, seen);
    SettledRun(t, todo, k);
  }

  lemma SomeSettled(t: L.State<Stores>, seen: seq<Stores>) returns (k: nat)
    requires L.Logged(t) && L.SeenSettled(seen, t.settled)
    ensures k <= |t.log| && forall x :: x in seen ==> x == t.settled[k]
  {
    if seen == [] {
      k := 0;
    } else {
      k :| 0 <= k < |t.settled| && forall x :: x in seen ==> x == t.settled[k];
    }
  }

  // ----- the queries

  function Pairs(seen: seq<Stores>): (r: seq<Pair>)
    ensures |r| == |seen| && forall i :: 0 <= i < |seen| ==> r[i] == PairOf(seen[i])
  {
    seq(|seen|, i requires 0 <= i < |seen| => PairOf(seen[i]))
  }

  /** The state a read answered for. */
  ghost predicate AtBoundary(book: Txid -> Tx, start: Stores, done: seq<Commit>, k: nat, pairs: seq<Pair>) {
    k <= |done| && OneState(pairs) && (pairs != [] ==> pairs[0] == PairOf(RunOf(start, done[..k])))
    && SameOutputs(PairOf(RunOf(start, done[..k])))
  }

  lemma ReadsBoundary(book: Txid -> Tx, s: L.State<Stores>, schedule: seq<nat>, todo: seq<Commit>, seen: seq<Stores>)
    returns (k: nat)
    requires Scheduled(s, schedule, todo) && ReadSaw(s, schedule, todo, seen)
    requires Sound(book, s.stores) && LegalRun(book, s.stores, Done(s, schedule, todo))
    ensures AtBoundary(book, s.stores, Done(s, schedule, todo), k, Pairs(seen))
  {
    hide Scheduled, Done, ReadSaw, PairOf, Sound, SameOutputs, RunOf;
    k := SeesOneBoundary(s, schedule, todo, seen);
    RunSound(book, s.stores, Done(s, schedule, todo), k);
    SoundSameOutputs(book, RunOf(s.stores, Done(s, schedule, todo)[..k]));
    assert forall i :: 0 <= i < |seen| ==> seen[i] in seen;
  }

  /** A get_utxos call whose awaits see whatever the schedule leaves in the stores at each: its whole answer is the
      answer over one state, between two commits. */
  method LockedUtxos(ghost book: Txid -> Tx, ghost s: L.State<Stores>, ghost schedule: seq<nat>, ghost todo: seq<Commit>,
                     seen: seq<Stores>, policy: Policy, ghost script: ScriptHash, rows: seq<Outpoint>, mrows: seq<Outpoint>,
                     limit: Option<nat>, after: Option<Outpoint>, maxOutputs: nat)
    returns (r: Result<Page>, ghost k: nat)
    requires Scheduled(s, schedule, todo) && ReadSaw(s, schedule, todo, seen)
    requires Sound(book, s.stores) && LegalRun(book, s.stores, Done(s, schedule, todo))
    requires EnoughSeen(Pairs(seen), rows, mrows) && (limit.Some? ==> limit.value > 0)
    requires ConfirmedScan(rows, Pairs(seen)[2].confirmed.utxo, script) && PendingScan(mrows, Pairs(seen)[3].mempool, script)
    ensures k <= |Done(s, schedule, todo)|
    ensures r.AddressTooLarge? <==> TooLarge(rows, mrows, limit, after, maxOutputs)
    ensures r.Ok? ==>
      var p := PairOf(RunOf(s.stores, Done(s, schedule, todo)[..k]));
      Answers(p, policy, rows, mrows, limit, after, r.value) && Lists(p, policy, rows, mrows, limit, after, r.value)
    ensures r.Ok? ==>
      var chain := RunOf(s.stores, Done(s, schedule, todo)[..k]).chain;
      && r.value.height == |chain| - 1 && (chain != [] ==> r.value.hash == Some(chain[|chain| - 1].hash))
  {
    hide Scheduled, Done, ReadSaw, PairOf, Sound, SameOutputs, RunOf, Answers, Lists, ConfirmedScan, PendingScan, LegalRun;
    k := ReadsBoundary(book, s, schedule, todo, seen);
    r := ReadUtxosAddress(Pairs(seen), policy, script, rows, mrows, limit, after, maxOutputs);
    if r.Ok? {
      Labelled(RunOf(s.stores, Done(s, schedule, todo)[..k]), policy, rows, mrows, limit, after, r.value);
    }
  }

  lemma Labelled(x: Stores, policy: Policy, rows: seq<Outpoint>, mrows: seq<Outpoint>, limit: Option<nat>,
                 after: Option<Outpoint>, page: Page)
    requires Answers(PairOf(x), policy, rows, mrows, limit, after, page)
    ensures page.height == |x.chain| - 1 && (x.chain != [] ==> page.hash == Some(x.chain[|x.chain| - 1].hash))
  {
  }

  /** The same of a get_info call. */
  method LockedInfo(ghost book: Txid -> Tx, ghost s: L.State<Stores>, ghost schedule: seq<nat>, ghost todo: seq<Commit>,
                    seen: seq<Stores>, ghost script: ScriptHash, rows: seq<Outpoint>, mrows: seq<Outpoint>, maxOutputs: nat)
    returns (r: Result<Balance>, ghost k: nat)
    requires Scheduled(s, schedule, todo) && ReadSaw(s, schedule, todo, seen)
    requires Sound(book, s.stores) && LegalRun(book, s.stores, Done(s, schedule, todo))
    requires EnoughSeen(Pairs(seen), rows, mrows)
    requires ConfirmedScan(rows, Pairs(seen)[2].confirmed.utxo, script) && PendingScan(mrows, Pairs(seen)[3].mempool, script)
    ensures k <= |Done(s, schedule, todo)|
    ensures r.AddressTooLarge? <==> |rows| > maxOutputs || |mrows| > maxOutputs
    ensures r.Ok? ==> BalanceOf(PairOf(RunOf(s.stores, Done(s, schedule, todo)[..k])), rows, mrows, r.value)
  {
    hide Scheduled, Done, ReadSaw, PairOf, Sound, SameOutputs, RunOf, BalanceOf, ConfirmedScan, PendingScan, LegalRun;
    k := ReadsBoundary(book, s, schedule, todo, seen);
    r := ReadBalanceInfo(Pairs(seen), script, rows, mrows, maxOutputs);
  }

  // ----- what no answer lists

  lemma NotListed(p: Pair, policy: Policy, rows: seq<Outpoint>, mrows: seq<Outpoint>, limit: Option<nat>,
                  after: Option<Outpoint>, page: Page, op: Outpoint)
    requires Answers(p, policy, rows, mrows, limit, after, page)
    requires !ServesConfirmed(p, policy, op) && !ServesPending(p, op)
    ensures op !in Ops(page.entries)
  {
    forall i | 0 <= i < |page.entries| ensures Ops(page.entries)[i] != op {
      assert page.entries[i] in page.entries;
    }
  }

  /** A guarded outpoint is on no page that any read of the schedule can answer, if every commit spares it. */
  lemma SparedNotListed(book: Txid -> Tx, start: Stores, done: seq<Commit>, k: nat, op: Outpoint, policy: Policy,
                        rows: seq<Outpoint>, mrows: seq<Outpoint>, limit: Option<nat>, after: Option<Outpoint>, page: Page)
    requires Sound(book, start) && LegalRun(book, start, done) && k <= |done|
    requires Guarded(start, op) && SparesAll(book, start, done, op)
    requires Answers(PairOf(RunOf(start, done[..k])), policy, rows, mrows, limit, after, page)
    ensures op !in Ops(page.entries)
  {
    hide Sound, LegalRun, Guarded, Answers, PairOf, RunOf, Servable, Spares;
    GuardedRun(book, start, done, op, |done|);
    assert Guarded(RunOf(start, done[..k]), op);
    RunSound(book, start, done, k);
    GuardedIffUnserved(book, RunOf(start, done[..k]), op);
    ServedIffServable(RunOf(start, done[..k]), policy, op);
    NotListed(PairOf(RunOf(start, done[..k])), policy, rows, mrows, limit, after, page, op);
  }

  /** Nor is an outpoint that a held transaction spends while the node keeps that transaction: when the commits
      that finish are those of such a run, no page answered beside them lists it. */
  lemma HeldSpendNotListed(names: Names, w: World, acts: seq<Act>, t: Txid, op: Outpoint, k: nat, policy: Policy,
                           rows: seq<Outpoint>, mrows: seq<Outpoint>, limit: Option<nat>, after: Option<Outpoint>, page: Page)
    requires WorldOk(names, w) && w.pass.Idle? && EnabledRun(names, w, acts) && k <= |Commits(w, acts)|
    requires t in w.stores.mempool.txs && op in w.stores.mempool.inputs
    requires Sole(names, w, t, op) && Settled(w, t, op) && KeptRun(names, w, acts, t, op)
    requires Answers(PairOf(RunOf(w.stores, Commits(w, acts)[..k])), policy, rows, mrows, limit, after, page)
    ensures op !in Ops(page.entries)
  {
    hide WorldOk, Enabled, Kept, Sole, Settled, Answers, PairOf, RunOf, Commits, After, Servable, LegalRun;
    var n := BoundaryReached(w, acts, k);
    PrefixEnabled(names, w, acts, n);
    CommitsRun(names, w, acts[..n]);
    HeldSpendNeverServed(names, w, acts, t, op, n, policy);
    NotListed(PairOf(After(w, acts[..n]).stores), policy, rows, mrows, limit, after, page, op);
  }

  lemma PrefixEnabled(names: Names, w: World, acts: seq<Act>, n: nat)
    requires EnabledRun(names, w, acts) && n <= |acts|
    ensures EnabledRun(names, w, acts[..n])
  {
    hide Enabled, After;
    var all := acts[..n];
    forall k: nat | k < n ensures Enabled(names, After(w, all[..k]), all[k]) {
      assert all[..k] == acts[..k];
    }
  }
}
