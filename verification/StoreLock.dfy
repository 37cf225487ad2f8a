/** The store-commit lock, and any number of tasks going through it. */
module StoreLock {
  /** A task in `waiters` is parked; waking the lock empties the list, and a woken task checks again. */
  datatype Lock = Lock(readers: nat, writing: bool, waiters: set<nat>)

  const FREE := Lock(0, false, {})

  datatype Phase = Arriving | Draining | Inside | Done

  /** A reader takes `left` more snapshots of the stores; a writer changes them by `script`, a change at a
      time, and has made `made` of its changes. */
  datatype Task<!S> =
    | Reader(phase: Phase, left: nat, seen: seq<S>)
    | Writer(phase: Phase, script: seq<S -> S>, made: nat)

  /** `log` lists the commits that have finished, in order; `settled` is what the stores were at the start and
      after each of them. */
  datatype State<!S> = State(lock: Lock, stores: S, tasks: seq<Task<S>>, log: seq<nat>, settled: seq<S>)

  /** The first `n` changes of a commit, one after another. */
  function Applied<S>(script: seq<S -> S>, n: nat, x: S): S
    requires n <= |script|
  {
    if n == 0 then x else script[n - 1](Applied(script, n - 1, x))
  }

  // ----- one step of the lock

  // Tasks interleave only where the program awaits: each step below runs from one await to the next.

  function Park(l: Lock, i: nat): Lock {
    l.(waiters := l.waiters + {i})
  }

  function EnterRead(l: Lock, i: nat): Lock {
    if l.writing then Park(l, i) else l.(readers := l.readers + 1)
  }

  function LeaveRead(l: Lock): Lock
    requires l.readers > 0
  {
    var left := l.readers - 1;
    l.(readers := left, waiters := if left == 0 then {} else l.waiters)
  }

  /** Claims the lock unless another writer has it; a claimed lock still drains its readers. */
  function ClaimWrite(l: Lock, i: nat): Lock {
    if l.writing then Park(l, i)
    else if l.readers > 0 then Park(l.(writing := true), i)
    else l.(writing := true)
  }

  function DrainReaders(l: Lock, i: nat): Lock {
    if l.readers > 0 then Park(l, i) else l
  }

  function LeaveWrite(l: Lock): Lock {
    l.(writing := false, waiters := {})
  }

  /** The lock object of a tracker. */
  class StoreCommitLock {
    var readers: nat
    var writing: bool
    var waiters: set<nat>

    constructor ()
      ensures Value() == FREE
    {
      readers, writing, waiters := 0, false, {};
    }

    function Value(): Lock
      reads this
    {
      Lock(readers, writing, waiters)
    }

    method WakeLockWaiters()
      modifies `waiters
      ensures waiters == {}
    {
      waiters := {};
    }

    /** A read's way in: true once it is admitted, false when it has to wait. */
    method TryRead(i: nat) returns (admitted: bool)
      modifies this
      ensures Value() == EnterRead(old(Value()), i) && admitted == !old(writing)
    {
      if writing {
        waiters := waiters + {i};
        return false;
      }
      readers := readers + 1;
      admitted := true;
    }

    method FinishRead()
      requires readers > 0
      modifies this
      ensures Value() == LeaveRead(old(Value()))
    {
      readers := readers - 1;
      if readers == 0 {
        WakeLockWaiters();
      }
    }

    /** A commit's way in: true once it runs alone, false when it waits for a writer or for readers. */
    method TryWrite(i: nat) returns (admitted: bool)
      modifies this
      ensures Value() == ClaimWrite(old(Value()), i)
      ensures admitted == (!old(writing) && old(readers) == 0)
    {
      if writing {
        waiters := waiters + {i};
        return false;
      }
      writing := true;
      admitted := TryDrain(i);
    }

    method TryDrain(i: nat) returns (admitted: bool)
      modifies `waiters
      ensures Value() == DrainReaders(old(Value()), i) && admitted == (readers == 0)
    {
      if readers > 0 {
        waiters := waiters + {i};
        return false;
      }
      admitted := true;
    }

    method FinishWrite()
      modifies this
      ensures Value() == LeaveWrite(old(Value()))
    {
      writing := false;
      WakeLockWaiters();
    }
  }

  // ----- one step of a task

  predicate CanStep<S>(s: State<S>, i: nat) {
    i < |s.tasks| && i !in s.lock.waiters && s.tasks[i].phase != Done
  }

  function StepReader<S>(s: State<S>, i: nat): State<S>
    requires CanStep(s, i) && s.tasks[i].Reader? && (s.tasks[i].phase.Inside? ==> s.lock.readers > 0)
  {
    var t := s.tasks[i];
    if !t.phase.Inside? then
      var l := EnterRead(s.lock, i);
      s.(lock := l, tasks := if s.lock.writing then s.tasks else s.tasks[i := Reader(Inside, t.left, t.seen)])
    else if t.left > 0 then
      s.(tasks := s.tasks[i := Reader(Inside, t.left - 1, t.seen + [s.stores])])
    else
      s.(lock := LeaveRead(s.lock), tasks := s.tasks[i := Reader(Done, 0, t.seen)])
  }

  function StepWriter<S>(s: State<S>, i: nat): State<S>
    requires CanStep(s, i) && s.tasks[i].Writer?
  {
    var t := s.tasks[i];
    match t.phase
    case Arriving =>
      var phase := if s.lock.writing then Arriving else if s.lock.readers > 0 then Draining else Inside;
      s.(lock := ClaimWrite(s.lock, i), tasks := s.tasks[i := Writer(phase, t.script, t.made)])
    case Draining =>
      s.(lock := DrainReaders(s.lock, i),
         tasks := if s.lock.readers > 0 then s.tasks else s.tasks[i := Writer(Inside, t.script, t.made)])
    case Inside =>
      if t.made < |t.script| then
        s.(stores := t.script[t.made](s.stores), tasks := s.tasks[i := Writer(Inside, t.script, t.made + 1)])
      else
        s.(lock := LeaveWrite(s.lock), tasks := s.tasks[i := Writer(Done, t.script, t.made)],
           log := s.log + [i], settled := s.settled + [s.stores])
    case Done => s
  }

  function Step<S>(s: State<S>, i: nat): State<S>
    requires CanStep(s, i) && (s.tasks[i].Reader? && s.tasks[i].phase.Inside? ==> s.lock.readers > 0)
  {
    if s.tasks[i].Reader? then StepReader(s, i) else StepWriter(s, i)
  }

  // ----- what every reachable state satisfies

  ghost function Reading<S>(tasks: seq<Task<S>>): set<nat> {
    set i | 0 <= i < |tasks| && tasks[i].Reader? && tasks[i].phase.Inside?
  }

  /** The writer that has claimed the lock, draining readers or committing. */
  ghost function Claiming<S>(tasks: seq<Task<S>>): set<nat> {
    set i | 0 <= i < |tasks| && tasks[i].Writer? && (tasks[i].phase.Draining? || tasks[i].phase.Inside?)
  }

  /** All the snapshots a read has taken are the stores as they were at the start or after one commit. */
  ghost predicate SeenSettled<S(!new)>(seen: seq<S>, settled: seq<S>) {
    seen == [] || exists k :: 0 <= k < |settled| && forall x :: x in seen ==> x == settled[k]
  }

  ghost predicate TaskOk<S(!new)>(s: State<S>, i: nat)
    requires i < |s.tasks|
  {
    var t := s.tasks[i];
    && (t.Reader? ==> !t.phase.Draining? && SeenSettled(t.seen, s.settled))
    && (t.Reader? && t.phase.Arriving? ==> t.seen == [])
    && (t.Reader? && t.phase.Inside? ==> forall x :: x in t.seen ==> x == s.stores)
    && (t.Writer? && t.phase.Inside? ==> s.lock.readers == 0)
    && (t.Writer? ==> t.made <= |t.script| && (t.phase.Arriving? || t.phase.Draining? ==> t.made == 0))
    && (i in s.lock.waiters ==>
          (t.phase.Arriving? && s.lock.writing) || (t.phase.Draining? && s.lock.readers > 0))
  }

  /** One settled state follows another by the whole script of the commit between them; no commit is logged
      twice, and none that has not finished. */
  ghost predicate Logged<S(!new)>(s: State<S>) {
    && |s.settled| == |s.log| + 1
    && (forall j, k :: 0 <= j < k < |s.log| ==> s.log[j] != s.log[k])
    && forall k :: 0 <= k < |s.log| ==>
         && s.log[k] < |s.tasks| && s.tasks[s.log[k]].Writer? && s.tasks[s.log[k]].phase.Done?
         && s.settled[k + 1] == Applied(s.tasks[s.log[k]].script, |s.tasks[s.log[k]].script|, s.settled[k])
  }

  /** The stores are as the last commit left them, but for what a commit under way has already changed. */
  ghost predicate StoresOk<S(!new)>(s: State<S>)
    requires s.settled != []
  {
    var last := s.settled[|s.settled| - 1];
    && (forall i :: 0 <= i < |s.tasks| && s.tasks[i].Writer? && s.tasks[i].phase.Inside? ==>
          s.tasks[i].made <= |s.tasks[i].script| && s.stores == Applied(s.tasks[i].script, s.tasks[i].made, last))
    && (s.stores != last ==> exists i :: 0 <= i < |s.tasks| && s.tasks[i].Writer? && s.tasks[i].phase.Inside?)
  }

  ghost predicate Inv<S(!new)>(s: State<S>) {
    && s.lock.readers == |Reading(s.tasks)|
    && |Claiming(s.tasks)| == (if s.lock.writing then 1 else 0)
    && (forall i :: i in s.lock.waiters ==> i < |s.tasks|)
    && (forall i: nat :: i < |s.tasks| ==> TaskOk(s, i))
    && Logged(s) && StoresOk(s)
  }

  /** Tasks all arriving at a free lock. */
  ghost predicate Initial<S>(s: State<S>) {
    s.lock == FREE && s.log == [] && s.settled == [s.stores] && forall i :: 0 <= i < |s.tasks| ==>
      && s.tasks[i].phase == Arriving
      && (if s.tasks[i].Reader? then s.tasks[i].seen == [] else s.tasks[i].made == 0)
  }

  lemma InitialInv<S(!new)>(s: State<S>)
    requires Initial(s)
    ensures Inv(s)
  {
    assert Reading(s.tasks) == {} && Claiming(s.tasks) == {};
  }

  predicate IsReading<S>(t: Task<S>) {
    t.Reader? && t.phase.Inside?
  }

  predicate IsClaiming<S>(t: Task<S>) {
    t.Writer? && (t.phase.Draining? || t.phase.Inside?)
  }

  function One(b: bool): int {
    if b then 1 else 0
  }

  lemma MoveReading<S>(tasks: seq<Task<S>>, i: nat, t: Task<S>)
    requires i < |tasks|
    ensures |Reading(tasks[i := t])| == |Reading(tasks)| + One(IsReading(t)) - One(IsReading(tasks[i]))
  {
    var rest := Reading(tasks) - {i};
    assert Reading(tasks) == if IsReading(tasks[i]) then rest + {i} else rest;
    assert Reading(tasks[i := t]) == if IsReading(t) then rest + {i} else rest;
  }

  lemma MoveClaiming<S>(tasks: seq<Task<S>>, i: nat, t: Task<S>)
    requires i < |tasks|
    ensures |Claiming(tasks[i := t])| == |Claiming(tasks)| + One(IsClaiming(t)) - One(IsClaiming(tasks[i]))
  {
    var rest := Claiming(tasks) - {i};
    assert Claiming(tasks) == if IsClaiming(tasks[i]) then rest + {i} else rest;
    assert Claiming(tasks[i := t]) == if IsClaiming(t) then rest + {i} else rest;
  }

  /** Moving one task moves the counts by what that task was and is. */
  lemma MoveCount<S>(tasks: seq<Task<S>>, i: nat, t: Task<S>)
    requires i < |tasks|
    ensures |Reading(tasks[i := t])| == |Reading(tasks)| + One(IsReading(t)) - One(IsReading(tasks[i]))
    ensures |Claiming(tasks[i := t])| == |Claiming(tasks)| + One(IsClaiming(t)) - One(IsClaiming(tasks[i]))
  {
    hide Reading, Claiming;
    MoveReading(tasks, i, t);
    MoveClaiming(tasks, i, t);
  }

  lemma OnlyOne(c: set<nat>, i: nat, j: nat)
    requires |c| <= 1 && i in c && j in c
    ensures i == j
  {
    var rest := c - {i};
    assert |rest| == |c| - 1;
    assert i != j ==> j in rest;
  }

  lemma ReaderCounted<S(!new)>(s: State<S>, i: nat)
    requires Inv(s) && i < |s.tasks| && s.tasks[i].Reader? && s.tasks[i].phase.Inside?
    ensures s.lock.readers > 0
  {
    assert i in Reading(s.tasks);
  }

  lemma WriterCounted<S(!new)>(s: State<S>, i: nat)
    requires Inv(s) && i < |s.tasks| && i in Claiming(s.tasks)
    ensures s.lock.writing && forall j :: j in Claiming(s.tasks) ==> j == i
  {
    forall j | j in Claiming(s.tasks) ensures j == i {
      OnlyOne(Claiming(s.tasks), i, j);
    }
  }

  lemma ReaderStoresOk<S(!new)>(s: State<S>, i: nat)
    requires Inv(s) && CanStep(s, i) && s.tasks[i].Reader? && (s.tasks[i].phase.Inside? ==> s.lock.readers > 0)
    ensures StoresOk(StepReader(s, i))
  {
    hide Reading, Claiming, TaskOk, Applied;
    var s' := StepReader(s, i);
    var last := s.settled[|s.settled| - 1];
    if s'.stores != last {
      var j :| 0 <= j < |s.tasks| && s.tasks[j].Writer? && s.tasks[j].phase.Inside?;
      assert s'.tasks[j] == s.tasks[j];
    }
  }

  lemma StepReaderInv<S(!new)>(s: State<S>, i: nat)
    requires Inv(s) && CanStep(s, i) && s.tasks[i].Reader?
    ensures s.tasks[i].phase.Inside? ==> s.lock.readers > 0
    ensures Inv(StepReader(s, i))
  {
    if s.tasks[i].phase.Inside? {
      ReaderCounted(s, i);
    }
    ReaderTasksOk(s, i);
    MoveCount(s.tasks, i, StepReader(s, i).tasks[i]);
    assert TaskOk(s, i);
    assert s.tasks[i := s.tasks[i]] == s.tasks;
    LogKept(s, StepReader(s, i), i);
    ReaderStoresOk(s, i);
    hide Reading, Claiming, Logged, StoresOk, TaskOk;
  }

  lemma SeenNow<S(!new)>(seen: seq<S>, x: S, settled: seq<S>)
    requires (forall y :: y in seen ==> y == x) && settled != [] && settled[|settled| - 1] == x
    ensures SeenSettled(seen + [x], settled) && forall y :: y in seen + [x] ==> y == x
  {
    var k := |settled| - 1;
    assert forall y :: y in seen + [x] ==> y == settled[k];
  }

  lemma SeenStill<S(!new)>(seen: seq<S>, settled: seq<S>, x: S)
    requires SeenSettled(seen, settled)
    ensures SeenSettled(seen, settled + [x])
  {
    if seen != [] {
      var k :| 0 <= k < |settled| && forall y :: y in seen ==> y == settled[k];
      assert (settled + [x])[k] == settled[k];
    }
  }

  /** A step that leaves the commits done and the scripts alone keeps the log. */
  lemma LogKept<S(!new)>(s: State<S>, s': State<S>, i: nat)
    requires Logged(s) && i < |s.tasks| && !s.tasks[i].phase.Done? && |s'.tasks| == |s.tasks| && s'.log == s.log && s'.settled == s.settled
    requires forall j :: 0 <= j < |s.tasks| && j != i ==> s'.tasks[j] == s.tasks[j]
    requires s.tasks[i].Writer? ==> s'.tasks[i].Writer? && s'.tasks[i].script == s.tasks[i].script
    ensures Logged(s')
  {
    forall k | 0 <= k < |s.log|
      ensures s'.log[k] < |s'.tasks| && s'.tasks[s'.log[k]].Writer? && s'.tasks[s'.log[k]].phase.Done?
        && s'.settled[k + 1] == Applied(s'.tasks[s'.log[k]].script, |s'.tasks[s'.log[k]].script|, s'.settled[k])
    {
      assert s.tasks[s.log[k]].Writer?;
    }
  }

  /** While a read is under way the stores are settled. */
  lemma ReadersQuiet<S(!new)>(s: State<S>, i: nat)
    requires Inv(s) && i < |s.tasks| && IsReading(s.tasks[i])
    ensures s.settled != [] && s.stores == s.settled[|s.settled| - 1]
  {
    ReaderCounted(s, i);
    forall j | 0 <= j < |s.tasks| && s.tasks[j].Writer? ensures !s.tasks[j].phase.Inside? {
      assert TaskOk(s, j);
    }
  }

  lemma ReaderTasksOk<S(!new)>(s: State<S>, i: nat)
    requires Inv(s) && CanStep(s, i) && s.tasks[i].Reader? && (s.tasks[i].phase.Inside? ==> s.lock.readers > 0)
    ensures forall j: nat :: j < |s.tasks| ==> TaskOk(StepReader(s, i), j)
  {
    var s' := StepReader(s, i);
    assert TaskOk(s, i);
    if s.tasks[i].phase.Inside? {
      ReadersQuiet(s, i);
      SeenNow(s.tasks[i].seen, s.stores, s.settled);
    }
    NoWriterInside(s);
    hide Reading, Claiming, SeenSettled, Logged, StoresOk;
    assert SeenSettled(s'.tasks[i].seen, s.settled);
    forall j: nat | j < |s.tasks| ensures TaskOk(s', j) {
      assert TaskOk(s, j);
    }
  }

  /** With no claim on the lock there is no writer inside. */
  lemma NoWriterInside<S(!new)>(s: State<S>)
    requires Inv(s)
    ensures !s.lock.writing ==> forall j :: 0 <= j < |s.tasks| && s.tasks[j].Writer? ==>
      !s.tasks[j].phase.Inside? && !s.tasks[j].phase.Draining?
    ensures s.lock.readers == 0 ==> forall j :: 0 <= j < |s.tasks| && s.tasks[j].Reader? ==> !s.tasks[j].phase.Inside?
  {
    forall j | 0 <= j < |s.tasks| && s.tasks[j].Writer? && !s.lock.writing
      ensures !s.tasks[j].phase.Inside? && !s.tasks[j].phase.Draining?
    {
      assert j !in Claiming(s.tasks);
    }
    forall j | 0 <= j < |s.tasks| && s.tasks[j].Reader? && s.lock.readers == 0 ensures !s.tasks[j].phase.Inside? {
      assert j !in Reading(s.tasks);
    }
  }

  lemma ClaimedAlone<S(!new)>(s: State<S>, i: nat)
    requires Inv(s) && i < |s.tasks| && IsClaiming(s.tasks[i])
    ensures s.lock.writing && forall j :: 0 <= j < |s.tasks| && IsClaiming(s.tasks[j]) ==> j == i
  {
    assert i in Claiming(s.tasks);
    WriterCounted(s, i);
    forall j | 0 <= j < |s.tasks| && IsClaiming(s.tasks[j]) ensures j == i {
      assert j in Claiming(s.tasks);
    }
  }

  lemma WriterTasksOk<S(!new)>(s: State<S>, i: nat)
    requires Inv(s) && CanStep(s, i) && s.tasks[i].Writer?
    ensures forall j: nat :: j < |s.tasks| ==> TaskOk(StepWriter(s, i), j)
  {
    var s' := StepWriter(s, i);
    assert TaskOk(s, i);
    NoWriterInside(s);
    if IsClaiming(s.tasks[i]) {
      ClaimedAlone(s, i);
    }
    hide Reading, Claiming, SeenSettled, Logged, StoresOk;
    forall j: nat | j < |s.tasks| ensures TaskOk(s', j) {
      assert TaskOk(s, j);
      if s.tasks[j].Reader? {
        SeenStill(s.tasks[j].seen, s.settled, s.stores);
      }
    }
  }

  /** A change of the claimant's takes the stores on by its script; its last hands them over settled. */
  lemma WriterStoresOk<S(!new)>(s: State<S>, i: nat)
    requires Inv(s) && CanStep(s, i) && s.tasks[i].Writer?
    ensures Logged(StepWriter(s, i)) && StoresOk(StepWriter(s, i))
  {
    var t, s', last := s.tasks[i], StepWriter(s, i), s.settled[|s.settled| - 1];
    assert TaskOk(s, i);
    NoWriterInside(s);
    if IsClaiming(t) {
      ClaimedAlone(s, i);
    }
    hide Reading, Claiming;
    if t.phase.Inside? && t.made == |t.script| {
      assert s.stores == Applied(t.script, |t.script|, last);
      LogAdded(s, i);
      assert StoresOk(s');
    } else {
      LogKept(s, s', i);
      if t.phase.Inside? {
        assert Applied(t.script, t.made + 1, last) == t.script[t.made](s.stores);
        assert s'.tasks[i].phase.Inside?;
      } else if s.stores != last {
        var j :| 0 <= j < |s.tasks| && s.tasks[j].Writer? && s.tasks[j].phase.Inside?;
        assert s'.tasks[j] == s.tasks[j];
      }
    }
  }

  lemma LogAdded<S(!new)>(s: State<S>, i: nat)
    requires Logged(s) && CanStep(s, i) && s.tasks[i].Writer? && s.tasks[i].phase.Inside?
    requires s.tasks[i].made == |s.tasks[i].script|
    requires s.stores == Applied(s.tasks[i].script, |s.tasks[i].script|, s.settled[|s.settled| - 1])
    ensures Logged(StepWriter(s, i))
  {
    var s' := StepWriter(s, i);
    forall k | 0 <= k < |s'.log|
      ensures s'.log[k] < |s'.tasks| && s'.tasks[s'.log[k]].Writer? && s'.tasks[s'.log[k]].phase.Done?
        && s'.settled[k + 1] == Applied(s'.tasks[s'.log[k]].script, |s'.tasks[s'.log[k]].script|, s'.settled[k])
    {
      if k < |s.log| {
        assert s'.settled[k + 1] == s.settled[k + 1] && s'.settled[k] == s.settled[k] && s'.log[k] == s.log[k];
      }
    }
  }

  lemma StepWriterInv<S(!new)>(s: State<S>, i: nat)
    requires Inv(s) && CanStep(s, i) && s.tasks[i].Writer?
    ensures Inv(StepWriter(s, i))
  {
    WriterTasksOk(s, i);
    MoveCount(s.tasks, i, StepWriter(s, i).tasks[i]);
    assert s.tasks[i := s.tasks[i]] == s.tasks;
    if IsClaiming(s.tasks[i]) {
      ClaimedAlone(s, i);
    }
    WriterStoresOk(s, i);
    hide Reading, Claiming, TaskOk, Logged, StoresOk;
  }

  /** Every step keeps the invariant. */
  lemma StepInv<S(!new)>(s: State<S>, i: nat)
    requires Inv(s) && CanStep(s, i)
    ensures s.tasks[i].Reader? && s.tasks[i].phase.Inside? ==> s.lock.readers > 0
    ensures Inv(Step(s, i))
  {
    hide Inv;
    if s.tasks[i].Reader? {
      StepReaderInv(s, i);
    } else {
      StepWriterInv(s, i);
    }
  }

  // ----- no deadlock, and every schedule ends

  ghost predicate AllDone<S>(s: State<S>) {
    forall i :: 0 <= i < |s.tasks| ==> s.tasks[i].phase.Done?
  }

  lemma SomeReader<S(!new)>(s: State<S>) returns (i: nat)
    requires Inv(s) && s.lock.readers > 0
    ensures CanStep(s, i) && IsReading(s.tasks[i])
  {
    assert Reading(s.tasks) != {};
    i :| i in Reading(s.tasks);
    assert TaskOk(s, i);
  }

  lemma SomeClaimant<S(!new)>(s: State<S>) returns (i: nat)
    requires Inv(s) && s.lock.writing
    ensures i < |s.tasks| && IsClaiming(s.tasks[i])
  {
    assert Claiming(s.tasks) != {};
    i :| i in Claiming(s.tasks);
  }

  /** A parked task is always owed a wake-up: whoever waits, some task that is not parked will empty
      the list, a reader inside when a claim drains, the claiming writer otherwise. */
  lemma NoLostWakeup<S(!new)>(s: State<S>, w: nat) returns (i: nat)
    requires Inv(s) && w in s.lock.waiters
    ensures CanStep(s, i) && (IsReading(s.tasks[i]) || IsClaiming(s.tasks[i]))
  {
    assert TaskOk(s, w);
    if s.lock.readers > 0 {
      i := SomeReader(s);
    } else {
      i := SomeClaimant(s);
      assert TaskOk(s, i);
    }
  }

  /** While a task is unfinished some task can step. */
  lemma NoDeadlock<S(!new)>(s: State<S>, w: nat) returns (i: nat)
    requires Inv(s) && w < |s.tasks| && !s.tasks[w].phase.Done?
    ensures CanStep(s, i)
  {
    if w in s.lock.waiters {
      i := NoLostWakeup(s, w);
    } else {
      i := w;
    }
  }

  /** A claimed lock lets no new reader in, and a committing one has none. */
  lemma WriterPreferred<S(!new)>(s: State<S>, i: nat)
    requires Inv(s) && CanStep(s, i) && s.lock.writing
    ensures s.tasks[i].Reader? && s.tasks[i].phase.Inside? ==> s.lock.readers > 0
    ensures Step(s, i).lock.readers <= s.lock.readers
    ensures IsReading(Step(s, i).tasks[i]) ==> IsReading(s.tasks[i])
  {
    StepInv(s, i);
  }

  /** A commit in progress excludes every read and every other commit. */
  lemma CommitAlone<S(!new)>(s: State<S>, w: nat, i: nat)
    requires Inv(s) && w < |s.tasks| && s.tasks[w].Writer? && s.tasks[w].phase.Inside?
    requires i < |s.tasks| && s.tasks[i].phase.Inside?
    ensures i == w
  {
    ClaimedAlone(s, w);
    assert TaskOk(s, w);
    NoWriterInside(s);
  }

  function Work<S>(t: Task<S>): nat {
    if t.phase.Done? then 0
    else
      (if t.Reader? then t.left else if t.made <= |t.script| then |t.script| - t.made else 0) + (if t.phase.Arriving? then 3 else if t.phase.Draining? then 2 else 1)
  }

  function TotalWork<S>(tasks: seq<Task<S>>): nat {
    if tasks == [] then 0 else TotalWork(tasks[..|tasks| - 1]) + Work(tasks[|tasks| - 1])
  }

  ghost function Awake<S>(s: State<S>): set<nat> {
    set i | 0 <= i < |s.tasks| && i !in s.lock.waiters
  }

  /** An upper bound on the steps left. */
  ghost function Fuel<S>(s: State<S>): nat {
    TotalWork(s.tasks) * (|s.tasks| + 1) + |Awake(s)|
  }

  lemma {:induction false} MoveWork<S>(tasks: seq<Task<S>>, i: nat, t: Task<S>)
    requires i < |tasks|
    ensures TotalWork(tasks[i := t]) == TotalWork(tasks) + Work(t) - Work(tasks[i])
  {
    var n := |tasks| - 1;
    if i == n {
      assert tasks[i := t][..n] == tasks[..n];
    } else {
      assert tasks[i := t][..n] == tasks[..n][i := t];
      MoveWork(tasks[..n], i, t);
    }
  }

  lemma AwakeBound(awake: set<nat>, n: nat)
    requires forall i :: i in awake ==> i < n
    ensures |awake| <= n
  {
    if n > 0 {
      AwakeBound(awake - {n - 1}, n - 1);
    } else {
      assert awake == {};
    }
  }

  lemma WorkOrSleep<S(!new)>(s: State<S>, i: nat)
    requires Inv(s) && CanStep(s, i)
    ensures s.tasks[i].Reader? && s.tasks[i].phase.Inside? ==> s.lock.readers > 0
    ensures var s' := Step(s, i);
      && |s'.tasks| == |s.tasks| && s'.tasks == s.tasks[i := s'.tasks[i]]
      && (Work(s'.tasks[i]) < Work(s.tasks[i])
          || (s'.tasks == s.tasks && s'.lock.waiters == s.lock.waiters + {i}))
  {
    StepInv(s, i);
    assert s.tasks[i := s.tasks[i]] == s.tasks;
  }

  lemma LessFuel(work: nat, work': nat, n: nat, awake: nat, awake': nat)
    requires awake' <= n
    requires work' < work || (work' == work && awake' < awake)
    ensures work' * (n + 1) + awake' < work * (n + 1) + awake
  {
    if work' < work {
      assert work' * (n + 1) + (n + 1) <= work * (n + 1) by {
        assert (work' + 1) * (n + 1) <= work * (n + 1);
      }
    }
  }

  lemma StepBurnsFuel<S(!new)>(s: State<S>, i: nat)
    requires Inv(s) && CanStep(s, i)
    ensures s.tasks[i].Reader? && s.tasks[i].phase.Inside? ==> s.lock.readers > 0
    ensures Fuel(Step(s, i)) < Fuel(s)
  {
    WorkOrSleep(s, i);
    var s' := Step(s, i);
    MoveWork(s.tasks, i, s'.tasks[i]);
    AwakeBound(Awake(s'), |s.tasks|);
    assert i in Awake(s);
    if s'.tasks == s.tasks && s'.lock.waiters == s.lock.waiters + {i} {
      assert Awake(s') == Awake(s) - {i};
    }
    hide Step, Inv, Awake, TotalWork, Work;
    LessFuel(TotalWork(s.tasks), TotalWork(s'.tasks), |s.tasks|, |Awake(s)|, |Awake(s')|);
  }

  // ----- whole schedules

  ghost predicate Schedulable<S(!new)>(s: State<S>, schedule: seq<nat>)
    requires Inv(s)
    decreases |schedule|
  {
    schedule == [] ||
    (CanStep(s, schedule[0])
     && (StepInv(s, schedule[0]); Schedulable(Step(s, schedule[0]), schedule[1..])))
  }

  ghost function After<S(!new)>(s: State<S>, schedule: seq<nat>): State<S>
    requires Inv(s) && Schedulable(s, schedule)
    decreases |schedule|
  {
    if schedule == [] then s else StepInv(s, schedule[0]); After(Step(s, schedule[0]), schedule[1..])
  }

  /** What no step takes back: the tasks' scripts, and the states settled so far. */
  ghost predicate Since<S(!new)>(s: State<S>, t: State<S>) {
    && |t.tasks| == |s.tasks| && s.settled <= t.settled
    && forall i :: 0 <= i < |s.tasks| ==>
         && (t.tasks[i].Writer? <==> s.tasks[i].Writer?)
         && (s.tasks[i].Writer? ==> t.tasks[i].script == s.tasks[i].script)
  }

  lemma StepSince<S(!new)>(s: State<S>, i: nat)
    requires Inv(s) && CanStep(s, i)
    requires s.tasks[i].Reader? && s.tasks[i].phase.Inside? ==> s.lock.readers > 0
    ensures Since(s, Step(s, i))
  {
  }

  /** Along every schedule each read sees one single state of the stores, the one they were in at the start or
      after some commit and never one in the middle of a commit; commit after commit those states follow one
      another by whole scripts; and no schedule goes on forever. */
  lemma {:induction false} ReadsAreAtomic<S(!new)>(s: State<S>, schedule: seq<nat>)
    requires Inv(s) && Schedulable(s, schedule)
    ensures Inv(After(s, schedule))
    ensures Logged(After(s, schedule)) && Since(s, After(s, schedule))
    ensures forall i :: 0 <= i < |After(s, schedule).tasks| && After(s, schedule).tasks[i].Reader? ==>
      SeenSettled(After(s, schedule).tasks[i].seen, After(s, schedule).settled)
    ensures |schedule| + Fuel(After(s, schedule)) <= Fuel(s)
    decreases |schedule|
  {
    if schedule == [] {
      forall i | 0 <= i < |s.tasks| && s.tasks[i].Reader? ensures SeenSettled(s.tasks[i].seen, s.settled) {
        assert TaskOk(s, i);
      }
    } else {
      hide Inv, Step, Fuel;
      StepInv(s, schedule[0]);
      StepBurnsFuel(s, schedule[0]);
      StepSince(s, schedule[0]);
      ReadsAreAtomic(Step(s, schedule[0]), schedule[1..]);
    }
  }

  /** From a free lock, a schedule that cannot go on has finished every task. */
  lemma EveryoneFinishes<S(!new)>(s: State<S>, schedule: seq<nat>)
    requires Initial(s)
    ensures Inv(s)
    ensures Schedulable(s, schedule) && (forall i :: !CanStep(After(s, schedule), i)) ==> AllDone(After(s, schedule))
  {
    InitialInv(s);
    if Schedulable(s, schedule) && forall i :: !CanStep(After(s, schedule), i) {
      ReadsAreAtomic(s, schedule);
      var t := After(s, schedule);
      forall w: nat | w < |t.tasks| ensures t.tasks[w].phase.Done? {
        if !t.tasks[w].phase.Done? {
          var i := NoDeadlock(t, w);
        }
      }
    }
  }
}
