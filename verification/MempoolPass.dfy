/** Mempool refresh passes, flushes and rollbacks beside a node that mines. */
module MempoolPass {
  import opened Chain
  import opened Ledger
  import opened SpentOnce
  import opened MempoolStore
  import opened MempoolCommits
  import opened AddressReads
  import opened ConfirmingSpends

  /** Where one refresh pass stands; any but `Idle` holds the mempool busy. */
  datatype Pass =
    | Idle
    | Listed(listing: set<Txid>)                          // the node's mempool listing is read, its tip is not
    | Decided(listing: set<Txid>, mayDelete: bool)        // the tips are compared, the store is not yet pruned
    | Fetching(absent: set<Txid>)                         // what is listed but not held is being staged

  /** The node's chain and mempool, the tracker's two stores, and its refresh pass. */
  datatype World = World(node: seq<Block>, pool: set<Txid>, stores: Stores, pass: Pass)

  datatype Act =
    | Mine(block: Block, pool: set<Txid>)                 // the node extends its chain and clears its mempool
    | Reorg(to: seq<Block>, pool: set<Txid>)              // the node moves to another chain
    | Relay(pool: set<Txid>)                              // transactions come, are replaced or are evicted
    | ReadListing
    | ReadTips(ok: bool)                                  // a failed read decides against deleting
    | PruneStore
    | StageBatch(txs: seq<Tx>)
    | EndPass
    | FlushBatch(blocks: seq<Block>)
    | RollBackTip

  /** What hashes name: a txid its transaction, a block hash its block. */
  datatype Names = Names(tx: Txid -> Tx, block: BlockHash -> Block)

  /** The committed tip is the node's tip, by height and by hash. */
  predicate TipsAgree(node: seq<Block>, chain: seq<Block>) {
    chain != [] && |node| == |chain| && node[|node| - 1].hash == chain[|chain| - 1].hash
  }

  /** A node's chain is valid and its mempool holds nothing its chain has. */
  ghost predicate NodeOk(names: Names, node: seq<Block>, pool: set<Txid>) {
    && ValidChain(node) && Named(names.tx, node) && BlocksNamed(names, node)
    && pool !! TxidsOf(node)
  }

  ghost predicate BlocksNamed(names: Names, c: seq<Block>) {
    forall i :: 0 <= i < |c| ==> names.block(c[i].hash) == c[i]
  }

  /** The listing's transactions that are still to be fetched, or will be. */
  function Wanted(pass: Pass): set<Txid> {
    match pass
    case Idle => {}
    case Listed(listing) => listing
    case Decided(listing, _) => listing
    case Fetching(absent) => absent
  }

  ghost predicate Enabled(names: Names, w: World, a: Act) {
    match a
    case Mine(block, pool) => NodeOk(names, w.node + [block], pool)
    case Reorg(to, pool) => NodeOk(names, to, pool)
    case Relay(pool) => NodeOk(names, w.node, pool)
    case ReadListing => w.pass.Idle?
    case ReadTips(_) => w.pass.Listed?
    case PruneStore => w.pass.Decided?
    case StageBatch(txs) =>
      w.pass.Fetching? && forall tx :: tx in txs ==> tx.txid in w.pass.absent && names.tx(tx.txid) == tx
    case EndPass => !w.pass.Idle?
    // A flush with transactions to clean up waits for the pass to end.
    case FlushBatch(blocks) =>
      && (TxidsOf(blocks) != {} ==> w.pass.Idle?)
      && ValidChain(w.stores.chain + blocks) && Named(names.tx, blocks) && BlocksNamed(names, blocks)
    case RollBackTip => w.stores.chain != []
  }

  /** The commit an act makes to the stores, if it makes one. */
  function CommitOf(w: World, a: Act): Option<Commit> {
    match a
    case PruneStore => if w.pass.Decided? then Some(Prune(w.pass.listing, w.pass.mayDelete)) else None
    case StageBatch(txs) => Some(Batch(txs))
    case FlushBatch(blocks) => Some(Flush(blocks))
    case RollBackTip => Some(RollBack)
    case _ => None
  }

  function NextPass(w: World, a: Act): Pass {
    match a
    case ReadListing => Listed(w.pool)
    case ReadTips(ok) => Decided(Wanted(w.pass), ok && TipsAgree(w.node, w.stores.chain))
    case PruneStore => Fetching(Wanted(w.pass) - w.stores.mempool.txs)
    case EndPass => Idle
    case _ => w.pass
  }

  function Next(w: World, a: Act): World {
    var c := CommitOf(w, a);
    World(match a case Mine(b, _) => w.node + [b] case Reorg(to, _) => to case _ => w.node,
          match a case Mine(_, pool) => pool case Reorg(_, pool) => pool case Relay(pool) => pool case _ => w.pool,
          if c.Some? then Apply(w.stores, c.value) else w.stores,
          NextPass(w, a))
  }

  ghost predicate WorldOk(names: Names, w: World) {
    && NodeOk(names, w.node, w.pool)
    && Sound(names.tx, w.stores) && BlocksNamed(names, w.stores.chain)
  }

  lemma NextOk(names: Names, w: World, a: Act)
    requires WorldOk(names, w) && Enabled(names, w, a)
    ensures WorldOk(names, Next(w, a))
    ensures CommitOf(w, a).Some? ==> Legal(names.tx, w.stores, CommitOf(w, a).value)
  {
    hide NodeOk, Sound, ValidChain, Named, TxidsOf;
    var c := CommitOf(w, a);
    if c.Some? {
      ApplySound(names.tx, w.stores, c.value);
    }
  }

  // ----- the acts are what the stores' own methods do

  /** The prune of a pass that has decided. */
  method PruneMempoolStore(db: MempoolDb, listing: seq<Txid>, mayDelete: bool, ghost w: World) returns (absent: seq<Txid>)
    requires w.pass == Decided(Elems(listing), mayDelete) && Distinct(listing) && w.stores.mempool == db.Value()
    modifies db
    ensures db.Value() == Next(w, PruneStore).stores.mempool && Next(w, PruneStore).pass == Fetching(Elems(absent))
  {
    hide DropSet, Elems, Distinct;
    absent := DeleteAndCompareTxsNotInList(db, listing, !mayDelete);
  }

  /** A fetched batch of what the pass still wants: it stages every transaction that has an input or an output,
      or the pass fails and the store is as it was. */
  method StageFetched(db: MempoolDb, fetched: seq<Option<Tx>>, txids: seq<Txid>, ghost names: Names, ghost w: World)
    returns (ok: bool)
    requires |fetched| == |txids| && w.pass.Fetching? && Elems(txids) <= w.pass.absent && w.stores.mempool == db.Value()
    requires forall i :: 0 <= i < |fetched| && fetched[i].Some? ==> names.tx(fetched[i].value.txid) == fetched[i].value
    modifies db
    ensures ok <==> !Misnamed(fetched, txids)
    ensures ok ==>
      && Enabled(names, w, StageBatch(ToStage(fetched)))
      && db.Value() == Next(w, StageBatch(ToStage(fetched))).stores.mempool && BatchStaged(db.Value(), fetched, txids)
    ensures !ok ==> db.Value() == w.stores.mempool
  {
    hide Misnamed, BatchStaged, StageAll, StageTx, ToStage;
    BatchListed(fetched, txids, names);
    ok := StageMempoolBatch(db, fetched, txids);
  }

  lemma BatchListed(fetched: seq<Option<Tx>>, txids: seq<Txid>, names: Names)
    requires |fetched| == |txids|
    requires forall i :: 0 <= i < |fetched| && fetched[i].Some? ==> names.tx(fetched[i].value.txid) == fetched[i].value
    ensures forall tx :: tx in ToStage(fetched) ==> names.tx(tx.txid) == tx
    ensures !Misnamed(fetched, txids) ==> forall tx :: tx in ToStage(fetched) ==> tx.txid in Elems(txids)
  {
    hide Misnamed;
    BatchDone(EMPTY, fetched, txids);
    ToStageFetched(fetched);
    if !Misnamed(fetched, txids) {
      ToStageListed(fetched, txids);
    }
  }

  lemma {:induction false} ToStageFetched(fetched: seq<Option<Tx>>)
    ensures forall tx :: tx in ToStage(fetched) ==> Some(tx) in fetched
  {
    if fetched != [] {
      ToStageFetched(fetched[..|fetched| - 1]);
    }
  }

  /** A flush's cleanup of the transactions its blocks mined. */
  method CleanUpMined(db: MempoolDb, blocks: seq<Block>, txids: seq<Txid>, ghost w: World)
    requires Elems(txids) == TxidsOf(blocks) && w.stores.mempool == db.Value()
    modifies db
    ensures db.Value() == Next(w, FlushBatch(blocks)).stores.mempool
  {
    DropMined(db, txids);
  }

  // ----- a tip names its chain

  lemma {:induction false} SameTipSameChain(names: Names, a: seq<Block>, b: seq<Block>)
    requires ValidChain(a) && ValidChain(b) && BlocksNamed(names, a) && BlocksNamed(names, b)
    requires |a| == |b| && (a != [] ==> a[|a| - 1].hash == b[|b| - 1].hash)
    ensures a == b
  {
    hide ValidChain;
    if a != [] {
      var n := |a| - 1;
      assert a[n] == b[n];
      LastValid(a);
      LastValid(b);
      SameTipSameChain(names, a[..n], b[..n]);
      assert a == a[..n] + [a[n]] && b == b[..n] + [b[n]];
    }
  }

  // ----- one held spend

  /** What the node and the rollbacks owe the transaction `t`, which spends `op`: the node keeps it listed until
      it mines it, lists no other spender, and does not unmine it or the transaction that pays it; the tracker's
      blocks are the node's in this, and it does not roll back the one that has `t`. */
  ghost predicate Kept(names: Names, w: World, a: Act, t: Txid, op: Outpoint) {
    var w' := Next(w, a);
    && (t in w'.pool || t in TxidsOf(w'.node))
    && (forall u :: u in w'.pool && op in TxSpends(names.tx(u)) ==> u == t)
    && (forall x :: x in {t, op.txid} && x in TxidsOf(w.node) ==> x in TxidsOf(w'.node))
    && (a.FlushBatch? ==> forall x :: x in {t, op.txid} && x in TxidsOf(a.blocks) ==> x in TxidsOf(w.node))
    && (a.RollBackTip? && t in TxidsOf(w.stores.chain) ==> t in TxidsOf(w'.stores.chain))
  }

  /** The transaction is in the node's mempool or chain, and it is the only spender of `op` in sight. */
  ghost predicate Sole(names: Names, w: World, t: Txid, op: Outpoint) {
    && op in TxSpends(names.tx(t)) && (t in w.pool || t in TxidsOf(w.node))
    && forall u :: u in w.pool + Wanted(w.pass) + w.stores.mempool.txs && op in TxSpends(names.tx(u)) ==> u == t
  }

  /** What is committed is mined, and what is committed is neither pending nor about to be. */
  ghost predicate Settled(w: World, t: Txid, op: Outpoint) {
    && (forall x :: x in {t, op.txid} && x in TxidsOf(w.stores.chain) ==> x in TxidsOf(w.node) && x !in Wanted(w.pass))
    && (op.txid in TxidsOf(w.stores.chain) ==> op !in w.stores.mempool.outputs)
  }

  /** The pass under way cannot drop the transaction before its block is committed. */
  ghost predicate PassSpares(w: World, t: Txid) {
    && (w.pass.Listed? ==> t in w.pass.listing || t in TxidsOf(w.node))
    && (w.pass.Decided? && w.pass.mayDelete ==> t in w.pass.listing || t in TxidsOf(w.stores.chain))
  }

  /** Held and marked, or committed. */
  ghost predicate Carried(w: World, t: Txid, op: Outpoint) {
    (t in w.stores.mempool.txs && op in w.stores.mempool.inputs) || t in TxidsOf(w.stores.chain)
  }

  ghost predicate Following(names: Names, w: World, t: Txid, op: Outpoint) {
    Sole(names, w, t, op) && Settled(w, t, op) && PassSpares(w, t) && Carried(w, t, op)
  }

  lemma FollowingGuarded(names: Names, w: World, t: Txid, op: Outpoint)
    requires WorldOk(names, w) && Following(names, w, t, op)
    ensures Guarded(w.stores, op) && !Servable(w.stores, op)
  {
    hide ValidChain, Named, MempoolSound, TxSpends, TxidsOf, SpentIn;
    if t in TxidsOf(w.stores.chain) {
      MinedSpends(names.tx, w.stores.chain, t, op);
      SpentGone(w.stores.chain, op);
    }
    GuardedIffUnserved(names.tx, w.stores, op);
  }

  lemma NextSole(names: Names, w: World, a: Act, t: Txid, op: Outpoint)
    requires WorldOk(names, w) && Enabled(names, w, a) && Sole(names, w, t, op) && Kept(names, w, a, t, op)
    ensures Sole(names, Next(w, a), t, op)
  {
    hide WorldOk, TxSpends, TxidsOf, StageAll, Replay, ValidChain, Named, BlocksNamed;
    if a.StageBatch? {
      StageAllMarks(w.stores.mempool, a.txs, op);
    }
  }

  lemma StagedCreator(txs: seq<Tx>, op: Outpoint)
    requires StagesOutput(txs, op)
    ensures exists tx :: tx in txs && tx.txid == op.txid
  {
  }

  lemma NextSettled(names: Names, w: World, a: Act, t: Txid, op: Outpoint)
    requires WorldOk(names, w) && Enabled(names, w, a) && Kept(names, w, a, t, op)
    requires Sole(names, w, t, op) && Settled(w, t, op)
    ensures Settled(Next(w, a), t, op)
  {
    hide TxSpends, TxidsOf, StageAll, ValidChain, Named, BlocksNamed, MempoolSound, Spender, OutsOf;
    match a
    case StageBatch(txs) =>
      StageAllMarks(w.stores.mempool, txs, op);
      if StagesOutput(txs, op) {
        StagedCreator(txs, op);
      }
    case FlushBatch(blocks) =>
      DropSetMarks(names.tx, w.stores.mempool, TxidsOf(blocks), op);
      TxidsJoin(w.stores.chain, blocks);
    case PruneStore =>
    case RollBackTip =>
      var chain, n := w.stores.chain, |w.stores.chain| - 1;
      assert chain == chain[..n] + chain[n..];
      TxidsJoin(chain[..n], chain[n..]);
    case ReadListing =>
    case _ =>
  }

  lemma NextPassSpares(names: Names, w: World, a: Act, t: Txid, op: Outpoint)
    requires WorldOk(names, w) && Enabled(names, w, a) && Kept(names, w, a, t, op)
    requires Sole(names, w, t, op) && PassSpares(w, t)
    ensures PassSpares(Next(w, a), t)
  {
    hide TxSpends, TxidsOf, StageAll, ValidChain, Named, Reflects, OutputsNamed, DropSet;
    match a
    case ReadTips(ok) =>
      if ok && TipsAgree(w.node, w.stores.chain) {
        SameTipSameChain(names, w.node, w.stores.chain);
      }
    case FlushBatch(blocks) =>
      TxidsJoin(w.stores.chain, blocks);
    case _ =>
  }

  lemma NextCarried(names: Names, w: World, a: Act, t: Txid, op: Outpoint)
    requires WorldOk(names, w) && Enabled(names, w, a) && Kept(names, w, a, t, op)
    requires Following(names, w, t, op)
    ensures Carried(Next(w, a), t, op)
  {
    hide TxSpends, TxidsOf, StageAll, ValidChain, Named, BlocksNamed, MempoolSound;
    match a
    case StageBatch(txs) =>
      StageAllMarks(w.stores.mempool, txs, op);
    case FlushBatch(blocks) =>
      DropSetMarks(names.tx, w.stores.mempool, TxidsOf(blocks), op);
      TxidsJoin(w.stores.chain, blocks);
    case PruneStore =>
      DropSetMarks(names.tx, w.stores.mempool, Gone(w.stores, CommitOf(w, a).value), op);
    case _ =>
  }

  /** While the node keeps the transaction, every act leaves what it spends guarded. */
  lemma NextFollowing(names: Names, w: World, a: Act, t: Txid, op: Outpoint)
    requires WorldOk(names, w) && Enabled(names, w, a) && Following(names, w, t, op) && Kept(names, w, a, t, op)
    ensures Following(names, Next(w, a), t, op)
  {
    hide WorldOk, Enabled, Kept, Sole, Settled, PassSpares, Carried, Next;
    NextSole(names, w, a, t, op);
    NextSettled(names, w, a, t, op);
    NextPassSpares(names, w, a, t, op);
    NextCarried(names, w, a, t, op);
  }

  // ----- whole runs

  function After(w: World, acts: seq<Act>): World {
    if acts == [] then w else Next(After(w, acts[..|acts| - 1]), acts[|acts| - 1])
  }

  ghost predicate EnabledRun(names: Names, w: World, acts: seq<Act>) {
    forall k: nat :: k < |acts| ==> Enabled(names, After(w, acts[..k]), acts[k])
  }

  ghost predicate KeptRun(names: Names, w: World, acts: seq<Act>, t: Txid, op: Outpoint) {
    forall k: nat :: k < |acts| ==> Kept(names, After(w, acts[..k]), acts[k], t, op)
  }

  lemma AfterStep(w: World, acts: seq<Act>, k: nat)
    requires k < |acts|
    ensures After(w, acts[..k + 1]) == Next(After(w, acts[..k]), acts[k])
  {
    hide Next;
    assert acts[..k + 1][..k] == acts[..k];
  }

  lemma {:induction false} FollowingRun(names: Names, w: World, acts: seq<Act>, t: Txid, op: Outpoint, k: nat)
    requires WorldOk(names, w) && EnabledRun(names, w, acts) && k <= |acts|
    requires Following(names, w, t, op) && KeptRun(names, w, acts, t, op)
    ensures WorldOk(names, After(w, acts[..k])) && Following(names, After(w, acts[..k]), t, op)
  {
    hide WorldOk, Following, Enabled, Kept, Next;
    if k > 0 {
      FollowingRun(names, w, acts, t, op, k - 1);
      AfterStep(w, acts, k - 1);
      NextOk(names, After(w, acts[..k - 1]), acts[k - 1]);
      NextFollowing(names, After(w, acts[..k - 1]), acts[k - 1], t, op);
    }
  }

  /** An outpoint spent by a held transaction is never served while the node keeps that transaction, whatever
      else it mines, relays or reorganizes, and whenever passes and flushes come: not before the transaction is
      mined, not while its block waits to be committed, not after. */
  lemma HeldSpendNeverServed(names: Names, w: World, acts: seq<Act>, t: Txid, op: Outpoint, k: nat, policy: Policy)
    requires WorldOk(names, w) && w.pass.Idle? && EnabledRun(names, w, acts) && k <= |acts|
    requires t in w.stores.mempool.txs && op in w.stores.mempool.inputs
    requires Sole(names, w, t, op) && Settled(w, t, op) && KeptRun(names, w, acts, t, op)
    ensures var p := PairOf(After(w, acts[..k]).stores);
      !ServesConfirmed(p, policy, op) && !ServesPending(p, op)
  {
    hide WorldOk, EnabledRun, KeptRun, Sole, Settled, After, Servable;
    FollowingRun(names, w, acts, t, op, k);
    FollowingGuarded(names, After(w, acts[..k]), t, op);
    ServedIffServable(After(w, acts[..k]).stores, policy, op);
  }

  // ----- the commits a run makes

  function Commits(w: World, acts: seq<Act>): seq<Commit> {
    if acts == [] then []
    else
      var c := CommitOf(After(w, acts[..|acts| - 1]), acts[|acts| - 1]);
      Commits(w, acts[..|acts| - 1]) + (if c.Some? then [c.value] else [])
  }

  /** The stores of a run are those its commits make, each legal where it comes. */
  lemma {:induction false} CommitsRun(names: Names, w: World, acts: seq<Act>)
    requires WorldOk(names, w) && EnabledRun(names, w, acts)
    ensures WorldOk(names, After(w, acts))
    ensures After(w, acts).stores == RunOf(w.stores, Commits(w, acts))
    ensures LegalRun(names.tx, w.stores, Commits(w, acts))
  {
    hide WorldOk, Enabled, Legal, CommitOf, NextPass, Apply;
    if acts != [] {
      var init, a := acts[..|acts| - 1], acts[|acts| - 1];
      EnabledBefore(names, w, acts);
      CommitsRun(names, w, init);
      NextOk(names, After(w, init), a);
      var c := CommitOf(After(w, init), a);
      if c.Some? {
        LegalOn(names.tx, w.stores, Commits(w, init), c.value);
      } else {
        assert Commits(w, acts) == Commits(w, init);
      }
    }
  }

  lemma EnabledBefore(names: Names, w: World, acts: seq<Act>)
    requires EnabledRun(names, w, acts) && acts != []
    ensures EnabledRun(names, w, acts[..|acts| - 1])
    ensures Enabled(names, After(w, acts[..|acts| - 1]), acts[|acts| - 1])
  {
    hide Enabled, After;
    var init := acts[..|acts| - 1];
    forall k: nat | k < |init| ensures Enabled(names, After(w, init[..k]), init[k]) {
      assert init[..k] == acts[..k];
    }
  }

  lemma LegalOn(book: Txid -> Tx, s: Stores, cs: seq<Commit>, c: Commit)
    requires LegalRun(book, s, cs) && Legal(book, RunOf(s, cs), c)
    ensures LegalRun(book, s, cs + [c]) && RunOf(s, cs + [c]) == Apply(RunOf(s, cs), c)
  {
    hide Legal, Apply;
    var all := cs + [c];
    assert all[..|cs|] == cs;
    forall k: nat | k < |all| ensures Legal(book, RunOf(s, all[..k]), all[k]) {
      if k < |cs| {
        assert all[..k] == cs[..k];
      }
    }
  }

  /** Every boundary between its commits is a state of the run. */
  lemma {:induction false} BoundaryReached(w: World, acts: seq<Act>, k: nat) returns (n: nat)
    requires k <= |Commits(w, acts)|
    ensures n <= |acts| && Commits(w, acts[..n]) == Commits(w, acts)[..k]
  {
    hide CommitOf, After;
    if k == |Commits(w, acts)| {
      n := |acts|;
      assert acts[..n] == acts;
    } else {
      var init := acts[..|acts| - 1];
      n := BoundaryReached(w, init, k);
      assert acts[..n] == init[..n];
      assert Commits(w, acts)[..k] == Commits(w, init)[..k];
    }
  }

  // ----- runs in which the node does not keep it

  /** A pass that may not delete, as off tip or after a failed tip read, staging these transactions. */
  function KeepingPass(txs: seq<Tx>): seq<Act> {
    [ReadListing, ReadTips(false), PruneStore, StageBatch(txs), EndPass]
  }

  /** A pass at tip, as far as its prune. */
  function DeletingPrune(): seq<Act> {
    [ReadListing, ReadTips(true), PruneStore]
  }

  /** The run goes on by its next act. */
  lemma RunsOn(names: Names, w: World, acts: seq<Act>, k: nat)
    requires k < |acts| && EnabledRun(names, w, acts[..k]) && Enabled(names, After(w, acts[..k]), acts[k])
    ensures EnabledRun(names, w, acts[..k + 1])
    ensures After(w, acts[..k + 1]) == Next(After(w, acts[..k]), acts[k])
  {
    hide Enabled, Next;
    AfterStep(w, acts, k);
    var all := acts[..k + 1];
    forall j: nat | j <= k ensures Enabled(names, After(w, all[..j]), all[j]) {
      assert all[..j] == acts[..j];
      if j < k {
        assert acts[..k][..j] == acts[..j];
      }
    }
  }

  lemma NoActs(names: Names, w: World, acts: seq<Act>)
    ensures EnabledRun(names, w, acts[..0]) && After(w, acts[..0]) == w
  {
  }

  lemma KeepingPassRuns(names: Names, w: World, txs: seq<Tx>)
    requires w.pass.Idle?
    requires forall tx :: tx in txs ==> tx.txid in w.pool - w.stores.mempool.txs && names.tx(tx.txid) == tx
    ensures EnabledRun(names, w, KeepingPass(txs))
    ensures After(w, KeepingPass(txs)) == w.(stores := Apply(w.stores, Batch(txs)))
  {
    hide DropSet, StageAll, TipsAgree, NodeOk, EnabledRun, After;
    DropNone(w.stores.mempool);
    var acts := KeepingPass(txs);
    NoActs(names, w, acts);
    RunsOn(names, w, acts, 0);
    RunsOn(names, w, acts, 1);
    RunsOn(names, w, acts, 2);
    RunsOn(names, w, acts, 3);
    RunsOn(names, w, acts, 4);
    assert acts[..5] == acts;
  }

  lemma DeletingPruneRuns(names: Names, w: World)
    requires w.pass.Idle? && TipsAgree(w.node, w.stores.chain)
    ensures EnabledRun(names, w, DeletingPrune())
    ensures After(w, DeletingPrune()).stores == Apply(w.stores, Prune(w.pool, true))
  {
    hide DropSet, TipsAgree, NodeOk, EnabledRun, After;
    var acts := DeletingPrune();
    NoActs(names, w, acts);
    RunsOn(names, w, acts, 0);
    RunsOn(names, w, acts, 1);
    RunsOn(names, w, acts, 2);
    assert acts[..3] == acts;
  }

  lemma {:induction false} AfterJoin(w: World, a: seq<Act>, b: seq<Act>)
    ensures After(w, a + b) == After(After(w, a), b)
  {
    hide Next;
    if b == [] {
      assert a + b == a;
    } else {
      AfterJoin(w, a, b[..|b| - 1]);
      assert (a + b)[..|a + b| - 1] == a + b[..|b| - 1];
    }
  }

  lemma RunsJoin(names: Names, w: World, a: seq<Act>, b: seq<Act>)
    requires EnabledRun(names, w, a) && EnabledRun(names, After(w, a), b)
    ensures EnabledRun(names, w, a + b) && After(w, a + b) == After(After(w, a), b)
  {
    hide Enabled, Next, After;
    AfterJoin(w, a, b);
    forall k: nat | k < |a + b| ensures Enabled(names, After(w, (a + b)[..k]), (a + b)[k]) {
      if k < |a| {
        assert (a + b)[..k] == a[..k];
      } else {
        assert (a + b)[..k] == a + b[..k - |a|];
        AfterJoin(w, a, b[..k - |a|]);
      }
    }
  }

  /** A replacement that a pass stages beside the transaction it replaces, because that pass may not delete, is
      left unmarked when the next pass drops the replaced one: the replacement is held, the node lists it, and
      what it spends is served until its block is committed. */
  lemma ReplacementServed(names: Names, w: World, t: Txid, u: Tx, op: Outpoint)
    requires WorldOk(names, w) && w.pass.Idle? && TipsAgree(w.node, w.stores.chain)
    requires w.stores.mempool.txs == {t} && w.pool == {u.txid} && u.txid != t && names.tx(u.txid) == u
    requires op in TxSpends(names.tx(t)) && op in TxSpends(u) && op in Replay(w.stores.chain)
    ensures var acts := KeepingPass([u]) + DeletingPrune();
      && EnabledRun(names, w, acts)
      && After(w, acts).stores.mempool.txs == {u.txid}
      && Servable(After(w, acts).stores, op)
  {
    hide NodeOk, EnabledRun, After, TxSpends, Replay, Sound, DropSet, StageAll;
    KeepingPassRuns(names, w, [u]);
    var v := After(w, KeepingPass([u]));
    DeletingPruneRuns(names, v);
    RunsJoin(names, w, KeepingPass([u]), DeletingPrune());
    ReplacementDropped(names, w.stores, t, u, op);
  }

  lemma ReplacementDropped(names: Names, s: Stores, t: Txid, u: Tx, op: Outpoint)
    requires Sound(names.tx, s) && s.mempool.txs == {t} && u.txid != t && names.tx(u.txid) == u
    requires op in TxSpends(names.tx(t)) && op in TxSpends(u)
    ensures var s' := Apply(Apply(s, Batch([u])), Prune({u.txid}, true));
      s'.chain == s.chain && s'.mempool.txs == {u.txid} && op !in s'.mempool.inputs
  {
    hide TxSpends, ValidChain, Named, MempoolSound, StageAll;
    var s1 := Apply(s, Batch([u]));
    ApplySound(names.tx, s, Batch([u]));
    StageAllMarks(s.mempool, [u], op);
    assert s1.mempool.txs == {t, u.txid};
    DropSetMarks(names.tx, s1.mempool, {t}, op);
    assert s1.mempool.txs - {u.txid} == {t};
  }

  /** A block mined before the listing and unmined before the tips are read makes the pass drop a transaction
      that the node lists again: what it spends is served until the next pass stages it. */
  lemma UnminedServed(names: Names, w: World, b: Block, pool: set<Txid>, t: Txid, op: Outpoint)
    requires WorldOk(names, w) && w.pass.Idle? && TipsAgree(w.node, w.stores.chain)
    requires NodeOk(names, w.node + [b], pool) && t in TxidsOf([b])
    requires t in w.pool && t in w.stores.mempool.txs && op in TxSpends(names.tx(t)) && op in Replay(w.stores.chain)
    ensures var acts := [Mine(b, pool), ReadListing, Reorg(w.node, w.pool), ReadTips(true), PruneStore];
      && EnabledRun(names, w, acts)
      && t in After(w, acts).pool && Servable(After(w, acts).stores, op)
  {
    hide NodeOk, DropSet, TipsAgree, EnabledRun, After, TxSpends, Replay, TxidsOf, Named, ValidChain;
    Unlisted(names, w.node, b, pool, t);
    var acts := [Mine(b, pool), ReadListing, Reorg(w.node, w.pool), ReadTips(true), PruneStore];
    NoActs(names, w, acts);
    RunsOn(names, w, acts, 0);
    RunsOn(names, w, acts, 1);
    RunsOn(names, w, acts, 2);
    RunsOn(names, w, acts, 3);
    RunsOn(names, w, acts, 4);
    assert acts[..5] == acts;
    DropSetMarks(names.tx, w.stores.mempool, w.stores.mempool.txs - pool, op);
  }

  lemma Unlisted(names: Names, node: seq<Block>, b: Block, pool: set<Txid>, t: Txid)
    requires NodeOk(names, node + [b], pool) && t in TxidsOf([b])
    ensures t !in pool
  {
    hide TxidsOf, ValidChain, Named;
    TxidsJoin(node, [b]);
  }
}
