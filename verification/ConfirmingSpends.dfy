/** When an outpoint that a held transaction spends is served, over any run of commits. */
module ConfirmingSpends {
  import opened Chain
  import opened Ledger
  import opened SpentOnce
  import opened MempoolStore
  import opened MempoolCommits
  import opened AddressReads

  /** The two stores: the committed chain, whose coins the confirmed one serves, and the mempool one. */
  datatype Stores = Stores(chain: seq<Block>, mempool: Mempool)

  datatype Commit =
    | Flush(blocks: seq<Block>)                           // commits a batch, then drops what it mined
    | RollBack                                            // undoes the last committed block
    | Prune(listing: set<Txid>, mayDelete: bool)          // drops what the node no longer lists, if it may
    | Batch(txs: seq<Tx>)                                 // stages newly listed transactions

  /** What a read of these stores sees. */
  function PairOf(s: Stores): Pair {
    Pair(Confirmed(Replay(s.chain), |s.chain| - 1,
                   if s.chain == [] then None else Some(s.chain[|s.chain| - 1].hash)), s.mempool)
  }

  /** The transactions whose records a commit drops, where the mempool store has them. */
  function Gone(s: Stores, c: Commit): set<Txid> {
    match c
    case Flush(blocks) => TxidsOf(blocks)
    case Prune(listing, mayDelete) => if mayDelete then s.mempool.txs - listing else {}
    case _ => {}
  }

  function Apply(s: Stores, c: Commit): Stores {
    match c
    case Flush(blocks) => Stores(s.chain + blocks, DropSet(s.mempool, TxidsOf(blocks)))
    case RollBack => s.(chain := if s.chain == [] then [] else s.chain[..|s.chain| - 1])
    case Prune(_, _) => s.(mempool := DropSet(s.mempool, Gone(s, c)))
    case Batch(txs) => s.(mempool := StageAll(s.mempool, txs))
  }

  // ----- what every run keeps

  /** The held transactions, each the one its txid names. */
  ghost function Held(book: Txid -> Tx, m: Mempool): map<Txid, Tx> {
    map t | t in m.txs :: book(t)
  }

  /** Every pending output is one of the transaction its txid names. */
  ghost predicate OutputsNamed(book: Txid -> Tx, m: Mempool) {
    forall op :: op in m.outputs ==> PaysAsNamed(book, op, m.outputs[op].script, m.outputs[op].value)
  }

  ghost predicate MempoolSound(book: Txid -> Tx, m: Mempool) {
    Reflects(m, Held(book, m)) && OutputsNamed(book, m)
  }

  ghost predicate Sound(book: Txid -> Tx, s: Stores) {
    ValidChain(s.chain) && Named(book, s.chain) && MempoolSound(book, s.mempool)
  }

  /** A flush goes on with a valid chain; nothing else is asked of any commit. */
  ghost predicate Legal(book: Txid -> Tx, s: Stores, c: Commit) {
    match c
    case Flush(blocks) => ValidChain(s.chain + blocks) && Named(book, blocks)
    case Batch(txs) => forall tx :: tx in txs ==> book(tx.txid) == tx
    case _ => true
  }

  lemma DropSetReflects(m: Mempool, held: map<Txid, Tx>, txids: set<Txid>)
    requires Reflects(m, held)
    ensures Reflects(DropSet(m, txids), held - txids)
  {
    var m', held' := DropSet(m, txids), held - txids;
    hide TxSpends;
    forall op ensures ReflectsAt(m', held', op) {
      assert ReflectsAt(m, held, op);
      if op in m'.inputs {
        assert (m.inputs[op], op) in m.hints;
        assert m.inputs[op] !in txids;
      }
    }
  }

  lemma DropSetSound(book: Txid -> Tx, m: Mempool, txids: set<Txid>)
    requires MempoolSound(book, m)
    ensures MempoolSound(book, DropSet(m, txids))
  {
    DropSetReflects(m, Held(book, m), txids);
    assert Held(book, m) - txids == Held(book, DropSet(m, txids));
    hide Reflects, PaysAsNamed;
  }

  lemma StageSound(book: Txid -> Tx, m: Mempool, tx: Tx)
    requires MempoolSound(book, m) && book(tx.txid) == tx
    ensures MempoolSound(book, StageTx(m, tx))
  {
    StageReflects(m, Held(book, m), tx);
    assert Held(book, m)[tx.txid := tx] == Held(book, StageTx(m, tx));
    hide Reflects;
  }

  lemma {:induction false} StageAllSound(book: Txid -> Tx, m: Mempool, txs: seq<Tx>)
    requires MempoolSound(book, m) && forall tx :: tx in txs ==> book(tx.txid) == tx
    ensures MempoolSound(book, StageAll(m, txs))
  {
    hide MempoolSound, StageTx;
    if txs != [] {
      StageAllSound(book, m, txs[..|txs| - 1]);
      StageSound(book, StageAll(m, txs[..|txs| - 1]), txs[|txs| - 1]);
    }
  }

  lemma ApplySound(book: Txid -> Tx, s: Stores, c: Commit)
    requires Sound(book, s) && Legal(book, s, c)
    ensures Sound(book, Apply(s, c))
  {
    hide MempoolSound, ValidChain, Named, DropSet, StageAll, TxidsOf;
    match c
    case Flush(blocks) =>
      DropSetSound(book, s.mempool, TxidsOf(blocks));
      NamedJoin(book, s.chain, blocks);
    case RollBack =>
      if s.chain != [] {
        var n := |s.chain| - 1;
        PrefixValid(s.chain, n);
        assert s.chain == s.chain[..n] + s.chain[n..];
        NamedJoin(book, s.chain[..n], s.chain[n..]);
      }
    case Prune(_, _) =>
      DropSetSound(book, s.mempool, Gone(s, c));
    case Batch(txs) =>
      StageAllSound(book, s.mempool, txs);
  }

  /** An outpoint in both stores pays the same script in both. */
  lemma SoundSameOutputs(book: Txid -> Tx, s: Stores)
    requires Sound(book, s)
    ensures SameOutputs(PairOf(s))
  {
    hide ValidChain, Replay, Reflects;
    var p := PairOf(s);
    forall op | op in p.confirmed.utxo && op in p.mempool.outputs
      ensures p.confirmed.utxo[op].script == p.mempool.outputs[op].script
    {
      ReplayNamed(book, s.chain, op);
    }
  }

  // ----- one commit and one outpoint

  /** One of the store's own transactions among `txids` spends the outpoint. */
  ghost predicate Spender(book: Txid -> Tx, m: Mempool, txids: set<Txid>, op: Outpoint) {
    exists t :: t in txids && t in m.txs && op in TxSpends(book(t))
  }

  ghost predicate StagesSpend(txs: seq<Tx>, op: Outpoint) {
    exists tx :: tx in txs && op in TxSpends(tx)
  }

  ghost predicate StagesOutput(txs: seq<Tx>, op: Outpoint) {
    exists tx :: tx in txs && op in OutsOf(tx)
  }

  lemma DropSetMarks(book: Txid -> Tx, m: Mempool, txids: set<Txid>, op: Outpoint)
    requires MempoolSound(book, m)
    ensures op in DropSet(m, txids).inputs <==> op in m.inputs && !Spender(book, m, txids, op)
    ensures op in DropSet(m, txids).outputs <==> op in m.outputs && op.txid !in txids
  {
    assert ReflectsAt(m, Held(book, m), op);
    hide TxSpends, PaysAsNamed;
  }

  lemma {:induction false} StageAllMarks(m: Mempool, txs: seq<Tx>, op: Outpoint)
    ensures op in StageAll(m, txs).inputs <==> op in m.inputs || StagesSpend(txs, op)
    ensures op in StageAll(m, txs).outputs <==> op in m.outputs || StagesOutput(txs, op)
    ensures forall t :: t in StageAll(m, txs).txs <==> t in m.txs || exists tx :: tx in txs && tx.txid == t
  {
    hide TxSpends, OutsOf;
    if txs != [] {
      var init, tx := txs[..|txs| - 1], txs[|txs| - 1];
      StageAllMarks(m, init, op);
      StagedSpends(StageAll(m, init), tx, op);
      assert txs == init + [tx];
      assert forall x :: x in txs <==> x in init || x == tx;
    }
  }

  /** A commit leaves an outpoint marked spent if and only if it was marked and no transaction dropped
      spends it, or a transaction staged does. */
  lemma MarkedAfterIff(book: Txid -> Tx, s: Stores, c: Commit, op: Outpoint)
    requires Sound(book, s)
    ensures op in Apply(s, c).mempool.inputs <==>
      (op in s.mempool.inputs && !Spender(book, s.mempool, Gone(s, c), op)) || (c.Batch? && StagesSpend(c.txs, op))
  {
    hide ValidChain, Named, MempoolSound, TxSpends, DropSet, StageAll, TxidsOf;
    match c
    case Flush(blocks) => DropSetMarks(book, s.mempool, TxidsOf(blocks), op);
    case RollBack =>
    case Prune(_, _) => DropSetMarks(book, s.mempool, Gone(s, c), op);
    case Batch(txs) => StageAllMarks(s.mempool, txs, op);
  }

  /** In one of the stores, and no mark: reads serve it, except that an immature or too recent coin waits. */
  predicate Servable(s: Stores, op: Outpoint) {
    (op in Replay(s.chain) || op in s.mempool.outputs) && op !in s.mempool.inputs
  }

  lemma ServedIffServable(s: Stores, policy: Policy, op: Outpoint)
    ensures ServesConfirmed(PairOf(s), policy, op) || ServesPending(PairOf(s), op) <==>
      Servable(s, op) && (op in Replay(s.chain) ==> Ripe(Replay(s.chain)[op], policy.tip, policy.coinbaseMaturity))
  {
  }

  /** Marked, or spent in the committed chain and not pending again. */
  predicate Guarded(s: Stores, op: Outpoint) {
    op in s.mempool.inputs || (SpentIn(s.chain, op) && op !in s.mempool.outputs)
  }

  /** The stores know of the outpoint: it is in one of them, or the committed chain spends it. */
  predicate Exists(s: Stores, op: Outpoint) {
    op in Replay(s.chain) || op in s.mempool.outputs || SpentIn(s.chain, op)
  }

  lemma GuardedIffUnserved(book: Txid -> Tx, s: Stores, op: Outpoint)
    requires Sound(book, s)
    ensures Guarded(s, op) ==> !Servable(s, op)
    ensures Exists(s, op) && !Servable(s, op) ==> Guarded(s, op)
  {
    hide ValidChain, Replay, SpentIn;
    if SpentIn(s.chain, op) {
      SpentGone(s.chain, op);
    }
  }

  /** What a commit must not do to an outpoint: drop a spender of it that the chain does not have by then, undo
      the block that spends it, or stage again an output the chain has spent. */
  ghost predicate Spares(book: Txid -> Tx, s: Stores, c: Commit, op: Outpoint) {
    match c
    case Flush(blocks) =>
      !Spender(book, s.mempool, TxidsOf(blocks), op) || op !in s.mempool.outputs || op.txid in TxidsOf(blocks)
    case Prune(_, _) =>
      !Spender(book, s.mempool, Gone(s, c), op)
      || (SpentIn(s.chain, op) && (op !in s.mempool.outputs || op.txid in Gone(s, c)))
    case RollBack =>
      s.chain == [] || op in s.mempool.inputs || !SpentIn([s.chain[|s.chain| - 1]], op)
    case Batch(txs) =>
      op in s.mempool.inputs || StagesSpend(txs, op) || !StagesOutput(txs, op)
  }

  /** The mined spender is in the chain from then on. */
  lemma FlushedSpend(book: Txid -> Tx, s: Stores, blocks: seq<Block>, op: Outpoint)
    requires Named(book, blocks) && Spender(book, s.mempool, TxidsOf(blocks), op)
    ensures SpentIn(s.chain + blocks, op)
  {
    hide TxidsOf, TxSpends;
    var t :| t in TxidsOf(blocks) && t in s.mempool.txs && op in TxSpends(book(t));
    MinedSpends(book, blocks, t, op);
    SpentJoin(s.chain, blocks, op);
  }

  lemma RolledBackSpend(chain: seq<Block>, op: Outpoint)
    requires ValidChain(chain) && chain != []
    ensures var n := |chain| - 1; SpentIn(chain, op) ==> (SpentIn(chain[..n], op) <==> !SpentIn([chain[n]], op))
  {
    hide ValidChain, SpentIn;
    var n := |chain| - 1;
    assert chain == chain[..n] + [chain[n]] && chain[n..] == [chain[n]];
    SpentJoin(chain[..n], [chain[n]], op);
    if SpentIn(chain[..n], op) {
      SpentOnOneSide(chain, n, op);
    }
  }

  /** A guarded outpoint stays guarded over a commit exactly when the commit spares it. */
  lemma GuardedAfterIff(book: Txid -> Tx, s: Stores, c: Commit, op: Outpoint)
    requires Sound(book, s) && Legal(book, s, c) && Guarded(s, op)
    ensures Guarded(Apply(s, c), op) <==> Spares(book, s, c, op)
  {
    hide ValidChain, Named, MempoolSound, TxSpends, DropSet, StageAll, TxidsOf, SpentIn, StagesSpend, StagesOutput, Spender;
    match c
    case Flush(blocks) =>
      DropSetMarks(book, s.mempool, TxidsOf(blocks), op);
      SpentJoin(s.chain, blocks, op);
      if Spender(book, s.mempool, TxidsOf(blocks), op) {
        FlushedSpend(book, s, blocks, op);
      }
    case RollBack =>
      if s.chain != [] {
        RolledBackSpend(s.chain, op);
      }
    case Prune(_, _) =>
      DropSetMarks(book, s.mempool, Gone(s, c), op);
    case Batch(txs) =>
      StageAllMarks(s.mempool, txs, op);
  }

  /** So no flush exposes an outpoint, unless the mempool store holds its creator though the chain has it too. */
  lemma FlushExposesNothing(book: Txid -> Tx, s: Stores, blocks: seq<Block>, op: Outpoint)
    requires Sound(book, s) && Legal(book, s, Flush(blocks)) && Guarded(s, op)
    requires op in s.mempool.outputs ==> op.txid !in TxidsOf(s.chain)
    ensures Guarded(Apply(s, Flush(blocks)), op) && !Servable(Apply(s, Flush(blocks)), op)
  {
    hide Sound, Servable, TxSpends, TxidsOf, SpentIn;
    ApplySound(book, s, Flush(blocks));
    if Spender(book, s.mempool, TxidsOf(blocks), op) {
      FlushedSpend(book, s, blocks, op);
      SpentGone(s.chain + blocks, op);
      TxidsJoin(s.chain, blocks);
    }
    GuardedAfterIff(book, s, Flush(blocks), op);
    GuardedIffUnserved(book, Apply(s, Flush(blocks)), op);
  }

  // ----- whole runs

  function RunOf(s: Stores, cs: seq<Commit>): Stores {
    if cs == [] then s else Apply(RunOf(s, cs[..|cs| - 1]), cs[|cs| - 1])
  }

  ghost predicate LegalRun(book: Txid -> Tx, s: Stores, cs: seq<Commit>) {
    forall k: nat :: k < |cs| ==> Legal(book, RunOf(s, cs[..k]), cs[k])
  }

  lemma RunStep(s: Stores, cs: seq<Commit>, k: nat)
    requires k < |cs|
    ensures RunOf(s, cs[..k + 1]) == Apply(RunOf(s, cs[..k]), cs[k])
  {
    hide Apply;
    assert cs[..k + 1][..k] == cs[..k];
  }

  lemma {:induction false} RunSound(book: Txid -> Tx, s: Stores, cs: seq<Commit>, k: nat)
    requires Sound(book, s) && LegalRun(book, s, cs) && k <= |cs|
    ensures Sound(book, RunOf(s, cs[..k]))
  {
    hide Sound, Legal, Apply;
    if k > 0 {
      RunSound(book, s, cs, k - 1);
      RunStep(s, cs, k - 1);
      ApplySound(book, RunOf(s, cs[..k - 1]), cs[k - 1]);
    }
  }

  ghost predicate SparesAll(book: Txid -> Tx, s: Stores, cs: seq<Commit>, op: Outpoint) {
    forall k: nat :: k < |cs| ==> Spares(book, RunOf(s, cs[..k]), cs[k], op)
  }

  /** Guarded at every boundary up to `n` if and only if every commit before spares it. */
  lemma {:induction false} GuardedRun(book: Txid -> Tx, s: Stores, cs: seq<Commit>, op: Outpoint, n: nat)
    requires Sound(book, s) && LegalRun(book, s, cs) && Guarded(s, op) && n <= |cs|
    ensures (forall k: nat :: k <= n ==> Guarded(RunOf(s, cs[..k]), op)) <==>
      (forall k: nat :: k < n ==> Spares(book, RunOf(s, cs[..k]), cs[k], op))
  {
    hide Sound, Legal, Apply, Guarded, Spares;
    if n == 0 {
      assert RunOf(s, cs[..0]) == s;
    } else {
      GuardedRun(book, s, cs, op, n - 1);
      if Guarded(RunOf(s, cs[..n - 1]), op) {
        RunSound(book, s, cs, n - 1);
        RunStep(s, cs, n - 1);
        GuardedAfterIff(book, RunOf(s, cs[..n - 1]), cs[n - 1], op);
      }
    }
  }

  /** Over a whole run, an outpoint that the stores know of and that starts out guarded is never served between
      two commits if and only if every commit of the run spares it. */
  lemma NeverServedIff(book: Txid -> Tx, s: Stores, cs: seq<Commit>, op: Outpoint)
    requires Sound(book, s) && LegalRun(book, s, cs) && Guarded(s, op)
    requires forall k: nat :: k <= |cs| ==> Exists(RunOf(s, cs[..k]), op)
    ensures (forall k: nat :: k <= |cs| ==> !Servable(RunOf(s, cs[..k]), op)) <==> SparesAll(book, s, cs, op)
  {
    hide Sound, Legal, Apply, Guarded, Servable, Exists, Spares, RunOf;
    forall k: nat | k <= |cs| ensures Guarded(RunOf(s, cs[..k]), op) <==> !Servable(RunOf(s, cs[..k]), op) {
      RunSound(book, s, cs, k);
      GuardedIffUnserved(book, RunOf(s, cs[..k]), op);
    }
    GuardedRun(book, s, cs, op, |cs|);
  }

  // ----- every held spend at once

  /** No transaction dropped shares a spend with one that stays. */
  ghost predicate DropsApart(book: Txid -> Tx, s: Stores, c: Commit) {
    var gone := Gone(s, c) * s.mempool.txs;
    forall t, u, op :: t in gone && u in s.mempool.txs - gone && op in TxSpends(book(t)) ==> op !in TxSpends(book(u))
  }

  ghost predicate AllMarked(book: Txid -> Tx, m: Mempool) {
    forall t, op :: t in m.txs && op in TxSpends(book(t)) ==> op in m.inputs
  }

  lemma DropSetMarked(book: Txid -> Tx, s: Stores, c: Commit)
    requires MempoolSound(book, s.mempool) && AllMarked(book, s.mempool)
    ensures AllMarked(book, DropSet(s.mempool, Gone(s, c))) <==> DropsApart(book, s, c)
  {
    hide MempoolSound, TxSpends, Gone;
    var m, m' := s.mempool, DropSet(s.mempool, Gone(s, c));
    forall u, op | u in m'.txs && op in TxSpends(book(u))
      ensures op in m'.inputs <==> !Spender(book, m, Gone(s, c), op)
    {
      DropSetMarks(book, m, Gone(s, c), op);
    }
    if AllMarked(book, m') {
      forall t, u, op | t in Gone(s, c) * m.txs && u in m.txs - Gone(s, c) * m.txs && op in TxSpends(book(t))
        ensures op !in TxSpends(book(u))
      {
        assert u in m'.txs && Spender(book, m, Gone(s, c), op);
      }
    }
  }

  lemma {:induction false} StageAllMarked(book: Txid -> Tx, m: Mempool, txs: seq<Tx>)
    requires AllMarked(book, m) && forall tx :: tx in txs ==> book(tx.txid) == tx
    ensures AllMarked(book, StageAll(m, txs))
  {
    hide TxSpends;
    if txs != [] {
      var init, tx := txs[..|txs| - 1], txs[|txs| - 1];
      StageAllMarked(book, m, init);
      forall t, op | t in StageAll(m, txs).txs && op in TxSpends(book(t)) ensures op in StageAll(m, txs).inputs {
        StagedSpends(StageAll(m, init), tx, op);
      }
    }
  }

  lemma DropNothing(book: Txid -> Tx, s: Stores, c: Commit)
    requires Gone(s, c) == {}
    ensures DropsApart(book, s, c)
  {
  }

  /** While every held spend is marked, a commit leaves them all marked if and only if it drops no
      transaction that shares a spend with one it keeps. */
  lemma AllMarkedAfterIff(book: Txid -> Tx, s: Stores, c: Commit)
    requires Sound(book, s) && Legal(book, s, c) && AllMarked(book, s.mempool)
    ensures AllMarked(book, Apply(s, c).mempool) <==> DropsApart(book, s, c)
  {
    hide ValidChain, Named, MempoolSound, AllMarked, DropsApart, TxidsOf, DropSet, StageAll;
    match c
    case Flush(_) => DropSetMarked(book, s, c);
    case Prune(_, _) => DropSetMarked(book, s, c);
    case RollBack => DropNothing(book, s, c);
    case Batch(txs) =>
      StageAllMarked(book, s.mempool, txs);
      DropNothing(book, s, c);
  }

  /** From a start with every held spend marked, as an empty mempool store is, they are all marked at every
      boundary if and only if no commit of the run drops a transaction that shares a spend with one it keeps. */
  lemma {:induction false} HeldSpendsMarkedIff(book: Txid -> Tx, s: Stores, cs: seq<Commit>, n: nat)
    requires Sound(book, s) && LegalRun(book, s, cs) && AllMarked(book, s.mempool) && n <= |cs|
    ensures (forall k: nat :: k <= n ==> AllMarked(book, RunOf(s, cs[..k]).mempool)) <==>
      (forall k: nat :: k < n ==> DropsApart(book, RunOf(s, cs[..k]), cs[k]))
  {
    hide Sound, Legal, Apply, AllMarked, DropsApart;
    if n == 0 {
      assert RunOf(s, cs[..0]) == s;
    } else {
      HeldSpendsMarkedIff(book, s, cs, n - 1);
      if AllMarked(book, RunOf(s, cs[..n - 1]).mempool) {
        RunSound(book, s, cs, n - 1);
        RunStep(s, cs, n - 1);
        AllMarkedAfterIff(book, RunOf(s, cs[..n - 1]), cs[n - 1]);
      }
    }
  }

  /** Then what a held transaction spends is not served. */
  lemma HeldSpendUnserved(book: Txid -> Tx, s: Stores, t: Txid, op: Outpoint, policy: Policy)
    requires AllMarked(book, s.mempool) && t in s.mempool.txs && op in TxSpends(book(t))
    ensures Guarded(s, op) && !ServesConfirmed(PairOf(s), policy, op) && !ServesPending(PairOf(s), op)
  {
    hide TxSpends;
  }

  // ----- where it fails

  /** Undoing the block that spends an outpoint serves it until its spender is staged again: the flush that
      committed the block dropped the mark. */
  lemma RolledBackServed(book: Txid -> Tx, s: Stores, b: Block, t: Txid, op: Outpoint)
    requires Sound(book, s) && Legal(book, s, Flush([b]))
    requires t in s.mempool.txs && t in TxidsOf([b]) && op in TxSpends(book(t))
    requires op in Replay(s.chain) && op !in s.mempool.outputs
    ensures !Servable(Apply(s, Flush([b])), op)
    ensures Apply(Apply(s, Flush([b])), RollBack).chain == s.chain
    ensures Servable(Apply(Apply(s, Flush([b])), RollBack), op)
  {
    hide ValidChain, Named, MempoolSound, TxSpends, TxidsOf, DropSet, Replay, SpentIn;
    DropSetMarks(book, s.mempool, TxidsOf([b]), op);
    FlushedSpend(book, s, [b], op);
    SpentGone(s.chain + [b], op);
    assert (s.chain + [b])[..|s.chain|] == s.chain;
  }

  /** Reading across a flush would serve it: the confirmed coins from before the commit with the mempool
      store from after the cleanup, which is the mix the lock rules out. */
  lemma MixedReadServes(book: Txid -> Tx, s: Stores, blocks: seq<Block>, t: Txid, op: Outpoint, policy: Policy)
    requires Sound(book, s) && Legal(book, s, Flush(blocks))
    requires t in s.mempool.txs && t in TxidsOf(blocks) && op in TxSpends(book(t))
    requires op in Replay(s.chain) && !Withheld(Replay(s.chain)[op], policy)
    ensures ServesConfirmed(Pair(PairOf(s).confirmed, Apply(s, Flush(blocks)).mempool), policy, op)
  {
    hide ValidChain, Named, MempoolSound, TxSpends, TxidsOf, DropSet, Replay, Withheld;
    DropSetMarks(book, s.mempool, TxidsOf(blocks), op);
  }
}
