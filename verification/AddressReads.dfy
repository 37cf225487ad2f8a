/** The two address queries: what they serve, page by page, and what it adds up to. */
module AddressReads {
  import opened Chain
  import opened Index
  import opened StreamingJoin
  import opened MempoolStore

  /** The committed snapshot: the coins, and the height and hash they are labelled with. */
  datatype Confirmed = Confirmed(utxo: map<Outpoint, Coin>, height: int, hash: Option<BlockHash>)

  /** What one read sees of both stores. */
  datatype Pair = Pair(confirmed: Confirmed, mempool: Mempool)

  /** One entry of the answer: a confirmed output has a height, a pending one has none. */
  datatype Entry = Entry(op: Outpoint, value: nat, height: Option<int>, confirmations: int)

  /** The node's tip as the tracker last read it, and the depth a coinbase output needs. */
  datatype Policy = Policy(tip: int, coinbaseMaturity: nat)

  datatype Result<T> = Ok(value: T) | AddressTooLarge

  // ----- scans

  predicate StrictlySorted(rows: seq<Outpoint>) {
    forall i, j :: 0 <= i < j < |rows| ==> CompareKeys(rows[i], rows[j]) < 0
  }

  /** The script's confirmed records in key order, as the store iterates them. */
  ghost predicate ConfirmedScan(rows: seq<Outpoint>, utxo: map<Outpoint, Coin>, script: ScriptHash) {
    StrictlySorted(rows) && forall op :: op in rows <==> op in utxo && utxo[op].script == script
  }

  /** The same for pending outputs. */
  ghost predicate PendingScan(rows: seq<Outpoint>, m: Mempool, script: ScriptHash) {
    StrictlySorted(rows) && forall op :: op in rows <==> op in m.outputs && m.outputs[op].script == script
  }

  /** How many rows a cursor has passed. */
  function Passed(rows: seq<Outpoint>, after: Option<Outpoint>): (k: nat)
    ensures k <= |rows|
  {
    if after.None? || rows == [] || CompareKeys(rows[0], after.value) > 0 then 0 else 1 + Passed(rows[1..], after)
  }

  /** They are the rows whose key is not behind the cursor. */
  lemma {:induction false} PassedSplits(rows: seq<Outpoint>, after: Outpoint, i: nat)
    requires StrictlySorted(rows) && i < |rows|
    ensures i < Passed(rows, Some(after)) <==> CompareKeys(rows[i], after) <= 0
  {
    if CompareKeys(rows[0], after) > 0 {
      if i > 0 {
        CompareTotal(after, rows[0]);
        CompareTrans(after, rows[0], rows[i]);
        CompareTotal(after, rows[i]);
      }
    } else if i > 0 {
      PassedSplits(rows[1..], after, i - 1);
    }
  }

  function Least(a: nat, b: nat): nat {
    if a <= b then a else b
  }

  /** One bounded page after the cursor, or every row up to the ceiling. */
  method GetOutputsScriptPubKey(rows: seq<Outpoint>, limit: Option<nat>, after: Option<Outpoint>, maxOutputs: nat)
    returns (r: Result<seq<Outpoint>>)
    ensures limit.Some? && limit.value > 0 ==>
      r == Ok(rows[Passed(rows, after)..Least(Passed(rows, after) + limit.value, |rows|)])
    ensures !(limit.Some? && limit.value > 0) ==>
      r == if |rows| - Passed(rows, after) > maxOutputs then AddressTooLarge else Ok(rows[Passed(rows, after)..])
  {
    var start := Passed(rows, after);
    var pageLimit := if limit.Some? && limit.value > 0 then limit else None;
    var outputs: seq<Outpoint> := [];
    var i := start;
    while i < |rows| && (pageLimit.Some? ==> |outputs| < pageLimit.value)
      invariant start <= i <= |rows| && outputs == rows[start..i]
      invariant pageLimit.Some? ==> |outputs| <= pageLimit.value
      invariant pageLimit.None? ==> |outputs| <= maxOutputs
    {
      if pageLimit.None? && |outputs| >= maxOutputs {
        return AddressTooLarge;
      }
      outputs := outputs + [rows[i]];
      i := i + 1;
    }
    assert i == |rows| ==> rows[start..i] == rows[start..];
    r := Ok(outputs);
  }

  // ----- which outputs are served

  function Confirmations(coin: Coin, policy: Policy): int {
    policy.tip - coin.height + 1
  }

  /** Above the node's tip as last read, or an immature coinbase: present but not served. */
  predicate Withheld(coin: Coin, policy: Policy) {
    Confirmations(coin, policy) < 0
    || (coin.coinbase && policy.coinbaseMaturity > 0 && Confirmations(coin, policy) < policy.coinbaseMaturity)
  }

  predicate ServesConfirmed(p: Pair, policy: Policy, op: Outpoint) {
    op in p.confirmed.utxo && op !in p.mempool.inputs && !Withheld(p.confirmed.utxo[op], policy)
  }

  /** A pending output nothing spends, unless the confirmed store has it already. */
  predicate ServesPending(p: Pair, op: Outpoint) {
    op in p.mempool.outputs && op !in p.mempool.inputs && op !in p.confirmed.utxo
  }

  /** In heights: the coin is not above the tip by more than one, and a coinbase is as deep as it has to be. */
  predicate Ripe(coin: Coin, tip: int, maturity: nat) {
    coin.height <= tip + 1 && (coin.coinbase && maturity > 0 ==> tip - coin.height + 1 >= maturity)
  }

  /** A confirmed output is served exactly when no pending transaction spends it and it is ripe. */
  lemma ServedWhenRipe(p: Pair, policy: Policy, op: Outpoint)
    ensures ServesConfirmed(p, policy, op) <==>
      op in p.confirmed.utxo && op !in p.mempool.inputs && Ripe(p.confirmed.utxo[op], policy.tip, policy.coinbaseMaturity)
  {
  }

  /** What is served goes on being served as the tip rises. */
  lemma StaysServed(p: Pair, policy: Policy, op: Outpoint, tip: int)
    requires ServesConfirmed(p, policy, op) && policy.tip <= tip
    ensures ServesConfirmed(p, policy.(tip := tip), op)
  {
    ServedWhenRipe(p, policy, op);
    ServedWhenRipe(p, policy.(tip := tip), op);
  }

  function Filter(rows: seq<Outpoint>, keep: Outpoint -> bool): (r: seq<Outpoint>)
    ensures |r| <= |rows| && forall op :: op in r <==> op in rows && keep(op)
  {
    if rows == [] then []
    else
      var init := Filter(rows[..|rows| - 1], keep);
      assert rows == rows[..|rows| - 1] + [rows[|rows| - 1]];
      if keep(rows[|rows| - 1]) then init + [rows[|rows| - 1]] else init
  }

  lemma {:induction false} FilterAppend(a: seq<Outpoint>, b: seq<Outpoint>, keep: Outpoint -> bool)
    ensures Filter(a + b, keep) == Filter(a, keep) + Filter(b, keep)
  {
    if b == [] {
      assert a + b == a;
    } else {
      assert (a + b)[..|a + b| - 1] == a + b[..|b| - 1];
      FilterAppend(a, b[..|b| - 1], keep);
    }
  }

  lemma {:induction false} FilterSame(rows: seq<Outpoint>, keep: Outpoint -> bool, keep': Outpoint -> bool)
    requires forall op :: op in rows ==> keep(op) == keep'(op)
    ensures Filter(rows, keep) == Filter(rows, keep')
  {
    if rows != [] {
      assert rows == rows[..|rows| - 1] + [rows[|rows| - 1]];
      FilterSame(rows[..|rows| - 1], keep, keep');
    }
  }

  function ConfirmedEntry(p: Pair, policy: Policy, op: Outpoint): Entry
    requires op in p.confirmed.utxo
  {
    var coin := p.confirmed.utxo[op];
    Entry(op, coin.value, Some(coin.height), Confirmations(coin, policy))
  }

  function PendingEntry(p: Pair, op: Outpoint): Entry
    requires op in p.mempool.outputs
  {
    Entry(op, p.mempool.outputs[op].value, None, 0)
  }

  function Ops(entries: seq<Entry>): (r: seq<Outpoint>)
    ensures |r| == |entries|
  {
    seq(|entries|, i requires 0 <= i < |entries| => entries[i].op)
  }

  /** The rows one confirmed page serves. */
  function PageServes(p: Pair, policy: Policy, page: seq<Outpoint>): seq<Outpoint> {
    Filter(page, op => ServesConfirmed(p, policy, op))
  }

  function PendingServes(p: Pair, mrows: seq<Outpoint>): seq<Outpoint> {
    Filter(mrows, op => ServesPending(p, op))
  }

  /** A txid binds its outputs: an outpoint in both stores pays the same script. */
  ghost predicate SameOutputs(p: Pair) {
    forall op :: op in p.confirmed.utxo && op in p.mempool.outputs ==>
      p.confirmed.utxo[op].script == p.mempool.outputs[op].script
  }

  datatype Page = Page(entries: seq<Entry>, nextCursor: Option<Outpoint>, height: int, hash: Option<BlockHash>)

  /** The confirmed rows one call scans: all of them, or the page after the cursor. */
  function ScannedRows(rows: seq<Outpoint>, limit: Option<nat>, after: Option<Outpoint>): seq<Outpoint> {
    if limit.None? then rows
    else rows[Passed(rows, after)..Least(Passed(rows, after) + limit.value, |rows|)]
  }

  predicate TooLarge(rows: seq<Outpoint>, mrows: seq<Outpoint>, limit: Option<nat>, after: Option<Outpoint>, maxOutputs: nat) {
    (limit.None? && |rows| > maxOutputs) || ((limit.None? || after.None?) && |mrows| > maxOutputs)
  }

  /** The outpoints one call serves: its confirmed rows, and the pending ones on the first page only. */
  function Answer(p: Pair, policy: Policy, rows: seq<Outpoint>, mrows: seq<Outpoint>, limit: Option<nat>,
                  after: Option<Outpoint>): seq<Outpoint> {
    PageServes(p, policy, ScannedRows(rows, limit, after))
    + (if limit.None? || after.None? then PendingServes(p, mrows) else [])
  }

  function Cursor(rows: seq<Outpoint>, limit: Option<nat>, after: Option<Outpoint>): Option<Outpoint>
    requires limit.Some? ==> limit.value > 0
  {
    var page := ScannedRows(rows, limit, after);
    if limit.Some? && |page| == limit.value then Some(page[|page| - 1]) else None
  }

  /** The stores as they are at each of a read's awaits: the committed height, the tip hash, the confirmed scan,
      the mempool scan, then a probe for every output found. */
  predicate EnoughSeen(seen: seq<Pair>, rows: seq<Outpoint>, mrows: seq<Outpoint>) {
    |seen| >= 4 + |rows| + 2 * |mrows|
  }

  /** Nothing changed in between. */
  ghost predicate OneState(seen: seq<Pair>) {
    forall i :: 0 <= i < |seen| ==> seen[i] == seen[0]
  }

  /** The answer of one call over a single state of the stores. */
  ghost predicate Answers(p: Pair, policy: Policy, rows: seq<Outpoint>, mrows: seq<Outpoint>, limit: Option<nat>,
                          after: Option<Outpoint>, page: Page) {
    && page.height == p.confirmed.height && page.hash == p.confirmed.hash
    && Ops(page.entries) == Answer(p, policy, rows, mrows, limit, after)
    && forall e :: e in page.entries ==> EntryTrue(p, policy, e)
  }

  /** The page entry by entry. A confirmed row it scanned is on it exactly when it is unspent and ripe, with its
      own value and height and the confirmations that height has under the tip; a pending row, on a first page,
      exactly when it is unspent and not confirmed, with its own value and no height. */
  ghost predicate Lists(p: Pair, policy: Policy, rows: seq<Outpoint>, mrows: seq<Outpoint>, limit: Option<nat>,
                        after: Option<Outpoint>, page: Page) {
    var utxo, m := p.confirmed.utxo, p.mempool;
    && (forall op :: op in ScannedRows(rows, limit, after) && op in utxo ==>
          (op in Ops(page.entries) <==> op !in m.inputs && Ripe(utxo[op], policy.tip, policy.coinbaseMaturity)))
    && (limit.None? || after.None? ==> forall op :: op in mrows && op in m.outputs && op !in utxo ==>
          (op in Ops(page.entries) <==> op !in m.inputs))
    && forall e :: e in page.entries ==>
         if e.op in utxo
         then e.op in ScannedRows(rows, limit, after) && e.value == utxo[e.op].value && e.height == Some(utxo[e.op].height)
              && e.confirmations == policy.tip - utxo[e.op].height + 1
         else (limit.None? || after.None?) && e.op in mrows && e.op in m.outputs && e.value == m.outputs[e.op].value
              && e.height == None && e.confirmations == 0
  }

  lemma AnswerLists(p: Pair, policy: Policy, rows: seq<Outpoint>, mrows: seq<Outpoint>, limit: Option<nat>,
                    after: Option<Outpoint>, page: Page)
    requires Answers(p, policy, rows, mrows, limit, after, page)
    ensures Lists(p, policy, rows, mrows, limit, after, page)
  {
    hide Filter, Ripe, ServesConfirmed, ScannedRows;
    forall op ensures ServesConfirmed(p, policy, op) <==>
      op in p.confirmed.utxo && op !in p.mempool.inputs && Ripe(p.confirmed.utxo[op], policy.tip, policy.coinbaseMaturity)
    {
      ServedWhenRipe(p, policy, op);
    }
    forall e | e in page.entries ensures e.op in Ops(page.entries) {
      var i :| 0 <= i < |page.entries| && page.entries[i] == e;
      assert Ops(page.entries)[i] == e.op;
    }
  }

  /** One get_utxos call: a page when a limit is given, everything otherwise. Each part comes from the stores as
      they are when it is read; only when they are the same throughout is the whole an answer about them. */
  method ReadUtxosAddress(seen: seq<Pair>, policy: Policy, ghost script: ScriptHash, rows: seq<Outpoint>, mrows: seq<Outpoint>,
                          limit: Option<nat>, after: Option<Outpoint>, maxOutputs: nat)
    returns (r: Result<Page>)
    requires EnoughSeen(seen, rows, mrows)
    requires ConfirmedScan(rows, seen[2].confirmed.utxo, script) && PendingScan(mrows, seen[3].mempool, script)
    requires limit.Some? ==> limit.value > 0
    ensures r.AddressTooLarge? <==> TooLarge(rows, mrows, limit, after, maxOutputs)
    ensures r.Ok? ==>
      && r.value.height == seen[0].confirmed.height && r.value.hash == seen[1].confirmed.hash
      && r.value.nextCursor == Cursor(rows, limit, after)
    ensures r.Ok? && OneState(seen) && SameOutputs(seen[0]) ==>
      Answers(seen[0], policy, rows, mrows, limit, after, r.value) && Lists(seen[0], policy, rows, mrows, limit, after, r.value)
  {
    hide Lists, PageServes, PendingServes, EntryTrue, StrictlySorted, SameOutputs;
    var height, hash := seen[0].confirmed.height, seen[1].confirmed.hash;
    var paged := limit.Some?;
    var confirmed := GetOutputsScriptPubKey(rows, limit, if paged then after else None, maxOutputs);
    if confirmed.AddressTooLarge? {
      return AddressTooLarge;
    }
    var page := confirmed.value;
    assert page == ScannedRows(rows, limit, after);
    var nextCursor := if paged && |page| == limit.value then Some(page[|page| - 1]) else None;
    var pending: seq<Outpoint> := [];
    if !paged || after.None? {
      var found := GetOutputsScriptPubKey(mrows, None, None, maxOutputs);
      if found.AddressTooLarge? {
        return AddressTooLarge;
      }
      pending := found.value;
    }
    NothingPending(seen[0]);
    assert |page| <= |rows| && |pending| <= |mrows|;
    var served, confirmedKeys := AddConfirmed(seen, policy, page);
    UnpagedTwins(seen, script, rows, mrows, pending, page, paged);
    var more := AddPending(seen, 4 + |page|, policy, pending, confirmedKeys, paged);
    r := Ok(Page(served + more, nextCursor, height, hash));
    assert Ops(served + more) == Ops(served) + Ops(more);
    if OneState(seen) && SameOutputs(seen[0]) {
      AnswerLists(seen[0], policy, rows, mrows, limit, after, r.value);
    }
  }

  /** In one state, an unpaged call's pending output that is confirmed too is among its confirmed ones. */
  lemma UnpagedTwins(seen: seq<Pair>, script: ScriptHash, rows: seq<Outpoint>, mrows: seq<Outpoint>,
                     pending: seq<Outpoint>, page: seq<Outpoint>, paged: bool)
    requires EnoughSeen(seen, rows, mrows)
    requires ConfirmedScan(rows, seen[2].confirmed.utxo, script) && PendingScan(mrows, seen[3].mempool, script)
    requires (forall op :: op in pending ==> op in mrows) && (!paged ==> page == rows)
    ensures OneState(seen) && SameOutputs(seen[0]) && !paged ==>
      forall op :: op in pending && op in seen[0].confirmed.utxo ==> op in page
  {
    hide StrictlySorted;
    if OneState(seen) && SameOutputs(seen[0]) && !paged {
      assert seen[2] == seen[0] && seen[3] == seen[0];
    }
  }

  lemma NothingPending(p: Pair)
    ensures PendingServes(p, []) == []
  {
  }

  /** An entry says what the snapshot holds. */
  ghost predicate EntryTrue(p: Pair, policy: Policy, e: Entry) {
    if e.height.Some? then ServesConfirmed(p, policy, e.op) && e == ConfirmedEntry(p, policy, e.op)
    else ServesPending(p, e.op) && e == PendingEntry(p, e.op)
  }

  method AddConfirmed(seen: seq<Pair>, policy: Policy, page: seq<Outpoint>)
    returns (results: seq<Entry>, confirmedKeys: set<Outpoint>)
    requires |seen| >= 4 + |page| && forall op :: op in page ==> op in seen[2].confirmed.utxo
    ensures confirmedKeys == set op | op in page
    ensures OneState(seen) ==> Ops(results) == PageServes(seen[0], policy, page)
    ensures OneState(seen) ==> forall e :: e in results ==> EntryTrue(seen[0], policy, e)
  {
    results, confirmedKeys := [], {};
    for i := 0 to |page|
      invariant confirmedKeys == set op | op in page[..i]
      invariant OneState(seen) ==> Ops(results) == PageServes(seen[0], policy, page[..i])
      invariant OneState(seen) ==> forall e :: e in results ==> EntryTrue(seen[0], policy, e)
    {
      var op := page[i];
      assert page[..i + 1][..i] == page[..i];
      confirmedKeys := confirmedKeys + {op};
      if op !in seen[4 + i].mempool.inputs && !Withheld(seen[2].confirmed.utxo[op], policy) {
        assert Ops(results + [ConfirmedEntry(seen[2], policy, op)]) == Ops(results) + [op];
        results := results + [ConfirmedEntry(seen[2], policy, op)];
      }
    }
    assert page[..|page|] == page;
  }

  /** Pending outputs, but for those the page or the confirmed store has and those another pending
      transaction spends. Outside a page the page's own keys are all the script's confirmed ones. */
  method AddPending(seen: seq<Pair>, at: nat, policy: Policy, pending: seq<Outpoint>, confirmedKeys: set<Outpoint>, paged: bool)
    returns (results: seq<Entry>)
    requires 4 <= at && |seen| >= at + 2 * |pending|
    requires forall op :: op in pending ==> op in seen[3].mempool.outputs
    ensures OneState(seen) && Twins(seen[0], pending, confirmedKeys, paged) ==>
      && Ops(results) == PendingServes(seen[0], pending)
      && forall e :: e in results ==> EntryTrue(seen[0], policy, e)
  {
    hide Twins;
    results := [];
    ghost var one := OneState(seen) && Twins(seen[0], pending, confirmedKeys, paged);
    for i := 0 to |pending|
      invariant one ==> Ops(results) == PendingServes(seen[0], pending[..i])
      invariant one ==> forall e :: e in results ==> EntryTrue(seen[0], policy, e)
    {
      var op := pending[i];
      assert pending[..i + 1][..i] == pending[..i];
      TwinsAt(seen[0], pending, confirmedKeys, paged, i);
      var probed := !paged || op !in seen[at + 2 * i].confirmed.utxo;
      if op !in confirmedKeys && probed && op !in seen[at + 2 * i + 1].mempool.inputs {
        assert Ops(results + [PendingEntry(seen[3], op)]) == Ops(results) + [op];
        results := results + [PendingEntry(seen[3], op)];
      }
    }
    assert pending[..|pending|] == pending;
  }

  /** The keys already served are confirmed ones and, outside a page, all that matter. */
  ghost predicate Twins(p: Pair, pending: seq<Outpoint>, confirmedKeys: set<Outpoint>, paged: bool) {
    && confirmedKeys <= p.confirmed.utxo.Keys
    && (!paged ==> forall op :: op in pending && op in p.confirmed.utxo ==> op in confirmedKeys)
  }

  lemma TwinsAt(p: Pair, pending: seq<Outpoint>, confirmedKeys: set<Outpoint>, paged: bool, i: nat)
    requires i < |pending|
    ensures Twins(p, pending, confirmedKeys, paged) ==>
      && (pending[i] in confirmedKeys ==> pending[i] in p.confirmed.utxo)
      && (!paged && pending[i] in p.confirmed.utxo ==> pending[i] in confirmedKeys)
  {
  }

  /** A read during which nothing changes. */
  function Still(p: Pair, rows: seq<Outpoint>, mrows: seq<Outpoint>): (seen: seq<Pair>)
    ensures EnoughSeen(seen, rows, mrows) && forall i :: 0 <= i < |seen| ==> seen[i] == p
  {
    seq(4 + |rows| + 2 * |mrows|, _ => p)
  }

  // ----- pages

  lemma {:induction false} PassedRow(rows: seq<Outpoint>, k: nat)
    requires StrictlySorted(rows) && k < |rows|
    ensures Passed(rows, Some(rows[k])) == k + 1
  {
    CompareTotal(rows[k], rows[k]);
    if k == 0 {
      if |rows| > 1 {
        CompareTotal(rows[0], rows[1]);
      }
    } else {
      PassedRow(rows[1..], k - 1);
    }
  }

  /** Following cursors from the first page, the pages together serve exactly the outpoints of the
      unpaged answer, each as often as it does, and the walk ends, whatever the page size. */
  method FollowPages(p: Pair, policy: Policy, ghost script: ScriptHash, rows: seq<Outpoint>, mrows: seq<Outpoint>,
                     limit: nat, maxOutputs: nat)
    returns (entries: seq<Entry>)
    requires ConfirmedScan(rows, p.confirmed.utxo, script) && PendingScan(mrows, p.mempool, script) && SameOutputs(p)
    requires limit > 0 && |mrows| <= maxOutputs
    ensures multiset(Ops(entries)) == multiset(PageServes(p, policy, rows) + PendingServes(p, mrows))
    ensures forall e :: e in entries ==> EntryTrue(p, policy, e)
  {
    hide PageServes, PendingServes, EntryTrue, StrictlySorted, ConfirmedScan, PendingScan, SameOutputs, Passed;
    var first := FirstPage(p, policy, script, rows, mrows, limit, maxOutputs);
    entries := first.entries;
    var cursor := first.nextCursor;
    ghost var k := Least(limit, |rows|);
    while cursor.Some?
      invariant k <= |rows| && (if cursor.Some? then 0 < k && cursor.value == rows[k - 1] else k == |rows|)
      invariant multiset(Ops(entries)) == multiset(PageServes(p, policy, rows[..k])) + multiset(PendingServes(p, mrows))
      invariant forall e :: e in entries ==> EntryTrue(p, policy, e)
      decreases |rows| - k, if cursor.Some? then 1 else 0
    {
      ScanSorted(rows, p.confirmed.utxo, script);
      PassedRow(rows, k - 1);
      ghost var end := Least(k + limit, |rows|);
      PagesJoin(p, policy, rows, k, end);
      var next := NextPage(p, policy, script, rows, mrows, limit, cursor, maxOutputs, k);
      OpsJoin(entries, next.entries);
      entries := entries + next.entries;
      cursor := next.nextCursor;
      k := end;
    }
    assert rows[..|rows|] == rows;
  }

  method FirstPage(p: Pair, policy: Policy, ghost script: ScriptHash, rows: seq<Outpoint>, mrows: seq<Outpoint>,
                   limit: nat, maxOutputs: nat)
    returns (page: Page)
    requires ConfirmedScan(rows, p.confirmed.utxo, script) && PendingScan(mrows, p.mempool, script) && SameOutputs(p)
    requires limit > 0 && |mrows| <= maxOutputs
    ensures var end := Least(limit, |rows|);
      && multiset(Ops(page.entries)) == multiset(PageServes(p, policy, rows[..end])) + multiset(PendingServes(p, mrows))
      && page.nextCursor == (if end == limit then Some(rows[end - 1]) else None)
    ensures forall e :: e in page.entries ==> EntryTrue(p, policy, e)
  {
    hide PageServes, PendingServes, EntryTrue, ConfirmedScan, PendingScan, SameOutputs, Lists;
    var r := ReadUtxosAddress(Still(p, rows, mrows), policy, script, rows, mrows, Some(limit), None, maxOutputs);
    page := r.value;
    assert rows[0..Least(limit, |rows|)] == rows[..Least(limit, |rows|)];
  }

  method NextPage(p: Pair, policy: Policy, ghost script: ScriptHash, rows: seq<Outpoint>, mrows: seq<Outpoint>,
                  limit: nat, after: Option<Outpoint>, maxOutputs: nat, ghost k: nat)
    returns (page: Page)
    requires ConfirmedScan(rows, p.confirmed.utxo, script) && PendingScan(mrows, p.mempool, script) && SameOutputs(p)
    requires limit > 0 && after.Some? && k <= |rows| && Passed(rows, after) == k
    ensures var end := Least(k + limit, |rows|);
      && multiset(Ops(page.entries)) == multiset(PageServes(p, policy, rows[k..end]))
      && page.nextCursor == (if end - k == limit then Some(rows[end - 1]) else None)
    ensures forall e :: e in page.entries ==> EntryTrue(p, policy, e)
  {
    hide PageServes, PendingServes, EntryTrue, ConfirmedScan, PendingScan, SameOutputs, Passed, Lists;
    var r := ReadUtxosAddress(Still(p, rows, mrows), policy, script, rows, mrows, Some(limit), after, maxOutputs);
    page := r.value;
  }

  lemma OpsJoin(a: seq<Entry>, b: seq<Entry>)
    ensures multiset(Ops(a + b)) == multiset(Ops(a)) + multiset(Ops(b))
  {
    assert Ops(a + b) == Ops(a) + Ops(b);
  }

  lemma ScanSorted(rows: seq<Outpoint>, utxo: map<Outpoint, Coin>, script: ScriptHash)
    requires ConfirmedScan(rows, utxo, script)
    ensures StrictlySorted(rows)
  {
  }

  lemma PagesJoin(p: Pair, policy: Policy, rows: seq<Outpoint>, k: nat, end: nat)
    requires k <= end <= |rows|
    ensures PageServes(p, policy, rows[..end]) == PageServes(p, policy, rows[..k]) + PageServes(p, policy, rows[k..end])
  {
    assert rows[..end] == rows[..k] + rows[k..end];
    FilterAppend(rows[..k], rows[k..end], op => ServesConfirmed(p, policy, op));
  }

  /** The unpaged answer repeats no outpoint, not even one that sits in both stores. */
  lemma NoOutpointTwice(p: Pair, policy: Policy, script: ScriptHash, rows: seq<Outpoint>, mrows: seq<Outpoint>)
    requires ConfirmedScan(rows, p.confirmed.utxo, script) && PendingScan(mrows, p.mempool, script)
    ensures Distinct(PageServes(p, policy, rows) + PendingServes(p, mrows))
  {
    StrictDistinct(rows);
    StrictDistinct(mrows);
    FilterDistinct(rows, op => ServesConfirmed(p, policy, op));
    FilterDistinct(mrows, op => ServesPending(p, op));
    DistinctAppend(PageServes(p, policy, rows), PendingServes(p, mrows));
  }

  lemma StrictDistinct(rows: seq<Outpoint>)
    requires StrictlySorted(rows)
    ensures Distinct(rows)
  {
    forall i, j | 0 <= i < j < |rows| ensures rows[i] != rows[j] {
      CompareTotal(rows[i], rows[j]);
    }
  }

  lemma {:induction false} FilterDistinct(rows: seq<Outpoint>, keep: Outpoint -> bool)
    requires Distinct(rows)
    ensures Distinct(Filter(rows, keep))
  {
    if rows != [] {
      var init := rows[..|rows| - 1];
      FilterDistinct(init, keep);
      assert rows[|rows| - 1] !in init;
    }
  }

  // ----- sums

  function Sum(ops: seq<Outpoint>, value: Outpoint -> int): int {
    if ops == [] then 0 else Sum(ops[..|ops| - 1], value) + value(ops[|ops| - 1])
  }

  lemma {:induction false} SumAppend(a: seq<Outpoint>, b: seq<Outpoint>, value: Outpoint -> int)
    ensures Sum(a + b, value) == Sum(a, value) + Sum(b, value)
  {
    if b == [] {
      assert a + b == a;
    } else {
      assert (a + b)[..|a + b| - 1] == a + b[..|b| - 1];
      SumAppend(a, b[..|b| - 1], value);
    }
  }

  lemma {:induction false} SumSplit(ops: seq<Outpoint>, value: Outpoint -> int, keep: Outpoint -> bool, rest: Outpoint -> bool)
    requires forall op :: op in ops ==> keep(op) == !rest(op)
    ensures Sum(ops, value) == Sum(Filter(ops, keep), value) + Sum(Filter(ops, rest), value)
  {
    if ops != [] {
      assert ops == ops[..|ops| - 1] + [ops[|ops| - 1]];
      SumSplit(ops[..|ops| - 1], value, keep, rest);
      SumAppend(Filter(ops[..|ops| - 1], keep), [ops[|ops| - 1]], value);
      SumAppend(Filter(ops[..|ops| - 1], rest), [ops[|ops| - 1]], value);
      assert Sum([ops[|ops| - 1]], value) == value(ops[|ops| - 1]);
    }
  }

  /** What an outpoint pays, by the store that serves it. */
  function Pays(p: Pair, op: Outpoint): int {
    if op in p.confirmed.utxo then p.confirmed.utxo[op].value
    else if op in p.mempool.outputs then p.mempool.outputs[op].value
    else 0
  }

  function SumEntries(entries: seq<Entry>): int {
    if entries == [] then 0 else SumEntries(entries[..|entries| - 1]) + entries[|entries| - 1].value
  }

  lemma {:induction false} EntriesPay(p: Pair, policy: Policy, entries: seq<Entry>)
    requires forall e :: e in entries ==> EntryTrue(p, policy, e)
    ensures SumEntries(entries) == Sum(Ops(entries), op => Pays(p, op))
  {
    if entries != [] {
      EntriesPay(p, policy, entries[..|entries| - 1]);
      assert Ops(entries)[..|entries| - 1] == Ops(entries[..|entries| - 1]);
      assert EntryTrue(p, policy, entries[|entries| - 1]);
    }
  }

  datatype Balance = Balance(confirmed: int, pending: int, totalReceived: int, utxosConfirmed: nat, utxosPending: nat)

  function SpentRows(p: Pair, rows: seq<Outpoint>): seq<Outpoint> {
    Filter(rows, op => op in p.mempool.inputs)
  }

  function WithheldRows(p: Pair, policy: Policy, rows: seq<Outpoint>): seq<Outpoint> {
    Filter(rows, op => op in p.confirmed.utxo && op !in p.mempool.inputs && Withheld(p.confirmed.utxo[op], policy))
  }

  function SumOf(p: Pair, ops: seq<Outpoint>): int {
    Sum(ops, op => Pays(p, op))
  }

  /** One get_info call, its parts read one await after another. */
  method ReadBalanceInfo(seen: seq<Pair>, ghost script: ScriptHash, rows: seq<Outpoint>, mrows: seq<Outpoint>, maxOutputs: nat)
    returns (r: Result<Balance>)
    requires EnoughSeen(seen, rows, mrows)
    requires ConfirmedScan(rows, seen[2].confirmed.utxo, script) && PendingScan(mrows, seen[3].mempool, script)
    ensures r.AddressTooLarge? <==> |rows| > maxOutputs || |mrows| > maxOutputs
    ensures r.Ok? && OneState(seen) && SameOutputs(seen[0]) ==> BalanceOf(seen[0], rows, mrows, r.value)
  {
    hide StrictlySorted, SameOutputs, SumOf, PendingServes, SpentRows;
    if |rows| > maxOutputs || |mrows| > maxOutputs {
      return AddressTooLarge;
    }
    var confirmedBalance, spent, confirmedKeys := SumConfirmed(seen, rows);
    UnpagedTwins(seen, script, rows, mrows, mrows, rows, false);
    var pendingBalance, count := SumPending(seen, 4 + |rows|, mrows, confirmedKeys);
    r := Ok(Balance(confirmedBalance, pendingBalance - spent, confirmedBalance, |rows|, count));
  }

  ghost predicate BalanceOf(p: Pair, rows: seq<Outpoint>, mrows: seq<Outpoint>, b: Balance) {
    && b.confirmed == b.totalReceived == SumOf(p, rows) && b.utxosConfirmed == |rows|
    && b.pending == SumOf(p, PendingServes(p, mrows)) - SumOf(p, SpentRows(p, rows))
    && b.utxosPending == |PendingServes(p, mrows)|
  }

  method SumConfirmed(seen: seq<Pair>, rows: seq<Outpoint>) returns (total: int, spent: int, confirmedKeys: set<Outpoint>)
    requires |seen| >= 4 + |rows| && forall op :: op in rows ==> op in seen[2].confirmed.utxo
    ensures confirmedKeys == set op | op in rows
    ensures OneState(seen) ==> total == SumOf(seen[0], rows) && spent == SumOf(seen[0], SpentRows(seen[0], rows))
  {
    hide Filter, Sum, SumOf, SpentRows;
    total, spent, confirmedKeys := 0, 0, {};
    NothingSummed(seen[0]);
    for i := 0 to |rows|
      invariant confirmedKeys == set op | op in rows[..i]
      invariant OneState(seen) ==>
        total == SumOf(seen[0], rows[..i]) && spent == SumOf(seen[0], SpentRows(seen[0], rows[..i]))
    {
      var op := rows[i];
      SpentTurn(seen[0], rows, i);
      confirmedKeys := confirmedKeys + {op};
      total := total + seen[2].confirmed.utxo[op].value;
      if op in seen[4 + i].mempool.inputs {
        spent := spent + seen[2].confirmed.utxo[op].value;
      }
    }
    assert rows[..|rows|] == rows;
  }

  lemma NothingSummed(p: Pair)
    ensures SumOf(p, []) == 0 && SumOf(p, SpentRows(p, [])) == 0
  {
  }

  lemma SpentTurn(p: Pair, rows: seq<Outpoint>, i: nat)
    requires i < |rows|
    ensures SumOf(p, rows[..i + 1]) == SumOf(p, rows[..i]) + Pays(p, rows[i])
    ensures SumOf(p, SpentRows(p, rows[..i + 1])) ==
      SumOf(p, SpentRows(p, rows[..i])) + (if rows[i] in p.mempool.inputs then Pays(p, rows[i]) else 0)
  {
    hide Pays;
    assert rows[..i + 1][..i] == rows[..i];
    var before := SpentRows(p, rows[..i]);
    assert (before + [rows[i]])[..|before|] == before;
  }

  lemma NothingServed(p: Pair)
    ensures PendingServes(p, []) == [] && SumOf(p, []) == 0
  {
  }

  lemma PendingTurn(p: Pair, mrows: seq<Outpoint>, i: nat)
    requires i < |mrows|
    ensures var before, after := PendingServes(p, mrows[..i]), PendingServes(p, mrows[..i + 1]);
      && |after| == |before| + (if ServesPending(p, mrows[i]) then 1 else 0)
      && SumOf(p, after) == SumOf(p, before) + (if ServesPending(p, mrows[i]) then Pays(p, mrows[i]) else 0)
  {
    hide ServesPending, Pays;
    assert mrows[..i + 1][..i] == mrows[..i];
    var before := PendingServes(p, mrows[..i]);
    assert (before + [mrows[i]])[..|before|] == before;
  }

  method SumPending(seen: seq<Pair>, at: nat, mrows: seq<Outpoint>, confirmedKeys: set<Outpoint>) returns (total: int, count: nat)
    requires 4 <= at && |seen| >= at + |mrows|
    requires forall op :: op in mrows ==> op in seen[3].mempool.outputs
    ensures OneState(seen) && Twins(seen[0], mrows, confirmedKeys, false) ==>
      total == SumOf(seen[0], PendingServes(seen[0], mrows)) && count == |PendingServes(seen[0], mrows)|
  {
    hide Filter, Sum, SumOf, PendingServes, Twins;
    total, count := 0, 0;
    ghost var one := OneState(seen) && Twins(seen[0], mrows, confirmedKeys, false);
    NothingServed(seen[0]);
    for i := 0 to |mrows|
      invariant one ==>
        total == SumOf(seen[0], PendingServes(seen[0], mrows[..i])) && count == |PendingServes(seen[0], mrows[..i])|
    {
      var op := mrows[i];
      PendingTurn(seen[0], mrows, i);
      TwinsAt(seen[0], mrows, confirmedKeys, false, i);
      if op !in confirmedKeys && op !in seen[at + i].mempool.inputs {
        total, count := total + seen[3].mempool.outputs[op].value, count + 1;
      }
    }
    assert mrows[..|mrows|] == mrows;
  }

  /** What the unpaged answer serves and what it withholds add up to the balance, confirmed plus
      pending; so the served values are the balance exactly when the withheld ones pay nothing. */
  lemma ServedIsBalance(p: Pair, policy: Policy, rows: seq<Outpoint>, mrows: seq<Outpoint>,
                        entries: seq<Entry>, balance: Balance)
    requires forall op :: op in rows ==> op in p.confirmed.utxo
    requires forall e :: e in entries ==> EntryTrue(p, policy, e)
    requires Ops(entries) == Answer(p, policy, rows, mrows, None, None)
    requires balance.confirmed == SumOf(p, rows)
    requires balance.pending == SumOf(p, PendingServes(p, mrows)) - SumOf(p, SpentRows(p, rows))
    ensures SumEntries(entries) + SumOf(p, WithheldRows(p, policy, rows)) == balance.confirmed + balance.pending
  {
    EntriesPay(p, policy, entries);
    SumAppend(PageServes(p, policy, rows), PendingServes(p, mrows), op => Pays(p, op));
    var unspent := Filter(rows, op => op !in p.mempool.inputs);
    SumSplit(rows, op => Pays(p, op), op => op in p.mempool.inputs, op => op !in p.mempool.inputs);
    SumSplit(unspent, op => Pays(p, op), op => ServesConfirmed(p, policy, op), op => !ServesConfirmed(p, policy, op));
    FilterTwice(rows, op => op !in p.mempool.inputs, op => ServesConfirmed(p, policy, op), op => ServesConfirmed(p, policy, op));
    FilterTwice(rows, op => op !in p.mempool.inputs, op => !ServesConfirmed(p, policy, op),
      op => op in p.confirmed.utxo && op !in p.mempool.inputs && Withheld(p.confirmed.utxo[op], policy));
  }

  lemma {:induction false} FilterTwice(rows: seq<Outpoint>, first: Outpoint -> bool, second: Outpoint -> bool, both: Outpoint -> bool)
    requires forall op :: op in rows ==> both(op) == (first(op) && second(op))
    ensures Filter(Filter(rows, first), second) == Filter(rows, both)
  {
    if rows != [] {
      assert rows == rows[..|rows| - 1] + [rows[|rows| - 1]];
      FilterTwice(rows[..|rows| - 1], first, second, both);
      FilterAppend(Filter(rows[..|rows| - 1], first), [rows[|rows| - 1]], second);
    }
  }
}
