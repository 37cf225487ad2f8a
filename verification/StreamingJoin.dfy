/** The merge's left anti-join: of two streams sorted by (txid, vout), keep the outputs no spend names. */
module StreamingJoin {
  import opened Chain
  import opened Index
  import opened Ledger
  import opened BulkSync

  // ----- the sort order

  function CompareHex(a: string, b: string): int {
    if a == [] then (if b == [] then 0 else -1)
    else if b == [] then 1
    else if a[0] < b[0] then -1
    else if b[0] < a[0] then 1
    else CompareHex(a[1..], b[1..])
  }

  /** Alphabetic order: at the first difference the smaller character, and a prefix before what continues it. */
  lemma {:induction false} HexOrder(a: string, b: string, n: nat)
    requires n <= |a| && n <= |b| && a[..n] == b[..n]
    ensures n < |a| && n < |b| && a[n] < b[n] ==> CompareHex(a, b) < 0
    ensures n == |a| < |b| ==> CompareHex(a, b) < 0
  {
    if n > 0 {
      assert a[0] == a[..n][0] == b[0];
      assert a[1..][..n - 1] == a[..n][1..] && b[1..][..n - 1] == b[..n][1..];
      HexOrder(a[1..], b[1..], n - 1);
    }
  }

  function CompareKeys(a: Outpoint, b: Outpoint): int {
    var c := CompareHex(a.txid.hex, b.txid.hex);
    if c != 0 then c else if a.vout < b.vout then -1 else if b.vout < a.vout then 1 else 0
  }

  lemma {:induction false} CompareHexTotal(a: string, b: string)
    ensures CompareHex(a, b) == 0 <==> a == b
    ensures CompareHex(a, b) == -CompareHex(b, a)
  {
    if a != [] && b != [] {
      CompareHexTotal(a[1..], b[1..]);
      assert a == [a[0]] + a[1..] && b == [b[0]] + b[1..];
    }
  }

  lemma {:induction false} CompareHexTrans(a: string, b: string, c: string)
    requires CompareHex(a, b) <= 0 && CompareHex(b, c) <= 0
    ensures CompareHex(a, c) <= 0
    ensures CompareHex(a, b) < 0 || CompareHex(b, c) < 0 ==> CompareHex(a, c) < 0
  {
    if a != [] && b != [] && c != [] && a[0] == b[0] == c[0] {
      CompareHexTrans(a[1..], b[1..], c[1..]);
    }
  }

  /** Keys go by txid, alphabetically, then by output index. */
  lemma KeysOrder(a: Outpoint, b: Outpoint)
    ensures a.txid != b.txid ==> (CompareKeys(a, b) < 0 <==> CompareHex(a.txid.hex, b.txid.hex) < 0)
    ensures a.txid == b.txid ==> (CompareKeys(a, b) < 0 <==> a.vout < b.vout)
  {
    CompareHexTotal(a.txid.hex, b.txid.hex);
  }

  lemma CompareTotal(a: Outpoint, b: Outpoint)
    ensures CompareKeys(a, b) == 0 <==> a == b
    ensures CompareKeys(a, b) == -CompareKeys(b, a)
  {
    CompareHexTotal(a.txid.hex, b.txid.hex);
  }

  lemma CompareTrans(a: Outpoint, b: Outpoint, c: Outpoint)
    requires CompareKeys(a, b) <= 0 && CompareKeys(b, c) <= 0
    ensures CompareKeys(a, c) <= 0
    ensures CompareKeys(a, b) < 0 || CompareKeys(b, c) < 0 ==> CompareKeys(a, c) < 0
  {
    CompareHexTrans(a.txid.hex, b.txid.hex, c.txid.hex);
    CompareHexTotal(a.txid.hex, b.txid.hex);
    CompareHexTotal(b.txid.hex, c.txid.hex);
  }

  predicate SortedKeys(keys: seq<Outpoint>) {
    forall i, j :: 0 <= i < j < |keys| ==> CompareKeys(keys[i], keys[j]) <= 0
  }

  /** A key below the head of a sorted stream is not in it. */
  lemma BelowHead(keys: seq<Outpoint>, k: Outpoint)
    requires SortedKeys(keys) && (keys != [] ==> CompareKeys(k, keys[0]) < 0)
    ensures k !in multiset(keys)
  {
    if k in keys {
      var i :| 0 <= i < |keys| && keys[i] == k;
      if i > 0 {
        CompareTrans(k, keys[0], keys[i]);
      }
      CompareTotal(k, k);
    }
  }

  // ----- the join

  datatype Counts = Counts(leftRead: nat, rightRead: nat, emitted: nat, canceled: nat, orphanSpends: nat)

  type Keys = multiset<Outpoint>

  /** Midway: what is out and what is still to come make up the difference, on both sides. */
  ghost predicate Joined(outKeys: Keys, lost: Keys, leftRest: Keys, rightRest: Keys, all: Keys, spent: Keys) {
    outKeys + (leftRest - rightRest) == all - spent && lost + (rightRest - leftRest) == spent - all
  }

  lemma EmitHead(out: Keys, lost: Keys, l: Keys, r: Keys, all: Keys, spent: Keys, k: Outpoint)
    requires Joined(out, lost, l + multiset{k}, r, all, spent) && k !in r
    ensures Joined(out + multiset{k}, lost, l, r, all, spent)
  {
    assert (l + multiset{k}) - r == (l - r) + multiset{k};
    assert r - (l + multiset{k}) == r - l;
  }

  lemma DropSpend(out: Keys, lost: Keys, l: Keys, r: Keys, all: Keys, spent: Keys, k: Outpoint)
    requires Joined(out, lost, l, r + multiset{k}, all, spent) && k !in l
    ensures Joined(out, lost + multiset{k}, l, r, all, spent)
  {
    assert (r + multiset{k}) - l == (r - l) + multiset{k};
    assert l - (r + multiset{k}) == l - r;
  }

  lemma CancelBoth(out: Keys, lost: Keys, l: Keys, r: Keys, all: Keys, spent: Keys, k: Outpoint)
    requires Joined(out, lost, l + multiset{k}, r + multiset{k}, all, spent)
    ensures Joined(out, lost, l, r, all, spent)
  {
    assert (l + multiset{k}) - (r + multiset{k}) == l - r;
    assert (r + multiset{k}) - (l + multiset{k}) == r - l;
  }

  function Rest(keys: seq<Outpoint>, i: nat): Keys
    requires i <= |keys|
  {
    multiset(keys[i..])
  }

  lemma HeadFirst(keys: seq<Outpoint>, i: nat)
    requires i < |keys|
    ensures Rest(keys, i) == Rest(keys, i + 1) + multiset{keys[i]}
  {
    assert keys[i..] == [keys[i]] + keys[i + 1..];
  }

  lemma HeadNotIn(keys: seq<Outpoint>, i: nat, k: Outpoint)
    requires i <= |keys| && SortedKeys(keys) && (i < |keys| ==> CompareKeys(k, keys[i]) < 0)
    ensures k !in Rest(keys, i)
  {
    BelowHead(keys[i..], k);
  }

  lemma JoinStarts(lk: seq<Outpoint>, rk: seq<Outpoint>)
    ensures Joined(multiset{}, multiset{}, Rest(lk, 0), Rest(rk, 0), multiset(lk), multiset(rk))
  {
    assert lk[0..] == lk && rk[0..] == rk;
  }

  lemma JoinEnds(out: Keys, lost: Keys, lk: seq<Outpoint>, rk: seq<Outpoint>)
    requires Joined(out, lost, Rest(lk, |lk|), Rest(rk, |rk|), multiset(lk), multiset(rk))
    ensures out == multiset(lk) - multiset(rk) && lost == multiset(rk) - multiset(lk)
  {
  }

  /** Equal keys cancel one against one; a surplus output is emitted, a surplus spend counted as orphan. */
  method JoinRecords(left: seq<OutRec>, right: seq<SpendRec>) returns (out: seq<OutRec>, counts: Counts)
    requires SortedKeys(OutKeys(left)) && SortedKeys(SpendKeys(right))
    ensures multiset(OutKeys(out)) == multiset(OutKeys(left)) - multiset(SpendKeys(right))
    ensures forall r :: r in out ==> r in left
    ensures counts.leftRead == |left| && counts.rightRead == |right|
    ensures counts.emitted == |out| && counts.emitted + counts.canceled == |left|
    ensures counts.orphanSpends == |multiset(SpendKeys(right)) - multiset(OutKeys(left))|
  {
    hide Joined, Rest, SortedKeys, CompareKeys;
    ghost var lk, rk := OutKeys(left), SpendKeys(right);
    ghost var outKeys, lost: Keys := multiset{}, multiset{};
    var i, j, canceled, orphans := 0, 0, 0, 0;
    out := [];
    JoinStarts(lk, rk);
    while i < |left|
      invariant 0 <= i <= |left| && 0 <= j <= |right|
      invariant Joined(outKeys, lost, Rest(lk, i), Rest(rk, j), multiset(lk), multiset(rk))
      invariant outKeys == multiset(OutKeys(out)) && |lost| == orphans && |out| + canceled == i
      invariant forall r :: r in out ==> r in left
      decreases |left| - i, |right| - j
    {
      HeadFirst(lk, i);
      assert OutKeys(out + [left[i]]) == OutKeys(out) + [lk[i]];
      if j == |right| {
        HeadNotIn(rk, j, lk[i]);
        EmitHead(outKeys, lost, Rest(lk, i + 1), Rest(rk, j), multiset(lk), multiset(rk), lk[i]);
        outKeys := outKeys + multiset{lk[i]};
        out := out + [left[i]];
        i := i + 1;
        continue;
      }
      HeadFirst(rk, j);
      var cmp := CompareKeys(left[i].op, right[j].prev);
      CompareTotal(left[i].op, right[j].prev);
      if cmp < 0 {
        HeadNotIn(rk, j, lk[i]);
        EmitHead(outKeys, lost, Rest(lk, i + 1), Rest(rk, j), multiset(lk), multiset(rk), lk[i]);
        outKeys := outKeys + multiset{lk[i]};
        out := out + [left[i]];
        i := i + 1;
      } else if cmp > 0 {
        HeadNotIn(lk, i, rk[j]);
        DropSpend(outKeys, lost, Rest(lk, i), Rest(rk, j + 1), multiset(lk), multiset(rk), rk[j]);
        orphans := orphans + 1;
        lost := lost + multiset{rk[j]};
        j := j + 1;
      } else {
        CancelBoth(outKeys, lost, Rest(lk, i + 1), Rest(rk, j + 1), multiset(lk), multiset(rk), lk[i]);
        canceled := canceled + 1;
        i, j := i + 1, j + 1;
      }
    }
    while j < |right|
      invariant 0 <= j <= |right| && |lost| == orphans
      invariant Joined(outKeys, lost, Rest(lk, i), Rest(rk, j), multiset(lk), multiset(rk))
    {
      HeadFirst(rk, j);
      NoneLeft(lk, rk[j]);
      DropSpend(outKeys, lost, Rest(lk, i), Rest(rk, j + 1), multiset(lk), multiset(rk), rk[j]);
      orphans := orphans + 1;
      lost := lost + multiset{rk[j]};
      j := j + 1;
    }
    JoinEnds(outKeys, lost, lk, rk);
    counts := Counts(i, j, |out|, canceled, orphans);
  }

  lemma NoneLeft(keys: seq<Outpoint>, k: Outpoint)
    ensures k !in Rest(keys, |keys|)
  {
  }

  // ----- bulk sync agrees with the live index

  function KeyBag<T(!new)>(recs: seq<T>, key: T -> Outpoint): Keys {
    if recs == [] then multiset{} else KeyBag(recs[..|recs| - 1], key) + multiset{key(recs[|recs| - 1])}
  }

  lemma {:induction false} KeyBagSplit<T(!new)>(a: seq<T>, b: seq<T>, key: T -> Outpoint)
    ensures KeyBag(a + b, key) == KeyBag(a, key) + KeyBag(b, key)
  {
    if b == [] {
      assert a + b == a;
    } else {
      assert (a + b)[..|a + b| - 1] == a + b[..|b| - 1];
      KeyBagSplit(a, b[..|b| - 1], key);
    }
  }

  /** Reordering records reorders their keys. */
  lemma {:induction false} KeyBagPerm<T(!new)>(a: seq<T>, b: seq<T>, key: T -> Outpoint)
    requires multiset(a) == multiset(b)
    ensures KeyBag(a, key) == KeyBag(b, key)
    decreases |a|
  {
    if a == [] {
      assert |multiset(b)| == 0;
    } else {
      var init, x := a[..|a| - 1], a[|a| - 1];
      assert a == init + [x];
      assert x in multiset(b);
      var i :| 0 <= i < |b| && b[i] == x;
      assert b == b[..i] + [x] + b[i + 1..];
      assert multiset(init) == multiset(a) - multiset{x};
      assert multiset(b[..i] + b[i + 1..]) == multiset(b) - multiset{x};
      KeyBagPerm(init, b[..i] + b[i + 1..], key);
      KeyBagSplit(b[..i], b[i + 1..], key);
      KeyBagSplit(b[..i] + [x], b[i + 1..], key);
      KeyBagSplit(b[..i], [x], key);
    }
  }

  lemma {:induction false} OutKeysBag(recs: seq<OutRec>)
    ensures multiset(OutKeys(recs)) == KeyBag(recs, (r: OutRec) => r.op)
  {
    if recs != [] {
      OutKeysBag(recs[..|recs| - 1]);
      assert OutKeys(recs) == OutKeys(recs[..|recs| - 1]) + [recs[|recs| - 1].op];
    }
  }

  lemma {:induction false} SpendKeysBag(recs: seq<SpendRec>)
    ensures multiset(SpendKeys(recs)) == KeyBag(recs, (r: SpendRec) => r.prev)
  {
    if recs != [] {
      SpendKeysBag(recs[..|recs| - 1]);
      assert SpendKeys(recs) == SpendKeys(recs[..|recs| - 1]) + [recs[|recs| - 1].prev];
    }
  }

  lemma DistinctBag(s: seq<Outpoint>)
    requires Distinct(s)
    ensures multiset(s) == multiset(Elems(s))
  {
    if s != [] {
      var init, x := s[..|s| - 1], s[|s| - 1];
      assert s == init + [x];
      DistinctBag(init);
      assert x !in Elems(init);
      assert Elems(s) == Elems(init) + {x};
    }
  }

  lemma {:induction false} BagDistinct(s: seq<Outpoint>, keys: set<Outpoint>)
    requires multiset(s) == multiset(keys)
    ensures Distinct(s) && Elems(s) == keys
  {
    if s != [] {
      var init, x := s[..|s| - 1], s[|s| - 1];
      assert s == init + [x];
      assert x in multiset(keys);
      assert multiset(init) == multiset(s) - multiset{x};
      assert multiset(keys - {x}) == multiset(keys) - multiset{x};
      BagDistinct(init, keys - {x});
      assert x !in Elems(init);
      assert Elems(s) == Elems(init) + {x};
      forall i, j | 0 <= i < j < |s| ensures s[i] != s[j] {
        assert s[i] in Elems(init);
        if j < |init| {
          assert init[i] != init[j];
        }
      }
    } else {
      assert |multiset(keys)| == 0;
      assert keys == {};
    }
  }

  lemma KeptRecords(out: seq<OutRec>, recs: seq<OutRec>, coins: map<Outpoint, Coin>, live: map<Outpoint, Coin>)
    requires Lists(recs, coins) && forall r :: r in out ==> r in recs
    requires Distinct(OutKeys(out)) && Elems(OutKeys(out)) == live.Keys
    requires forall op :: op in live ==> op in coins && live[op] == coins[op]
    ensures Lists(out, live)
  {
    forall i | 0 <= i < |out| ensures out[i].op in live && live[out[i].op] == out[i].coin {
      assert out[i] in recs;
      var j :| 0 <= j < |recs| && recs[j] == out[i];
      assert OutKeys(out)[i] in Elems(OutKeys(out));
    }
  }

  /** For every valid chain, sorting the two streams by key and joining them leaves exactly the coins
      of replaying the chain in consensus order, which are also the live index's: each once, with its
      script, value, height and coinbase flag, and no spend without its output. */
  lemma JoinIsReplay(c: seq<Block>, left: seq<OutRec>, right: seq<SpendRec>, out: seq<OutRec>)
    requires ValidChain(c)
    requires multiset(left) == multiset(ChainOutputs(c)) && multiset(right) == multiset(ChainSpends(c))
    requires multiset(OutKeys(out)) == multiset(OutKeys(left)) - multiset(SpendKeys(right))
    requires forall r :: r in out ==> r in left
    ensures Lists(out, Replay(c)) && Replay(c) == IndexOf(c).utxo
    ensures multiset(SpendKeys(right)) - multiset(OutKeys(left)) == multiset{}
  {
    hide ValidChain, IndexOf, Replay, ChainOutputs, ChainSpends, AllCreated, Lists, Distinct, OutKeys, SpendKeys, KeyBag;
    IndexCoinsAreReplay(c);
    ChainTwoStreams(c);
    var created, spent := AllCreated(c), SpendKeys(ChainSpends(c));
    KeyBagPerm(left, ChainOutputs(c), (r: OutRec) => r.op);
    KeyBagPerm(right, ChainSpends(c), (r: SpendRec) => r.prev);
    OutKeysBag(left);
    OutKeysBag(ChainOutputs(c));
    SpendKeysBag(right);
    SpendKeysBag(ChainSpends(c));
    ListsKeys(ChainOutputs(c), created);
    DistinctBag(OutKeys(ChainOutputs(c)));
    DistinctBag(spent);
    BagDistinct(OutKeys(out), created.Keys - Elems(spent));
    SameMembers(out, left, ChainOutputs(c));
    KeptRecords(out, ChainOutputs(c), created, created - Elems(spent));
  }

  lemma ListsKeys(recs: seq<OutRec>, coins: map<Outpoint, Coin>)
    requires Lists(recs, coins)
    ensures Distinct(OutKeys(recs)) && Elems(OutKeys(recs)) == coins.Keys
  {
  }

  lemma SameMembers(out: seq<OutRec>, left: seq<OutRec>, recs: seq<OutRec>)
    requires multiset(left) == multiset(recs) && forall r :: r in out ==> r in left
    ensures forall r :: r in out ==> r in recs
  {
    forall r | r in out ensures r in recs {
      assert r in multiset(left);
    }
  }

  /** The whole bulk path: dump the chain, sort both streams, join them. */
  method BulkUtxos(c: seq<Block>, left: seq<OutRec>, right: seq<SpendRec>) returns (out: seq<OutRec>, counts: Counts)
    requires ValidChain(c)
    requires multiset(left) == multiset(ChainOutputs(c)) && multiset(right) == multiset(ChainSpends(c))
    requires SortedKeys(OutKeys(left)) && SortedKeys(SpendKeys(right))
    ensures Lists(out, Replay(c)) && counts.orphanSpends == 0
    ensures counts.emitted == |Replay(c)|
  {
    out, counts := JoinRecords(left, right);
    JoinIsReplay(c, left, right, out);
    ListsCount(out, Replay(c));
  }

  lemma ListsCount(recs: seq<OutRec>, coins: map<Outpoint, Coin>)
    requires Lists(recs, coins)
    ensures |recs| == |coins|
  {
    DistinctBag(OutKeys(recs));
    assert |multiset(OutKeys(recs))| == |recs|;
    assert |multiset(coins.Keys)| == |coins.Keys|;
  }
}
