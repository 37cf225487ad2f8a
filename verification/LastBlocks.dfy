/** Reading the undo window back from the store: its entries, put in ascending height order. */
module LastBlocks {
  import opened Chain
  import opened Index
  import opened Ledger
  import opened StoreKeys

  function GetBlock(db: Db, bh: BlockHash): Option<BlockRec> {
    if B(bh) in db && db[B(bh)].VBlock? then Some(db[B(bh)].rec) else None
  }

  /** A stored block's height, or -1 when it has no block record. */
  function HeightOf(db: Db, bh: BlockHash): int {
    var rec := GetBlock(db, bh);
    if rec.Some? then rec.value.height else -1
  }

  function StoredBlocks(db: Db): set<BlockHash> {
    set k | k in db && k.N? :: k.bh
  }

  predicate Ascending(db: Db, s: seq<BlockHash>) {
    forall i, j :: 0 <= i < j < |s| ==> HeightOf(db, s[i]) <= HeightOf(db, s[j])
  }

  /** Puts a hash after every stored one that is not higher. */
  function InsertByHeight(db: Db, s: seq<BlockHash>, x: BlockHash): (r: seq<BlockHash>)
    ensures |r| == |s| + 1
  {
    if s == [] || HeightOf(db, s[|s| - 1]) <= HeightOf(db, x) then s + [x]
    else InsertByHeight(db, s[..|s| - 1], x) + [s[|s| - 1]]
  }

  lemma AppendLast(db: Db, s: seq<BlockHash>, last: BlockHash)
    requires Ascending(db, s) && forall y :: y in s ==> HeightOf(db, y) <= HeightOf(db, last)
    ensures Ascending(db, s + [last])
  {
    hide HeightOf;
    assert forall i :: 0 <= i < |s| ==> s[i] in s;
  }

  lemma InsertMembers(s: seq<BlockHash>, r: seq<BlockHash>, x: BlockHash)
    requires multiset(r) == multiset(s) + multiset{x}
    ensures forall y :: y in r <==> y in s || y == x
  {
    forall y ensures y in r <==> y in s || y == x {
      assert y in r <==> y in multiset(r);
    }
  }

  lemma {:induction false} InsertKeeps(db: Db, s: seq<BlockHash>, x: BlockHash)
    requires Ascending(db, s)
    ensures Ascending(db, InsertByHeight(db, s, x))
    ensures multiset(InsertByHeight(db, s, x)) == multiset(s) + multiset{x}
    decreases |s|
  {
    hide HeightOf;
    if s == [] || HeightOf(db, s[|s| - 1]) <= HeightOf(db, x) {
    } else {
      var init, last := s[..|s| - 1], s[|s| - 1];
      assert s == init + [last];
      InsertKeeps(db, init, x);
      InsertMembers(init, InsertByHeight(db, init, x), x);
      AppendLast(db, InsertByHeight(db, init, x), last);
    }
  }

  lemma TwiceCounted<T>(s: seq<T>, i: nat, j: nat)
    requires i < j < |s| && s[i] == s[j]
    ensures multiset(s)[s[i]] >= 2
  {
    assert s == s[..i] + [s[i]] + s[i + 1..j] + [s[j]] + s[j + 1..];
  }

  lemma DistinctByCount<T>(s: seq<T>)
    requires forall x :: multiset(s)[x] <= 1
    ensures Distinct(s)
  {
    forall i, j | 0 <= i < j < |s| ensures s[i] != s[j] {
      if s[i] == s[j] {
        TwiceCounted(s, i, j);
      }
    }
  }

  /** Every stored hash once, lowest first. */
  method LoadLastBlocksSortedByHeight(db: Db) returns (r: seq<BlockHash>)
    ensures Elems(r) == StoredBlocks(db) && Distinct(r) && Ascending(db, r)
  {
    var todo := StoredBlocks(db);
    ghost var all := todo;
    r := [];
    while todo != {}
      invariant todo <= all && Ascending(db, r)
      invariant multiset(r) == multiset(all - todo)
      decreases |todo|
    {
      var hash :| hash in todo;
      InsertKeeps(db, r, hash);
      r := InsertByHeight(db, r, hash);
      assert all - (todo - {hash}) == (all - todo) + {hash};
      todo := todo - {hash};
    }
    assert all - todo == all;
    DistinctByCount(r);
    forall x ensures x in r <==> x in all {
      assert x in r <==> x in multiset(r);
    }
  }

  ghost predicate Spans(s: seq<int>, lo: int, hi: int) {
    && (forall i, j :: 0 <= i < j < |s| ==> s[i] < s[j])
    && (forall x :: lo <= x < hi <==> x in s)
  }

  lemma DropTop(s: seq<int>, init: seq<int>, last: int, lo: int, hi: int)
    requires lo < hi && s == init + [last] && Spans(s, lo, hi)
    ensures last == hi - 1 && Spans(init, lo, hi - 1)
  {
    assert s[|init|] == last;
    assert last in s && hi - 1 in s;
    forall x | x in init ensures lo <= x < last {
      var i :| 0 <= i < |init| && init[i] == x;
      assert s[i] == x && s[i] in s;
    }
    assert last == hi - 1;
    forall x | lo <= x < hi - 1 ensures x in init {
      assert x in s;
    }
    assert forall i, j :: 0 <= i < j < |init| ==> init[i] == s[i] && init[j] == s[j];
  }

  /** Strictly rising integers filling a range are that range in order. */
  lemma {:induction false} StrictRange(s: seq<int>, lo: int, hi: int)
    requires lo <= hi && Spans(s, lo, hi)
    ensures |s| == hi - lo && forall i :: 0 <= i < |s| ==> s[i] == lo + i
    decreases hi - lo
  {
    if s == [] {
      assert lo < hi ==> lo in s;
    } else {
      assert s[0] in s;
      var init, last := s[..|s| - 1], s[|s| - 1];
      assert s == init + [last];
      DropTop(s, init, last, lo, hi);
      StrictRange(init, lo, hi - 1);
      assert forall i :: 0 <= i < |init| ==> init[i] == s[i];
    }
  }

  lemma RecordAt(c: seq<Block>, from: nat, i: nat)
    requires ValidChain(c) && from <= |c| && i < |c|
    ensures At(Windowed(c, from), B(c[i].hash)) == Some(VBlock(BlockRec(i, c[i].timestamp, c[i].prevHash)))
  {
    hide ValidChain, IndexOf, Described, HashSet;
    ChainDescribed(c);
    RecAt(c, IndexOf(c), i);
  }

  lemma RecAt(c: seq<Block>, ix: Index, i: nat)
    requires i < |c| && Described(c, ix)
    ensures c[i].hash in ix.blocks && ix.blocks[c[i].hash] == BlockRec(i, c[i].timestamp, c[i].prevHash)
  {
    assert RecsMatch(c, ix.blocks);
  }

  lemma WindowHeights(db: Db, c: seq<Block>, from: nat, i: nat)
    requires ValidChain(c) && from <= |c| && Holds(db, Windowed(c, from)) && i < |c|
    ensures GetBlock(db, c[i].hash) == Some(BlockRec(i, c[i].timestamp, c[i].prevHash))
  {
    RecordAt(c, from, i);
    assert Get(db, B(c[i].hash)) == At(Windowed(c, from), B(c[i].hash));
    hide Holds, Windowed, ValidChain, At;
  }

  lemma StoredAt(db: Db, ix: Index, bh: BlockHash)
    requires Holds(db, ix)
    ensures bh in StoredBlocks(db) <==> bh in ix.window
  {
    assert Get(db, N(bh)) == At(ix, N(bh));
    assert N(bh) in db <==> bh in StoredBlocks(db);
  }

  lemma WindowStored(db: Db, c: seq<Block>, from: nat)
    requires ValidChain(c) && from <= |c| && Holds(db, Windowed(c, from))
    ensures StoredBlocks(db) == HashSet(c[from..])
  {
    WindowIsSuffix(c, from);
    hide Windowed, ValidChain, HashSet, Holds, StoredBlocks;
    forall bh ensures bh in StoredBlocks(db) <==> bh in HashSet(c[from..]) {
      StoredAt(db, Windowed(c, from), bh);
    }
  }

  lemma HeightsCover(db: Db, c: seq<Block>, from: nat, r: seq<BlockHash>, heights: seq<int>)
    requires from <= |c| && |heights| == |r|
    requires forall i :: 0 <= i < |c| ==> HeightOf(db, c[i].hash) == i
    requires Elems(r) == HashSet(c[from..]) && Distinct(r) && Ascending(db, r)
    requires forall k :: 0 <= k < |r| ==> heights[k] == HeightOf(db, r[k])
    ensures forall x :: from <= x < |c| <==> x in heights
    ensures forall k :: 0 <= k < |r| ==> 0 <= heights[k] < |c| && c[heights[k]].hash == r[k]
  {
    forall k | 0 <= k < |r| ensures from <= heights[k] < |c| && c[heights[k]].hash == r[k] {
      assert r[k] in Elems(r);
      var b :| b in c[from..] && b.hash == r[k];
      var j :| from <= j < |c| && c[j] == b;
    }
    forall x | from <= x < |c| ensures x in heights {
      assert c[from..][x - from] == c[x];
      assert c[x].hash in HashSet(c[from..]);
      var k :| 0 <= k < |r| && r[k] == c[x].hash;
      assert heights[k] == x;
    }
  }

  /** Read back from disk, the window is the chain's last blocks in order, the tip last. */
  lemma LoadedWindow(db: Db, c: seq<Block>, from: nat, r: seq<BlockHash>)
    requires ValidChain(c) && from <= |c| && Holds(db, Windowed(c, from))
    requires Elems(r) == StoredBlocks(db) && Distinct(r) && Ascending(db, r)
    ensures r == Hashes(c[from..])
  {
    forall i | 0 <= i < |c| ensures HeightOf(db, c[i].hash) == i {
      WindowHeights(db, c, from, i);
    }
    WindowStored(db, c, from);
    hide Holds, Windowed, ValidChain, HashSet, StoredBlocks, HeightOf, Elems;
    var heights := seq(|r|, k requires 0 <= k < |r| => HeightOf(db, r[k]));
    HeightsCover(db, c, from, r, heights);
    StrictRange(heights, from, |c|);
  }
}
