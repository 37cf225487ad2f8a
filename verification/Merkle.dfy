/** Rebuilding a merkle root, and what the duplicate-pair flag is for. */
module Merkle {
  import opened Chain

  // The double hash is the free constructor `Pair`, so it is injective and no transaction hash is one.
  datatype Digest =
    | Leaf(tx: Txid)
    | Pair(left: Digest, right: Digest)
    | Opaque(n: nat)          // any other 32 bytes a header may carry

  /** The next level up; an odd last element is paired with itself. */
  function Level(xs: seq<Digest>): (r: seq<Digest>)
    ensures |r| == (|xs| + 1) / 2
  {
    if |xs| == 0 then []
    else if |xs| == 1 then [Pair(xs[0], xs[0])]
    else [Pair(xs[0], xs[1])] + Level(xs[2..])
  }

  /** Two different positions of a level are paired although their hashes are equal. */
  predicate PairsEqual(xs: seq<Digest>) {
    |xs| >= 2 && (xs[0] == xs[1] || PairsEqual(xs[2..]))
  }

  function Root(xs: seq<Digest>): Digest
    requires xs != []
    decreases |xs|
  {
    if |xs| == 1 then xs[0] else Root(Level(xs))
  }

  predicate Mutated(xs: seq<Digest>)
    decreases |xs|
  {
    |xs| >= 2 && (PairsEqual(xs) || Mutated(Level(xs)))
  }

  lemma {:induction false} LevelAt(xs: seq<Digest>, k: nat)
    requires 2 * k < |xs|
    ensures k < |Level(xs)|
    ensures Level(xs)[k] == Pair(xs[2 * k], if 2 * k + 1 < |xs| then xs[2 * k + 1] else xs[2 * k])
  {
    if k > 0 {
      LevelAt(xs[2..], k - 1);
    }
  }

  lemma {:induction false} PairsEqualAt(xs: seq<Digest>)
    ensures PairsEqual(xs) <==> exists k: nat {:trigger xs[2 * k]} :: 2 * k + 1 < |xs| && xs[2 * k] == xs[2 * k + 1]
  {
    if |xs| >= 2 {
      PairsEqualAt(xs[2..]);
      if PairsEqual(xs) && xs[0] != xs[1] {
        var k: nat :| 2 * k + 1 < |xs[2..]| && xs[2..][2 * k] == xs[2..][2 * k + 1];
        assert xs[2 * (k + 1)] == xs[2 * (k + 1) + 1];
      }
      if k: nat :| 2 * k + 1 < |xs| && xs[2 * k] == xs[2 * k + 1] && k > 0 {
        assert xs[2..][2 * (k - 1)] == xs[2..][2 * (k - 1) + 1];
      }
      if k: nat :| 2 * k + 1 < |xs| && xs[2 * k] == xs[2 * k + 1] && k == 0 {
        assert xs[0] == xs[1];
      }
    }
  }

  method NextLevel(level: seq<Digest>) returns (next: seq<Digest>, equalPair: bool)
    ensures next == Level(level) && equalPair == PairsEqual(level)
  {
    next, equalPair := [], false;
    var i := 0;
    ghost var rest := level;
    while i < |level|
      invariant i <= |level| ==> rest == level[i..]
      invariant i > |level| ==> rest == []
      invariant Level(level) == next + Level(rest)
      invariant PairsEqual(level) == (equalPair || PairsEqual(rest))
      decreases |level| - i
    {
      var left := level[i];
      var right := if i + 1 < |level| then level[i + 1] else left;
      if i + 1 < |level| && left == right {
        equalPair := true;
      }
      next := next + [Pair(left, right)];
      rest := if |rest| > 1 then rest[2..] else [];
      i := i + 2;
    }
  }

  method ComputeMerkleRoot(txHashes: seq<Digest>) returns (root: Digest, mutated: bool)
    requires txHashes != []
    ensures root == Root(txHashes) && mutated == Mutated(txHashes)
  {
    mutated := false;
    var level := txHashes;
    while |level| > 1
      invariant level != [] && Root(level) == Root(txHashes)
      invariant Mutated(txHashes) == (mutated || Mutated(level))
      decreases |level|
    {
      var next, equalPair := NextLevel(level);
      mutated := mutated || equalPair;
      level := next;
    }
    root := level[0];
  }

  // ----- why the flag makes the root binding

  function Depth(d: Digest): nat {
    if d.Pair? then 1 + Depth(d.left) else 0
  }

  predicate AtDepth(xs: seq<Digest>, n: nat) {
    forall i :: 0 <= i < |xs| ==> Depth(xs[i]) == n
  }

  lemma LevelDepth(xs: seq<Digest>, n: nat)
    requires AtDepth(xs, n)
    ensures AtDepth(Level(xs), n + 1)
  {
    forall k | 0 <= k < |Level(xs)| ensures Depth(Level(xs)[k]) == n + 1 {
      LevelAt(xs, k);
    }
  }

  lemma {:induction false} RootDepth(xs: seq<Digest>, n: nat)
    requires xs != [] && AtDepth(xs, n)
    ensures Depth(Root(xs)) >= n && (|xs| > 1 ==> Depth(Root(xs)) > n)
    decreases |xs|
  {
    if |xs| > 1 {
      LevelDepth(xs, n);
      RootDepth(Level(xs), n + 1);
    }
  }

  /** One level binds the level below it, when neither has an equal pair. */
  lemma LevelBinds(xs: seq<Digest>, ys: seq<Digest>)
    requires !PairsEqual(xs) && !PairsEqual(ys) && Level(xs) == Level(ys)
    ensures xs == ys
  {
    PairsEqualAt(xs);
    PairsEqualAt(ys);
    if |xs| != |ys| {
      var k := |Level(xs)| - 1;
      LevelAt(xs, k);
      LevelAt(ys, k);
    }
    forall i | 0 <= i < |xs| ensures xs[i] == ys[i] {
      LevelAt(xs, i / 2);
      LevelAt(ys, i / 2);
      assert i == 2 * (i / 2) || i == 2 * (i / 2) + 1;
    }
  }

  lemma {:induction false} RootBindsAt(xs: seq<Digest>, ys: seq<Digest>, n: nat)
    requires xs != [] && ys != [] && AtDepth(xs, n) && AtDepth(ys, n)
    requires !Mutated(xs) && !Mutated(ys) && Root(xs) == Root(ys)
    ensures xs == ys
    decreases |xs|
  {
    RootDepth(xs, n);
    RootDepth(ys, n);
    if |xs| > 1 {
      LevelDepth(xs, n);
      LevelDepth(ys, n);
      RootBindsAt(Level(xs), Level(ys), n + 1);
      LevelBinds(xs, ys);
    }
  }

  function Leaves(txids: seq<Txid>): (r: seq<Digest>)
    ensures |r| == |txids| && forall i :: 0 <= i < |r| ==> r[i] == Leaf(txids[i])
  {
    seq(|txids|, i requires 0 <= i < |txids| => Leaf(txids[i]))
  }

  /** Two transaction lists with one root, neither of them flagged, are the same list, whatever their lengths. */
  lemma RootBindsList(a: seq<Txid>, b: seq<Txid>)
    requires a != [] && b != []
    requires Root(Leaves(a)) == Root(Leaves(b)) && !Mutated(Leaves(a)) && !Mutated(Leaves(b))
    ensures a == b
  {
    RootBindsAt(Leaves(a), Leaves(b), 0);
    forall i | 0 <= i < |a| ensures |a| == |b| && a[i] == b[i] {
      assert Leaves(a)[i] == Leaves(b)[i];
    }
  }

  lemma {:induction false} LevelDistinct(xs: seq<Digest>)
    requires Distinct(xs)
    ensures Distinct(Level(xs)) && !PairsEqual(xs)
  {
    PairsEqualAt(xs);
    forall i, j | 0 <= i < j < |Level(xs)| ensures Level(xs)[i] != Level(xs)[j] {
      LevelAt(xs, i);
      LevelAt(xs, j);
    }
  }

  /** A list of different transactions is never flagged: pairing an odd last element with itself, at any
      level, does not count as a duplicate. */
  lemma {:induction false} DistinctNeverFlagged(xs: seq<Digest>)
    requires Distinct(xs)
    ensures !Mutated(xs)
    decreases |xs|
  {
    if |xs| >= 2 {
      LevelDistinct(xs);
      DistinctNeverFlagged(Level(xs));
    }
  }

  lemma {:induction false} LevelOddTail(xs: seq<Digest>)
    requires |xs| % 2 == 1
    ensures Level(xs) == Level(xs + [xs[|xs| - 1]])
    ensures PairsEqual(xs + [xs[|xs| - 1]])
    decreases |xs|
  {
    var ys := xs + [xs[|xs| - 1]];
    if |xs| == 1 {
      assert ys[2..] == [];
    } else {
      assert ys[2..] == xs[2..] + [xs[2..][|xs[2..]| - 1]];
      LevelOddTail(xs[2..]);
      assert ys[0] == xs[0] && ys[1] == xs[1];
    }
  }

  /** Without the flag the root would not bind the list: repeating an odd list's last transaction keeps
      the root, and the longer list is always flagged. */
  lemma OddTailSameRoot(xs: seq<Digest>)
    requires |xs| % 2 == 1 && |xs| > 1
    ensures Root(xs + [xs[|xs| - 1]]) == Root(xs) && Mutated(xs + [xs[|xs| - 1]])
  {
    LevelOddTail(xs);
  }
}
