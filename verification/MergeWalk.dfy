/** Comparing two databases by walking both in key order, as the validator and the migration's verify do.

    The walk keeps one entry of each side in hand and advances the side with the smaller key, or both when the
    keys are equal. Every key falls into one of four classes: on the left only, on the right only, in both with
    one value, in both with different values. The verdict is OK when only the third has any. */
module MergeWalk {
  import opened ByteCodec

  datatype Entry = Entry(key: Bytes, value: Bytes)
  datatype Counts = Counts(matches: nat, diffs: nat, missing: nat, extra: nat)
  datatype Difference =
    | Diff(key: Bytes, truth: Bytes, candidate: Bytes)
    | MissingKey(key: Bytes, value: Bytes)
    | ExtraKey(key: Bytes, value: Bytes)

  const NONE := Counts(0, 0, 0, 0)

  predicate Sorted(s: seq<Entry>) {
    forall i, j :: 0 <= i < j < |s| ==> Compare(s[i].key, s[j].key) < 0
  }

  // ----- what a stream holds

  function Keys(s: seq<Entry>, n: nat): set<Bytes>
    requires n <= |s|
  {
    set i | 0 <= i < n :: s[i].key
  }

  lemma SortedOnce(s: seq<Entry>)
    requires Sorted(s)
    ensures forall i, j :: 0 <= i < |s| && 0 <= j < |s| && s[i].key == s[j].key ==> i == j
  {
    forall i, j | 0 <= i < |s| && 0 <= j < |s| && s[i].key == s[j].key ensures i == j {
      CompareTotal(s[i].key, s[j].key);
    }
  }

  /** The database a sorted stream lists. */
  function MapOf(s: seq<Entry>): map<Bytes, Bytes>
    requires Sorted(s)
  {
    SortedOnce(s);
    map i | 0 <= i < |s| :: s[i].key := s[i].value
  }

  lemma MapOfAt(s: seq<Entry>, i: nat)
    requires Sorted(s) && i < |s|
    ensures s[i].key in MapOf(s) && MapOf(s)[s[i].key] == s[i].value
  {
    SortedOnce(s);
  }

  lemma MapOfKeys(s: seq<Entry>)
    requires Sorted(s)
    ensures MapOf(s).Keys == Keys(s, |s|)
  {
    SortedOnce(s);
  }

  // ----- the four classes

  function Same(a: map<Bytes, Bytes>, b: map<Bytes, Bytes>): set<Bytes> {
    set k | k in a && k in b && a[k] == b[k]
  }

  function Different(a: map<Bytes, Bytes>, b: map<Bytes, Bytes>): set<Bytes> {
    set k | k in a && k in b && a[k] != b[k]
  }

  /** Keys whose record type, their first byte, is `p`; an empty key has none. */
  function OfPrefix(keys: set<Bytes>, p: Bytes): set<Bytes> {
    set k | k in keys && k[..Least(1, |k|)] == p
  }

  function Least(a: nat, b: nat): nat {
    if a <= b then a else b
  }

  function PrefixOf(k: Bytes): Bytes {
    k[..Least(1, |k|)]
  }

  function CountAt(stats: map<Bytes, Counts>, p: Bytes): Counts {
    if p in stats then stats[p] else NONE
  }

  /** The counters count these four classes, prefix by prefix. */
  ghost predicate Counted(stats: map<Bytes, Counts>, same: set<Bytes>, diff: set<Bytes>, missing: set<Bytes>, extra: set<Bytes>) {
    forall p :: CountAt(stats, p) ==
      Counts(|OfPrefix(same, p)|, |OfPrefix(diff, p)|, |OfPrefix(missing, p)|, |OfPrefix(extra, p)|)
  }

  lemma OneMore(keys: set<Bytes>, k: Bytes, p: Bytes)
    requires k !in keys
    ensures |OfPrefix(keys + {k}, p)| == |OfPrefix(keys, p)| + (if PrefixOf(k) == p then 1 else 0)
  {
    if PrefixOf(k) == p {
      assert OfPrefix(keys + {k}, p) == OfPrefix(keys, p) + {k};
    } else {
      assert OfPrefix(keys + {k}, p) == OfPrefix(keys, p);
    }
  }

  datatype Class = IsSame | IsDiff | IsMissing | IsExtra

  function Bump(stats: map<Bytes, Counts>, p: Bytes, c: Class): map<Bytes, Counts> {
    var n := CountAt(stats, p);
    stats[p := match c
               case IsSame => n.(matches := n.matches + 1)
               case IsDiff => n.(diffs := n.diffs + 1)
               case IsMissing => n.(missing := n.missing + 1)
               case IsExtra => n.(extra := n.extra + 1)]
  }

  function With(keys: set<Bytes>, k: Bytes, add: bool): set<Bytes> {
    if add then keys + {k} else keys
  }

  lemma Bumped(stats: map<Bytes, Counts>, same: set<Bytes>, diff: set<Bytes>, missing: set<Bytes>, extra: set<Bytes>,
               k: Bytes, c: Class)
    requires Counted(stats, same, diff, missing, extra)
    requires k !in same && k !in diff && k !in missing && k !in extra
    ensures Counted(Bump(stats, PrefixOf(k), c), With(same, k, c.IsSame?), With(diff, k, c.IsDiff?),
                    With(missing, k, c.IsMissing?), With(extra, k, c.IsExtra?))
  {
    var stats' := Bump(stats, PrefixOf(k), c);
    hide OfPrefix;
    forall p ensures CountAt(stats', p) ==
      Counts(|OfPrefix(With(same, k, c.IsSame?), p)|, |OfPrefix(With(diff, k, c.IsDiff?), p)|,
             |OfPrefix(With(missing, k, c.IsMissing?), p)|, |OfPrefix(With(extra, k, c.IsExtra?), p)|)
    {
      OneMore(same, k, p);
      OneMore(diff, k, p);
      OneMore(missing, k, p);
      OneMore(extra, k, p);
    }
  }

  /** A reported difference is one. */
  ghost predicate DifferenceTrue(a: map<Bytes, Bytes>, b: map<Bytes, Bytes>, d: Difference) {
    match d
    case Diff(k, truth, candidate) => k in a && k in b && a[k] == truth && b[k] == candidate && truth != candidate
    case MissingKey(k, v) => k in a && k !in b && a[k] == v
    case ExtraKey(k, v) => k !in a && k in b && b[k] == v
  }

  /** The classes of the keys both streams have passed. */
  ghost predicate Classed(a: map<Bytes, Bytes>, b: map<Bytes, Bytes>, pastA: set<Bytes>, pastB: set<Bytes>,
                          same: set<Bytes>, diff: set<Bytes>, missing: set<Bytes>, extra: set<Bytes>) {
    && same + diff == pastA * pastB && same !! diff
    && (forall k :: k in same ==> k in a && k in b && a[k] == b[k])
    && (forall k :: k in diff ==> k in a && k in b && a[k] != b[k])
    && missing == pastA - pastB && extra == pastB - pastA
  }

  /** What one stream has passed is below what is left of the other. */
  ghost predicate Frontier(a: seq<Entry>, b: seq<Entry>, i: nat, j: nat) {
    && i <= |a| && j <= |b|
    && (forall x, y :: 0 <= x < i && j <= y < |b| ==> Compare(a[x].key, b[y].key) < 0)
    && (forall x, y :: i <= x < |a| && 0 <= y < j ==> Compare(b[y].key, a[x].key) < 0)
  }

  ghost predicate Walked(a: seq<Entry>, b: seq<Entry>, i: nat, j: nat,
                         same: set<Bytes>, diff: set<Bytes>, missing: set<Bytes>, extra: set<Bytes>)
    requires Sorted(a) && Sorted(b) && i <= |a| && j <= |b|
  {
    Frontier(a, b, i, j) && Classed(MapOf(a), MapOf(b), Keys(a, i), Keys(b, j), same, diff, missing, extra)
  }

  lemma ClassBoth(a: map<Bytes, Bytes>, b: map<Bytes, Bytes>, pastA: set<Bytes>, pastB: set<Bytes>,
                  same: set<Bytes>, diff: set<Bytes>, missing: set<Bytes>, extra: set<Bytes>, k: Bytes)
    requires Classed(a, b, pastA, pastB, same, diff, missing, extra)
    requires k in a && k in b && k !in pastA && k !in pastB
    ensures Classed(a, b, pastA + {k}, pastB + {k}, With(same, k, a[k] == b[k]), With(diff, k, a[k] != b[k]), missing, extra)
    ensures k !in same && k !in diff && k !in missing && k !in extra
  {
  }

  lemma FrontierBoth(a: seq<Entry>, b: seq<Entry>, i: nat, j: nat)
    requires Sorted(a) && Sorted(b) && Frontier(a, b, i, j) && i < |a| && j < |b| && a[i].key == b[j].key
    ensures Frontier(a, b, i + 1, j + 1)
    ensures a[i].key !in Keys(a, i) && a[i].key !in Keys(b, j)
  {
    KeyNotYet(a, i);
    KeyNotYet(b, j);
    hide Keys, Compare;
    assert forall y :: j < y < |b| ==> Compare(a[i].key, b[y].key) < 0;
    assert forall x :: i < x < |a| ==> Compare(b[j].key, a[x].key) < 0;
  }

  lemma KeysMore(s: seq<Entry>, i: nat)
    requires i < |s|
    ensures Keys(s, i + 1) == Keys(s, i) + {s[i].key}
  {
  }

  lemma KeyNotYet(s: seq<Entry>, i: nat)
    requires Sorted(s) && i < |s|
    ensures s[i].key !in Keys(s, i)
  {
    SortedOnce(s);
  }

  lemma BelowNotIn(s: seq<Entry>, j: nat, k: Bytes)
    requires j <= |s| && forall y :: 0 <= y < j ==> Compare(s[y].key, k) < 0
    ensures k !in Keys(s, j)
  {
    forall y | 0 <= y < j ensures s[y].key != k {
      CompareTotal(s[y].key, k);
    }
  }

  /** A head below the other stream's head is below all that is left of it. */
  lemma HeadBelow(k: Bytes, s: seq<Entry>, j: nat)
    requires Sorted(s) && (j < |s| ==> Compare(k, s[j].key) < 0)
    ensures forall y :: j <= y < |s| ==> Compare(k, s[y].key) < 0
  {
    forall y | j <= y < |s| ensures Compare(k, s[y].key) < 0 {
      if y > j {
        CompareTrans(k, s[j].key, s[y].key);
      }
    }
  }

  lemma ClassOne(a: map<Bytes, Bytes>, b: map<Bytes, Bytes>, pastA: set<Bytes>, pastB: set<Bytes>,
                 same: set<Bytes>, diff: set<Bytes>, missing: set<Bytes>, extra: set<Bytes>, k: Bytes)
    requires Classed(a, b, pastA, pastB, same, diff, missing, extra) && k !in pastA && k !in pastB
    ensures Classed(a, b, pastA + {k}, pastB, same, diff, missing + {k}, extra)
    ensures Classed(a, b, pastA, pastB + {k}, same, diff, missing, extra + {k})
    ensures k !in same && k !in diff && k !in missing && k !in extra
  {
  }

  lemma FrontierA(a: seq<Entry>, b: seq<Entry>, i: nat, j: nat)
    requires Sorted(a) && Sorted(b) && Frontier(a, b, i, j)
    requires i < |a| && (j < |b| ==> Compare(a[i].key, b[j].key) < 0)
    ensures Frontier(a, b, i + 1, j) && a[i].key !in Keys(a, i) && a[i].key !in Keys(b, j)
  {
    KeyNotYet(a, i);
    BelowNotIn(b, j, a[i].key);
    HeadBelow(a[i].key, b, j);
    hide Keys, Compare;
  }

  lemma FrontierB(a: seq<Entry>, b: seq<Entry>, i: nat, j: nat)
    requires Sorted(a) && Sorted(b) && Frontier(a, b, i, j)
    requires j < |b| && (i < |a| ==> Compare(b[j].key, a[i].key) < 0)
    ensures Frontier(a, b, i, j + 1) && b[j].key !in Keys(b, j) && b[j].key !in Keys(a, i)
  {
    KeyNotYet(b, j);
    BelowNotIn(a, i, b[j].key);
    HeadBelow(b[j].key, a, i);
    hide Keys, Compare;
  }

  lemma TakeMissing(a: seq<Entry>, b: seq<Entry>, i: nat, j: nat,
                    same: set<Bytes>, diff: set<Bytes>, missing: set<Bytes>, extra: set<Bytes>)
    requires Sorted(a) && Sorted(b) && i <= |a| && j <= |b| && Walked(a, b, i, j, same, diff, missing, extra)
    requires i < |a| && (j < |b| ==> Compare(a[i].key, b[j].key) < 0)
    ensures Walked(a, b, i + 1, j, same, diff, missing + {a[i].key}, extra)
    ensures a[i].key !in same && a[i].key !in diff && a[i].key !in missing && a[i].key !in extra
  {
    hide Frontier, Classed, Compare, MapOf;
    FrontierA(a, b, i, j);
    KeysMore(a, i);
    ClassOne(MapOf(a), MapOf(b), Keys(a, i), Keys(b, j), same, diff, missing, extra, a[i].key);
  }

  lemma TakeExtra(a: seq<Entry>, b: seq<Entry>, i: nat, j: nat,
                  same: set<Bytes>, diff: set<Bytes>, missing: set<Bytes>, extra: set<Bytes>)
    requires Sorted(a) && Sorted(b) && i <= |a| && j <= |b| && Walked(a, b, i, j, same, diff, missing, extra)
    requires j < |b| && (i < |a| ==> Compare(b[j].key, a[i].key) < 0)
    ensures Walked(a, b, i, j + 1, same, diff, missing, extra + {b[j].key})
    ensures b[j].key !in same && b[j].key !in diff && b[j].key !in missing && b[j].key !in extra
  {
    hide Frontier, Classed, Compare, MapOf;
    FrontierB(a, b, i, j);
    KeysMore(b, j);
    ClassOne(MapOf(a), MapOf(b), Keys(a, i), Keys(b, j), same, diff, missing, extra, b[j].key);
  }

  lemma TakeBoth(a: seq<Entry>, b: seq<Entry>, i: nat, j: nat,
                 same: set<Bytes>, diff: set<Bytes>, missing: set<Bytes>, extra: set<Bytes>)
    requires Sorted(a) && Sorted(b) && i <= |a| && j <= |b| && Walked(a, b, i, j, same, diff, missing, extra)
    requires i < |a| && j < |b| && a[i].key == b[j].key
    ensures var k, equal := a[i].key, a[i].value == b[j].value;
      && Walked(a, b, i + 1, j + 1, With(same, k, equal), With(diff, k, !equal), missing, extra)
      && k !in same && k !in diff && k !in missing && k !in extra
  {
    KeysMore(a, i);
    KeysMore(b, j);
    MapOfAt(a, i);
    MapOfAt(b, j);
    hide Keys, MapOf, Frontier, Classed;
    FrontierBoth(a, b, i, j);
    ClassBoth(MapOf(a), MapOf(b), Keys(a, i), Keys(b, j), same, diff, missing, extra, a[i].key);
  }

  lemma WalkStarts(a: seq<Entry>, b: seq<Entry>)
    requires Sorted(a) && Sorted(b)
    ensures Walked(a, b, 0, 0, {}, {}, {}, {})
  {
  }

  lemma WalkEnds(a: seq<Entry>, b: seq<Entry>, same: set<Bytes>, diff: set<Bytes>, missing: set<Bytes>, extra: set<Bytes>)
    requires Sorted(a) && Sorted(b) && Walked(a, b, |a|, |b|, same, diff, missing, extra)
    ensures same == Same(MapOf(a), MapOf(b)) && diff == Different(MapOf(a), MapOf(b))
    ensures missing == MapOf(a).Keys - MapOf(b).Keys && extra == MapOf(b).Keys - MapOf(a).Keys
  {
    MapOfKeys(a);
    MapOfKeys(b);
    hide Keys, MapOf, Compare;
    forall k | k in MapOf(a) && k in MapOf(b) ensures k in same || k in diff {
      assert k in MapOf(a).Keys * MapOf(b).Keys;
    }
    forall k | k in same + diff ensures k in MapOf(a) && k in MapOf(b) {
    }
  }

  /** The report so far: the counters, and the first differences, as many as there are up to the limit. */
  ghost predicate Reported(a: map<Bytes, Bytes>, b: map<Bytes, Bytes>, stats: map<Bytes, Counts>, diffs: seq<Difference>,
                           limit: nat, same: set<Bytes>, diff: set<Bytes>, missing: set<Bytes>, extra: set<Bytes>) {
    && Counted(stats, same, diff, missing, extra)
    && |diffs| == Least(limit, |diff| + |missing| + |extra|)
    && forall d :: d in diffs ==> DifferenceTrue(a, b, d)
  }

  function Kept(diffs: seq<Difference>, limit: nat, d: Difference): seq<Difference> {
    if |diffs| < limit then diffs + [d] else diffs
  }

  lemma ReportMore(a: map<Bytes, Bytes>, b: map<Bytes, Bytes>, stats: map<Bytes, Counts>, diffs: seq<Difference>,
                   limit: nat, same: set<Bytes>, diff: set<Bytes>, missing: set<Bytes>, extra: set<Bytes>,
                   k: Bytes, c: Class, d: Difference)
    requires Reported(a, b, stats, diffs, limit, same, diff, missing, extra)
    requires k !in same && k !in diff && k !in missing && k !in extra
    requires !c.IsSame? ==> DifferenceTrue(a, b, d)
    ensures Reported(a, b, Bump(stats, PrefixOf(k), c), if c.IsSame? then diffs else Kept(diffs, limit, d), limit,
      With(same, k, c.IsSame?), With(diff, k, c.IsDiff?), With(missing, k, c.IsMissing?), With(extra, k, c.IsExtra?))
  {
    Bumped(stats, same, diff, missing, extra, k, c);
    hide Counted, Bump, DifferenceTrue;
  }

  /** The differences kept are the first ones: in ascending key order, and every other key that differs is
      above them all, with no room left. */
  ghost predicate Firsts(diffs: seq<Difference>, limit: nat, keys: set<Bytes>) {
    && (forall x :: 0 <= x < |diffs| ==> diffs[x].key in keys)
    && (forall x, y :: 0 <= x < y < |diffs| ==> Compare(diffs[x].key, diffs[y].key) < 0)
    && forall k :: k in keys ==>
         || (exists x :: 0 <= x < |diffs| && diffs[x].key == k)
         || (|diffs| == limit && forall x :: 0 <= x < |diffs| ==> Compare(diffs[x].key, k) < 0)
  }

  lemma NoFirsts(limit: nat)
    ensures Firsts([], limit, {})
  {
  }

  lemma FirstsMore(diffs: seq<Difference>, limit: nat, keys: set<Bytes>, d: Difference)
    requires Firsts(diffs, limit, keys) && |diffs| <= limit && forall p :: p in keys ==> Compare(p, d.key) < 0
    ensures Firsts(Kept(diffs, limit, d), limit, keys + {d.key})
  {
    hide Compare;
    var kept := Kept(diffs, limit, d);
    forall k | k in keys + {d.key}
      ensures (exists x :: 0 <= x < |kept| && kept[x].key == k)
        || (|kept| == limit && forall x :: 0 <= x < |kept| ==> Compare(kept[x].key, k) < 0)
    {
      if x :| 0 <= x < |diffs| && diffs[x].key == k {
        assert kept[x].key == k;
      } else if |diffs| < limit {
        assert kept[|diffs|] == d;
      }
    }
  }

  /** The next key is above all keys passed. */
  lemma PastBelow(a: seq<Entry>, b: seq<Entry>, i: nat, j: nat, same: set<Bytes>, diff: set<Bytes>,
                  missing: set<Bytes>, extra: set<Bytes>, k: Bytes)
    requires Sorted(a) && Sorted(b) && i <= |a| && j <= |b| && Walked(a, b, i, j, same, diff, missing, extra)
    requires (i < |a| && k == a[i].key) || (j < |b| && k == b[j].key)
    ensures forall p :: p in diff + missing + extra ==> Compare(p, k) < 0
  {
    hide Compare, MapOf;
    forall p | p in diff + missing + extra ensures Compare(p, k) < 0 {
      assert p in Keys(a, i) + Keys(b, j) by {
        assert p in diff ==> p in Keys(a, i) * Keys(b, j);
      }
      if x :| 0 <= x < i && a[x].key == p {
        assert i < |a| && k == a[i].key ==> Compare(a[x].key, a[i].key) < 0;
      } else {
        var y :| 0 <= y < j && b[y].key == p;
        assert j < |b| && k == b[j].key ==> Compare(b[y].key, b[j].key) < 0;
      }
    }
  }

  /** Walks both streams in key order, classing every key once per record type and keeping the first
      differences. */
  method WalkDatabases(a: seq<Entry>, b: seq<Entry>, limit: nat)
    returns (stats: map<Bytes, Counts>, diffs: seq<Difference>)
    requires Sorted(a) && Sorted(b)
    ensures Reported(MapOf(a), MapOf(b), stats, diffs, limit, Same(MapOf(a), MapOf(b)), Different(MapOf(a), MapOf(b)),
                     MapOf(a).Keys - MapOf(b).Keys, MapOf(b).Keys - MapOf(a).Keys)
    ensures Firsts(diffs, limit, Different(MapOf(a), MapOf(b)) + (MapOf(a).Keys - MapOf(b).Keys) + (MapOf(b).Keys - MapOf(a).Keys))
  {
    hide Firsts, Walked, Reported, DifferenceTrue, MapOf, Bump, Compare;
    stats, diffs := map[], [];
    ghost var same, diff, missing, extra: set<Bytes> := {}, {}, {}, {};
    WalkStarts(a, b);
    ReportStarts(MapOf(a), MapOf(b), limit);
    NoFirsts(limit);
    assert diff + missing + extra == {};
    var i: nat, j: nat := 0, 0;
    while i < |a| || j < |b|
      invariant i <= |a| && j <= |b| && Walked(a, b, i, j, same, diff, missing, extra)
      invariant Reported(MapOf(a), MapOf(b), stats, diffs, limit, same, diff, missing, extra)
      invariant |diffs| <= limit && Firsts(diffs, limit, diff + missing + extra)
      decreases |a| - i + |b| - j
    {
      var cmp := if i == |a| then 1 else if j == |b| then -1 else Compare(a[i].key, b[j].key);
      if i < |a| && j < |b| {
        CompareTotal(a[i].key, b[j].key);
      }
      var k := if cmp <= 0 then a[i].key else b[j].key;
      PastBelow(a, b, i, j, same, diff, missing, extra, k);
      var c, d;
      if cmp == 0 {
        TakeBoth(a, b, i, j, same, diff, missing, extra);
        c, d := if a[i].value == b[j].value then IsSame else IsDiff, Diff(k, a[i].value, b[j].value);
        if c.IsDiff? {
          DiffIsTrue(a, b, i, j);
        }
        i, j := i + 1, j + 1;
      } else if cmp < 0 {
        TakeMissing(a, b, i, j, same, diff, missing, extra);
        MissingIsTrue(a, b, i, j, same, diff, missing, extra);
        c, d := IsMissing, MissingKey(k, a[i].value);
        i := i + 1;
      } else {
        TakeExtra(a, b, i, j, same, diff, missing, extra);
        ExtraIsTrue(a, b, i, j, same, diff, missing, extra);
        c, d := IsExtra, ExtraKey(k, b[j].value);
        j := j + 1;
      }
      ReportMore(MapOf(a), MapOf(b), stats, diffs, limit, same, diff, missing, extra, k, c, d);
      FirstsMore(diffs, limit, diff + missing + extra, d);
      OneClass(diff, missing, extra, k, c);
      stats := Bump(stats, PrefixOf(k), c);
      if !c.IsSame? && |diffs| < limit {
        diffs := diffs + [d];
      }
      same, diff := With(same, k, c.IsSame?), With(diff, k, c.IsDiff?);
      missing, extra := With(missing, k, c.IsMissing?), With(extra, k, c.IsExtra?);
    }
    WalkEnds(a, b, same, diff, missing, extra);
  }

  lemma OneClass(diff: set<Bytes>, missing: set<Bytes>, extra: set<Bytes>, k: Bytes, c: Class)
    ensures With(diff, k, c.IsDiff?) + With(missing, k, c.IsMissing?) + With(extra, k, c.IsExtra?) ==
      diff + missing + extra + (if c.IsSame? then {} else {k})
  {
  }

  lemma ReportStarts(a: map<Bytes, Bytes>, b: map<Bytes, Bytes>, limit: nat)
    ensures Reported(a, b, map[], [], limit, {}, {}, {}, {})
  {
    assert forall p :: OfPrefix({}, p) == {};
  }

  lemma DiffIsTrue(a: seq<Entry>, b: seq<Entry>, i: nat, j: nat)
    requires Sorted(a) && Sorted(b) && i < |a| && j < |b| && a[i].key == b[j].key && a[i].value != b[j].value
    ensures DifferenceTrue(MapOf(a), MapOf(b), Diff(a[i].key, a[i].value, b[j].value))
  {
    MapOfAt(a, i);
    MapOfAt(b, j);
  }

  lemma NotInRest(s: seq<Entry>, j: nat, k: Bytes)
    requires Sorted(s) && j <= |s| && k !in Keys(s, j) && forall y :: j <= y < |s| ==> Compare(k, s[y].key) < 0
    ensures k !in MapOf(s)
  {
    MapOfKeys(s);
    forall y | 0 <= y < |s| ensures s[y].key != k {
      if y >= j {
        CompareTotal(k, s[y].key);
      }
    }
  }

  lemma MissingIsTrue(a: seq<Entry>, b: seq<Entry>, i: nat, j: nat,
                      same: set<Bytes>, diff: set<Bytes>, missing: set<Bytes>, extra: set<Bytes>)
    requires Sorted(a) && Sorted(b) && i <= |a| && j <= |b| && Walked(a, b, i, j, same, diff, missing, extra)
    requires i < |a| && (j < |b| ==> Compare(a[i].key, b[j].key) < 0)
    ensures DifferenceTrue(MapOf(a), MapOf(b), MissingKey(a[i].key, a[i].value))
  {
    MapOfAt(a, i);
    BelowNotIn(b, j, a[i].key);
    HeadBelow(a[i].key, b, j);
    NotInRest(b, j, a[i].key);
  }

  lemma ExtraIsTrue(a: seq<Entry>, b: seq<Entry>, i: nat, j: nat,
                    same: set<Bytes>, diff: set<Bytes>, missing: set<Bytes>, extra: set<Bytes>)
    requires Sorted(a) && Sorted(b) && i <= |a| && j <= |b| && Walked(a, b, i, j, same, diff, missing, extra)
    requires j < |b| && (i < |a| ==> Compare(b[j].key, a[i].key) < 0)
    ensures DifferenceTrue(MapOf(a), MapOf(b), ExtraKey(b[j].key, b[j].value))
  {
    MapOfAt(b, j);
    BelowNotIn(a, i, b[j].key);
    HeadBelow(b[j].key, a, i);
    NotInRest(a, i, b[j].key);
  }

  // ----- the verdict

  /** The four classes split the keys of both databases, each key in exactly one. */
  lemma ClassesPartition(a: map<Bytes, Bytes>, b: map<Bytes, Bytes>)
    ensures Same(a, b) + Different(a, b) + (a.Keys - b.Keys) + (b.Keys - a.Keys) == a.Keys + b.Keys
    ensures |Same(a, b)| + |Different(a, b)| + |a.Keys - b.Keys| + |b.Keys - a.Keys| == |a.Keys + b.Keys|
  {
    Split(a, b);
  }

  lemma Split(a: map<Bytes, Bytes>, b: map<Bytes, Bytes>)
    ensures Same(a, b) + Different(a, b) == a.Keys * b.Keys && Same(a, b) !! Different(a, b)
    ensures a.Keys * b.Keys + (a.Keys - b.Keys) == a.Keys && a.Keys + (b.Keys - a.Keys) == a.Keys + b.Keys
  {
  }

  /** The verdict is OK exactly when the two databases are the same map. */
  lemma OkIffIdentical(a: map<Bytes, Bytes>, b: map<Bytes, Bytes>)
    ensures |Different(a, b)| == 0 && |a.Keys - b.Keys| == 0 && |b.Keys - a.Keys| == 0 <==> a == b
  {
    if |Different(a, b)| == 0 && |a.Keys - b.Keys| == 0 && |b.Keys - a.Keys| == 0 {
      forall k ensures (k in a <==> k in b) && (k in a && k in b ==> a[k] == b[k]) {
        assert k !in Different(a, b) && k !in a.Keys - b.Keys && k !in b.Keys - a.Keys;
      }
    }
    if a == b {
      assert Different(a, b) == {};
    }
  }

  /** The migration's verify: the same walk with four plain counters. */
  method Verify(a: seq<Entry>, b: seq<Entry>) returns (ok: bool, counts: Counts)
    requires Sorted(a) && Sorted(b)
    ensures counts == Counts(|Same(MapOf(a), MapOf(b))|, |Different(MapOf(a), MapOf(b))|,
                             |MapOf(a).Keys - MapOf(b).Keys|, |MapOf(b).Keys - MapOf(a).Keys|)
    ensures ok <==> MapOf(a) == MapOf(b)
  {
    hide Walked, MapOf, Compare;
    var matched, valueDiff, missingInDst, extraInDst := 0, 0, 0, 0;
    ghost var same, diff, missing, extra: set<Bytes> := {}, {}, {}, {};
    WalkStarts(a, b);
    var i, j := 0, 0;
    while i < |a| || j < |b|
      invariant i <= |a| && j <= |b| && Walked(a, b, i, j, same, diff, missing, extra)
      invariant matched == |same| && valueDiff == |diff| && missingInDst == |missing| && extraInDst == |extra|
      decreases |a| - i + |b| - j
    {
      var cmp := if i == |a| then 1 else if j == |b| then -1 else Compare(a[i].key, b[j].key);
      if i < |a| && j < |b| {
        CompareTotal(a[i].key, b[j].key);
      }
      if cmp == 0 {
        TakeBoth(a, b, i, j, same, diff, missing, extra);
        if a[i].value == b[j].value {
          matched := matched + 1;
        } else {
          valueDiff := valueDiff + 1;
        }
        same, diff := With(same, a[i].key, a[i].value == b[j].value), With(diff, a[i].key, a[i].value != b[j].value);
        i, j := i + 1, j + 1;
      } else if cmp < 0 {
        TakeMissing(a, b, i, j, same, diff, missing, extra);
        missingInDst := missingInDst + 1;
        missing := missing + {a[i].key};
        i := i + 1;
      } else {
        TakeExtra(a, b, i, j, same, diff, missing, extra);
        extraInDst := extraInDst + 1;
        extra := extra + {b[j].key};
        j := j + 1;
      }
    }
    WalkEnds(a, b, same, diff, missing, extra);
    OkIffIdentical(MapOf(a), MapOf(b));
    counts := Counts(matched, valueDiff, missingInDst, extraInDst);
    ok := valueDiff == 0 && missingInDst == 0 && extraInDst == 0;
  }
}
