/** The migration's copy: one pass over the source, written out in batches and segments. */
module Migrate {
  import opened ByteCodec
  import opened MergeWalk

  /** The entries put one after another. */
  function PutAll(m: map<Bytes, Bytes>, ops: seq<Entry>): map<Bytes, Bytes> {
    if ops == [] then m
    else PutAll(m, ops[..|ops| - 1])[ops[|ops| - 1].key := ops[|ops| - 1].value]
  }

  function LogicalBytes(s: seq<Entry>): nat {
    if s == [] then 0
    else LogicalBytes(s[..|s| - 1]) + |s[|s| - 1].key| + |s[|s| - 1].value|
  }

  lemma PutOneMore(m: map<Bytes, Bytes>, ops: seq<Entry>, e: Entry)
    ensures PutAll(m, ops + [e]) == PutAll(m, ops)[e.key := e.value]
  {
    assert (ops + [e])[..|ops|] == ops;
  }

  lemma MapOfLast(s: seq<Entry>, init: seq<Entry>, last: Entry)
    requires Sorted(s) && s == init + [last]
    ensures Sorted(init) && MapOf(s) == MapOf(init)[last.key := last.value]
  {
    hide MapOf;
    assert forall i :: 0 <= i < |init| ==> s[i] == init[i];
    assert s[|init|] == last;
    MapOfKeys(s);
    MapOfKeys(init);
    forall i | 0 <= i < |s| ensures MapOf(s)[s[i].key] == MapOf(init)[last.key := last.value][s[i].key] {
      MapOfAt(s, i);
      SortedOnce(s);
      if i < |init| {
        MapOfAt(init, i);
      }
    }
  }

  lemma PutOver(m: map<Bytes, Bytes>, n: map<Bytes, Bytes>, k: Bytes, v: Bytes)
    ensures (m + n)[k := v] == m + n[k := v]
  {
  }

  lemma {:induction false} PutSorted(m: map<Bytes, Bytes>, s: seq<Entry>)
    requires Sorted(s)
    ensures PutAll(m, s) == m + MapOf(s)
  {
    if s == [] {
      assert MapOf(s) == map[];
    } else {
      hide MapOf, Sorted;
      var init, last := s[..|s| - 1], s[|s| - 1];
      MapOfLast(s, init, last);
      PutSorted(m, init);
      PutOver(m, MapOf(init), last.key, last.value);
    }
  }

  /** After `n` entries: what is written and what is still buffered are together those entries. */
  ghost predicate Copying(src: seq<Entry>, dst: map<Bytes, Bytes>, n: nat, to: map<Bytes, Bytes>, ops: seq<Entry>, total: nat) {
    n <= |src| && PutAll(to, ops) == PutAll(dst, src[..n]) && total == LogicalBytes(src[..n])
  }

  lemma CopyMore(src: seq<Entry>, dst: map<Bytes, Bytes>, n: nat, to: map<Bytes, Bytes>, ops: seq<Entry>, total: nat)
    requires Copying(src, dst, n, to, ops, total) && n < |src|
    ensures Copying(src, dst, n + 1, to, ops + [src[n]], total + |src[n].key| + |src[n].value|)
  {
    var e := src[n];
    assert src[..n + 1] == src[..n] + [e] && src[..n + 1][..n] == src[..n];
    PutOneMore(to, ops, e);
    PutOneMore(dst, src[..n], e);
    hide PutAll;
  }

  lemma CopyFlushed(src: seq<Entry>, dst: map<Bytes, Bytes>, n: nat, to: map<Bytes, Bytes>, ops: seq<Entry>, total: nat)
    requires Copying(src, dst, n, to, ops, total)
    ensures Copying(src, dst, n, PutAll(to, ops), [], total)
  {
  }

  lemma CopyDone(src: seq<Entry>, dst: map<Bytes, Bytes>, to: map<Bytes, Bytes>, total: nat)
    requires Sorted(src) && Copying(src, dst, |src|, to, [], total)
    ensures to == dst + MapOf(src) && total == LogicalBytes(src)
  {
    hide Sorted, MapOf;
    assert src[..|src|] == src;
    PutSorted(dst, src);
  }

  /** Copies the source into the destination, which keeps what it had under other keys: neither the
      batch size nor the segment length changes what arrives. */
  method Copy(src: seq<Entry>, dst: map<Bytes, Bytes>, batchBytes: nat, segmentKeys: nat)
    returns (to: map<Bytes, Bytes>, keys: nat, totalBytes: nat)
    requires Sorted(src)
    ensures to == dst + MapOf(src) && keys == |src| && totalBytes == LogicalBytes(src)
  {
    hide PutAll, LogicalBytes, Sorted, MapOf, Copying;
    var segment := if segmentKeys > 0 then segmentKeys else 100_000_000;
    var ops: seq<Entry>, opsBytes: nat, lastCycle: nat := [], 0, 0;
    to, keys, totalBytes := dst, 0, 0;
    NothingCopied(src, dst);
    while keys < |src|
      invariant lastCycle <= keys <= |src| && Copying(src, dst, keys, to, ops, totalBytes)
    {
      var e := src[keys];
      CopyMore(src, dst, keys, to, ops, totalBytes);
      ops := ops + [e];
      opsBytes := opsBytes + |e.key| + |e.value|;
      totalBytes := totalBytes + |e.key| + |e.value|;
      keys := keys + 1;
      if opsBytes >= batchBytes {
        CopyFlushed(src, dst, keys, to, ops, totalBytes);
        to, ops, opsBytes := PutAll(to, ops), [], 0;
      }
      if keys - lastCycle >= segment {
        CopyFlushed(src, dst, keys, to, ops, totalBytes);
        to, ops, opsBytes := PutAll(to, ops), [], 0;
        lastCycle := keys;
      }
    }
    CopyFlushed(src, dst, keys, to, ops, totalBytes);
    to := PutAll(to, ops);
    CopyDone(src, dst, to, totalBytes);
  }

  lemma NothingCopied(src: seq<Entry>, dst: map<Bytes, Bytes>)
    ensures Copying(src, dst, 0, dst, [], 0)
  {
  }

  /** The verify that follows finds the two databases identical exactly when the destination held no
      key the source lacks. */
  lemma CopiedIsIdentical(src: seq<Entry>, dst: map<Bytes, Bytes>)
    requires Sorted(src)
    ensures dst + MapOf(src) == MapOf(src) <==> dst.Keys <= MapOf(src).Keys
  {
    if dst + MapOf(src) == MapOf(src) {
      forall k | k in dst ensures k in MapOf(src) {
        assert k in dst + MapOf(src);
      }
    }
  }
}
