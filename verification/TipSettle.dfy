/** When a node tip below ours is acted on: only once it has stood still. */
module TipSettle {
  import opened Chain

  /** One re-read of the node's tip; an unreadable, unsynced or catching-up node is unusable. */
  datatype Reading = Unusable | Tip(height: int)

  const STABLE_READS: nat := 5
  const MAX_READS: nat := 10

  /** The readings, the one that came first in front. */
  function WithFirst(first: int, readings: seq<Reading>): seq<Reading> {
    [Tip(first)] + readings
  }

  /** The `k`th re-read ends a window of five that all repeat the reading before them, everything up to
      it having been usable. */
  predicate StillAt(first: int, readings: seq<Reading>, k: nat) {
    var all := WithFirst(first, readings);
    && STABLE_READS <= k <= MAX_READS && k <= |readings|
    && (forall j :: 0 <= j <= k ==> all[j].Tip?)
    && (forall j :: k - STABLE_READS <= j <= k ==> all[j] == all[k])
  }

  /** The readings stand still on this tip. */
  ghost predicate SettlesOn(first: int, readings: seq<Reading>, tip: int) {
    exists k: nat :: StillAt(first, readings, k) && WithFirst(first, readings)[k] == Tip(tip)
  }

  /** They cannot stand still on two. */
  lemma SettledTipUnique(first: int, readings: seq<Reading>, a: int, b: int)
    requires SettlesOn(first, readings, a) && SettlesOn(first, readings, b)
    ensures a == b
  {
    var all := WithFirst(first, readings);
    var i: nat :| StillAt(first, readings, i) && all[i] == Tip(a);
    var j: nat :| StillAt(first, readings, j) && all[j] == Tip(b);
    assert all[5] == all[i] && all[5] == all[j];
  }

  /** Re-reads the tip until five in a row repeat the one before them; gives up on an unusable reading or
      after ten. */
  method Settle(first: int, readings: seq<Reading>) returns (tip: Option<int>)
    requires |readings| >= MAX_READS
    ensures tip.None? ==> forall t :: !SettlesOn(first, readings, t)
    ensures tip.Some? ==> SettlesOn(first, readings, tip.value)
  {
    var previous, stableReads := first, 0;
    ghost var all := WithFirst(first, readings);
    for read := 0 to MAX_READS
      invariant 0 <= stableReads <= read && stableReads < STABLE_READS
      invariant all[read] == Tip(previous)
      invariant forall j :: 0 <= j <= read ==> all[j].Tip?
      invariant forall j :: read - stableReads <= j <= read ==> all[j] == Tip(previous)
      invariant stableReads < read ==> all[read - stableReads - 1] != Tip(previous)
      invariant forall k: nat :: k <= read ==> !StillAt(first, readings, k)
    {
      assert all[read + 1] == readings[read];
      if readings[read].Unusable? {
        NoneBeyond(first, readings, read + 1);
        return None;
      }
      var t := readings[read].height;
      if t == previous {
        stableReads := stableReads + 1;
        if stableReads == STABLE_READS {
          assert StillAt(first, readings, read + 1);
          return Some(t);
        }
      } else {
        previous, stableReads := t, 0;
      }
    }
    tip := None;
  }

  lemma NoneBeyond(first: int, readings: seq<Reading>, n: nat)
    requires 0 < n <= |readings| && readings[n - 1].Unusable?
    requires forall k: nat :: k < n ==> !StillAt(first, readings, k)
    ensures forall k: nat :: !StillAt(first, readings, k)
  {
    assert WithFirst(first, readings)[n] == readings[n - 1];
  }

  lemma StillIsAlike(first: int, readings: seq<Reading>, k: nat, tip: int)
    requires StillAt(first, readings, k) && WithFirst(first, readings)[k] == Tip(tip)
    ensures FiveAlike(first, readings, k, tip)
  {
    var all := WithFirst(first, readings);
    assert forall j :: 0 <= j < |readings| ==> all[j + 1] == readings[j];
    assert all[k - 5] == all[k];
  }

  lemma AlikeIsStill(first: int, readings: seq<Reading>, k: nat, tip: int)
    requires FiveAlike(first, readings, k, tip)
    ensures StillAt(first, readings, k) && WithFirst(first, readings)[k] == Tip(tip)
  {
    var all := WithFirst(first, readings);
    forall j | 0 <= j <= k ensures all[j].Tip? && (k - 5 <= j ==> all[j] == Tip(tip)) {
      assert j > 0 ==> all[j] == readings[j - 1];
    }
  }

  /** What standing still means reading by reading: within ten re-reads, five in a row that equal the
      reading before them, all usable. */
  lemma SettledReadings(first: int, readings: seq<Reading>, tip: int)
    ensures SettlesOn(first, readings, tip) <==> exists k: nat :: FiveAlike(first, readings, k, tip)
  {
    hide FiveAlike;
    if SettlesOn(first, readings, tip) {
      var k: nat :| StillAt(first, readings, k) && WithFirst(first, readings)[k] == Tip(tip);
      StillIsAlike(first, readings, k, tip);
    }
    if k: nat :| FiveAlike(first, readings, k, tip) {
      AlikeIsStill(first, readings, k, tip);
    }
  }

  predicate FiveAlike(first: int, readings: seq<Reading>, k: nat, tip: int) {
    && 5 <= k <= 10 && k <= |readings|
    && (forall j :: k - 5 <= j < k ==> readings[j] == Tip(tip))
    && (if k == 5 then first == tip else readings[k - 6] == Tip(tip))
    && (forall j :: 0 <= j < k ==> readings[j].Tip?)
  }

  /** The sync loop's check: only a settled tip that is still below our height goes on to recovery. */
  method SettleNodeTipBelow(first: int, readings: seq<Reading>, ourHeight: int) returns (goOn: bool, tip: int)
    requires |readings| >= MAX_READS
    ensures goOn <==> SettlesOn(first, readings, tip) && tip < ourHeight
    ensures (exists t :: SettlesOn(first, readings, t)) ==> SettlesOn(first, readings, tip)
    ensures (forall t :: !SettlesOn(first, readings, t)) ==> tip == first
  {
    var settled := Settle(first, readings);
    if settled.None? {
      return false, first;
    }
    tip := settled.value;
    goOn := tip < ourHeight;
  }

  /** The walk's own re-read after a failed hash fetch: a higher tip is taken at once, a lower or a first
      one only once it stands still, and an unusable one never. */
  method RefreshWalkTip(current: Option<int>, reading: Reading, readings: seq<Reading>) returns (next: Option<int>)
    requires |readings| >= MAX_READS
    ensures reading.Unusable? ==> next == current
    ensures reading.Tip? && current.Some? && reading.height >= current.value ==> next == Some(reading.height)
    ensures reading.Tip? && (current.None? || reading.height < current.value) ==>
      next == current || (next.Some? && SettlesOn(reading.height, readings, next.value))
    ensures reading.Tip? && (current.None? || reading.height < current.value) ==>
      forall t :: SettlesOn(reading.height, readings, t) ==> next == Some(t)
  {
    if reading.Unusable? {
      return current;
    }
    if current.None? || reading.height < current.value {
      var settled := Settle(reading.height, readings);
      if settled.None? {
        return current;
      }
      forall t | SettlesOn(reading.height, readings, t) ensures settled == Some(t) {
        SettledTipUnique(reading.height, readings, t, settled.value);
      }
      return settled;
    }
    next := Some(reading.height);
  }
}
