/** The 32-bit count arithmetic of asx/src/timer.c and when it agrees with plain numbers. */
module TimerCounts {
  import opened TimerModel

  const RANGE: int := 0x1_0000_0000
  const HALF: int := 0x8000_0000

  /** _timer_distance_of: the difference modulo 2^32, read as a signed 32-bit number. */
  function Distance(from: nat, to: nat): (d: int)
    requires from < RANGE && to < RANGE
    ensures -HALF <= d < HALF
    ensures d == to - from || d == to - from + RANGE || d == to - from - RANGE
  {
    var d := to - from;
    if d < -HALF then d + RANGE else if d >= HALF then d - RANGE else d
  }

  /** A sum of counts as timer_count_t keeps it. */
  function Add(a: nat, b: nat): (r: nat)
    requires a < RANGE && b < RANGE
    ensures r < RANGE
  {
    if a + b < RANGE then a + b else a + b - RANGE
  }

  ghost predicate Counts(live: seq<Future>) {
    forall i :: 0 <= i < |live| ==> live[i].count < RANGE && live[i].repeat < RANGE && live[i].instance < RANGE
  }

  /** The list timer_arm builds: sorted by signed distance from now. */
  function InsertByDistance(live: seq<Future>, now: nat, e: Future): seq<Future>
    requires Counts(live) && now < RANGE && e.count < RANGE
  {
    if live == [] || Distance(now, e.count) < Distance(now, live[0].count) then [e] + live
    else [live[0]] + InsertByDistance(live[1..], now, e)
  }

  // ---------------------------------------------------------------------------------------------
  // Signed distances, wherever the 32-bit counts stand

  /** The distance of two counts is that of the times they stand for, if these are within half the range. */
  lemma DistanceOfTimes(now: nat, x: nat)
    requires -HALF <= x - now < HALF
    ensures Distance(now % RANGE, x % RANGE) == x - now
  {
    var q, p := now / RANGE, x / RANGE;
    assert now == q * RANGE + now % RANGE && x == p * RANGE + x % RANGE;
    assert -1 <= p - q <= 1;
  }

  /**
   The order used on insertion does not depend on the reference time, as long as both deadlines lie
   within half the range of it; the counts may have rolled over in between.
   */
  lemma OrderIgnoresReference(now: nat, later: nat, a: nat, b: nat)
    requires -HALF <= a - now < HALF && -HALF <= b - now < HALF
    requires -HALF <= a - later < HALF && -HALF <= b - later < HALF
    ensures Distance(now % RANGE, a % RANGE) < Distance(now % RANGE, b % RANGE)
       <==> Distance(later % RANGE, a % RANGE) < Distance(later % RANGE, b % RANGE)
  {
    DistanceOfTimes(now, a);
    DistanceOfTimes(now, b);
    DistanceOfTimes(later, a);
    DistanceOfTimes(later, b);
  }

  /** Sorted by signed distance from now. */
  ghost predicate SortedFrom(now: nat, live: seq<Future>)
    requires now < RANGE
  {
    && (forall f :: f in live ==> f.count < RANGE)
    && forall i, j :: 0 <= i < j < |live| ==> Distance(now, live[i].count) <= Distance(now, live[j].count)
  }

  /** No deadline falls more than half the range behind while k counts go by. */
  ghost predicate StaysInReach(now: nat, live: seq<Future>, k: nat)
    requires now < RANGE
  {
    forall f :: f in live ==> f.count < RANGE && -HALF <= Distance(now, f.count) - k
  }

  lemma DistanceLater(now: nat, k: nat, count: nat)
    requires now < RANGE && count < RANGE && -HALF <= Distance(now, count) - k
    ensures Distance((now + k) % RANGE, count) == Distance(now, count) - k
  {
    var x := now + RANGE + Distance(now, count);   // a time the count stands for
    assert x % RANGE == count by {
      assert x == count || x == count + RANGE || x == count + 2 * RANGE;
    }
    assert (now + RANGE + k) % RANGE == (now + k) % RANGE;
    DistanceOfTimes(now + RANGE + k, x);
  }

  /** So the sorted list stays sorted as the clock goes on, also across a rollover of the clock or the counts. */
  lemma SortedStaysSorted(now: nat, live: seq<Future>, k: nat)
    requires now < RANGE && SortedFrom(now, live) && StaysInReach(now, live, k)
    ensures SortedFrom((now + k) % RANGE, live)
  {
    forall f | f in live
      ensures Distance((now + k) % RANGE, f.count) == Distance(now, f.count) - k
    {
      DistanceLater(now, k, f.count);
    }
    assert forall i :: 0 <= i < |live| ==> live[i] in live;
  }

  lemma HeadIsNearest(now: nat, live: seq<Future>)
    requires now < RANGE && SortedFrom(now, live) && live != []
    ensures SortedFrom(now, live[1..])
    ensures forall f :: f in live ==> Distance(now, live[0].count) <= Distance(now, f.count)
  {
    hide Distance;
  }

  lemma ConsSorted(now: nat, head: Future, rest: seq<Future>)
    requires now < RANGE && SortedFrom(now, rest) && head.count < RANGE
    requires forall f :: f in rest ==> Distance(now, head.count) <= Distance(now, f.count)
    ensures SortedFrom(now, [head] + rest)
  {
    hide Distance;
    assert forall i :: 0 <= i < |rest| ==> rest[i] in rest;
  }

  lemma {:induction false} InsertKeepsSorted(now: nat, live: seq<Future>, e: Future)
    requires now < RANGE && SortedFrom(now, live) && Counts(live) && e.count < RANGE
    ensures SortedFrom(now, InsertByDistance(live, now, e))
    ensures forall f :: f in InsertByDistance(live, now, e) <==> f in live || f == e
  {
    hide Distance, SortedFrom;
    if live == [] {
      ConsSorted(now, e, live);
    } else {
      var head, rest := live[0], live[1..];
      HeadIsNearest(now, live);
      assert live == [head] + rest;
      if Distance(now, e.count) < Distance(now, head.count) {
        ConsSorted(now, e, live);
      } else {
        InsertKeepsSorted(now, rest, e);
        ConsSorted(now, head, InsertByDistance(rest, now, e));
      }
    }
  }

  lemma RemoveKeepsSorted(now: nat, live: seq<Future>, instance: nat)
    requires now < RANGE && SortedFrom(now, live)
    ensures SortedFrom(now, Remove(live, instance))
  {
    var p := RemoveSplits(live, instance);
  }

  lemma TickKeepsSorted(now: nat, live: seq<Future>)
    requires now < RANGE && SortedFrom(now, live) && StaysInReach(now, live, 1)
    ensures SortedFrom(Add(now, 1), live)
  {
    SortedStaysSorted(now, live, 1);
    assert Add(now, 1) == (now + 1) % RANGE;
  }

  // ---------------------------------------------------------------------------------------------
  // Without rollovers the order is that of plain numbers

  /** The count lies less than half the range away from now, and neither side of now rolled over. */
  predicate Near(now: nat, count: nat) {
    now < RANGE && count < RANGE && now - HALF <= count < now + HALF
  }

  ghost predicate AllNear(now: nat, live: seq<Future>) {
    forall i :: 0 <= i < |live| ==> Near(now, live[i].count)
  }

  /** There the order agrees with the unsigned comparison made by dispatch. */
  lemma OrderIsUnsigned(now: nat, a: nat, b: nat)
    requires Near(now, a) && Near(now, b)
    ensures Distance(now, a) < Distance(now, b) <==> a < b
    ensures Distance(now, a) <= 0 <==> now >= a
  {
  }

  lemma {:induction false} InsertByDistanceIsInsert(live: seq<Future>, now: nat, e: Future)
    requires Counts(live) && AllNear(now, live) && Near(now, e.count)
    ensures InsertByDistance(live, now, e) == Insert(live, e)
  {
    if live != [] {
      OrderIsUnsigned(now, e.count, live[0].count);
      InsertByDistanceIsInsert(live[1..], now, e);
    }
  }

  lemma AllNearInsert(now: nat, live: seq<Future>, e: Future)
    requires AllNear(now, live) && Near(now, e.count)
    ensures AllNear(now, Insert(live, e))
  {
    var p := InsertSplits(live, e);
  }

  lemma AllNearRemove(now: nat, live: seq<Future>, instance: nat)
    requires AllNear(now, live)
    ensures AllNear(now, Remove(live, instance))
  {
    var p := RemoveSplits(live, instance);
  }

  lemma {:induction false} InsertByDistanceSplits(live: seq<Future>, now: nat, e: Future, p: nat)
    requires Counts(live) && now < RANGE && e.count < RANGE && p <= |live|
    requires forall j :: 0 <= j < p ==> Distance(now, live[j].count) <= Distance(now, e.count)
    requires p < |live| ==> Distance(now, e.count) < Distance(now, live[p].count)
    ensures InsertByDistance(live, now, e) == live[..p] + [e] + live[p..]
  {
    if p > 0 {
      InsertByDistanceSplits(live[1..], now, e, p - 1);
    }
  }

  /**
   The list is clear of rollovers while the clock goes from one time to the other: no count is
   half the range away, and no repeat carries one there.
   */
  ghost predicate Regular(live: seq<Future>, from: nat, to: nat) {
    && from <= to < RANGE
    && forall i :: 0 <= i < |live| ==>
         && Near(from, live[i].count) && Near(to, live[i].count)
         && live[i].repeat < HALF && to + live[i].repeat < RANGE
  }

  lemma RegularInsert(live: seq<Future>, e: Future, from: nat, to: nat)
    requires Regular(live, from, to) && Regular([e], from, to)
    ensures Regular(Insert(live, e), from, to)
  {
    var p := InsertSplits(live, e);
    assert [e][0] == e;
  }

  lemma RegularAfterHead(live: seq<Future>, next: nat, from: nat, to: nat)
    requires Regular(live, from, to) && HeadDue(live, from)
    ensures Regular(AfterHead(live, next), from, to)
    ensures Near(from, live[0].count + live[0].repeat) && Near(to, live[0].count + live[0].repeat)
  {
    if live[0].repeat > 0 {
      RegularInsert(live[1..], Rearmed(live[0], next), from, to);
    }
  }

  /**
   Across a rollover the orders part: a future armed half the range ahead, as a repeating timer
   with such a period does inside dispatch, goes in front of one that is already due.
   */
  lemma RolloverGoesFirst(due: Future, e: Future)
    requires due.count < RANGE && due.repeat < RANGE && due.instance < RANGE
    requires e.count == Add(due.count, HALF)
    ensures InsertByDistance([due], due.count, e) == [e, due]
  {
  }
}
