/** What a handler receives out of everything it was notified with. */
module QueueHistory {
  import opened RingQueues

  datatype Op = Arrive(arg: int) | Take

  /** All arrivals, what is queued, and the positions in the arrivals of the items taken. */
  datatype Trace = Trace(arrived: seq<int>, queue: seq<int>, taken: seq<nat>, values: seq<int>)

  function Play(cap: nat, ops: seq<Op>): (t: Trace)
    requires 1 <= cap
    ensures |t.queue| <= cap && |t.queue| <= |t.arrived| && |t.taken| == |t.values|
  {
    if ops == [] then Trace([], [], [], [])
    else
      var t := Play(cap, ops[..|ops| - 1]);
      match ops[|ops| - 1]
      case Arrive(d) => t.(arrived := t.arrived + [d], queue := PushedRing(t.queue, cap, d))
      case Take =>
        if t.queue == [] then t
        else t.(queue := t.queue[1..],
                taken := t.taken + [|t.arrived| - |t.queue|],
                values := t.values + [t.queue[0]])
  }

  ghost predicate InOrder(t: Trace, cap: nat) {
    var first := |t.arrived| - |t.queue|;
    && 0 <= first && |t.taken| == |t.values|
    && t.queue == t.arrived[first..]
    && (forall i, j :: 0 <= i < j < |t.taken| ==> t.taken[i] < t.taken[j])
    && (forall i :: 0 <= i < |t.taken| ==> t.taken[i] < first && t.values[i] == t.arrived[t.taken[i]])
    && (forall p :: 0 <= p < first && p !in t.taken ==> p + cap < |t.arrived|)
  }

  lemma ArrivesInOrder(cap: nat, t: Trace, d: int)
    requires 1 <= cap && |t.queue| <= cap && InOrder(t, cap)
    ensures InOrder(t.(arrived := t.arrived + [d], queue := PushedRing(t.queue, cap, d)), cap)
  {
    var r := t.(arrived := t.arrived + [d], queue := PushedRing(t.queue, cap, d));
    assert r.queue == r.arrived[|r.arrived| - |r.queue|..];
  }

  lemma TakenInOrder(cap: nat, t: Trace)
    requires InOrder(t, cap) && t.queue != []
    ensures InOrder(t.(queue := t.queue[1..], taken := t.taken + [|t.arrived| - |t.queue|], values := t.values + [t.queue[0]]), cap)
  {
    var first := |t.arrived| - |t.queue|;
    assert t.queue[1..] == t.arrived[first + 1..];
    assert forall p :: p in t.taken + [first] <==> p in t.taken || p == first;
  }

  /**
   The queue is a suffix of the arrivals. Items are taken in arrival order and unchanged, and an
   item is lost only after at least cap later ones arrived.
   */
  lemma {:induction false} PlayKeepsOrder(cap: nat, ops: seq<Op>)
    requires 1 <= cap
    ensures InOrder(Play(cap, ops), cap)
  {
    hide InOrder;
    if ops == [] {
      NothingYet(cap);
    } else {
      var before := ops[..|ops| - 1];
      PlayKeepsOrder(cap, before);
      var t := Play(cap, before);
      match ops[|ops| - 1]
      case Arrive(d) =>
        ArrivesInOrder(cap, t, d);
      case Take =>
        if t.queue != [] {
          TakenInOrder(cap, t);
        }
    }
  }

  lemma NothingYet(cap: nat)
    ensures InOrder(Trace([], [], [], []), cap)
  {
  }
}
