/** The reactor's queues as values: what is queued for each handler, oldest first. */
module ReactorModel {
  import opened RingQueues
  import QueueHistory

  type Handle = nat
  type Queues = seq<seq<int>>

  /** A call of reactor_notify, or of a handler. */
  datatype Notice = Notice(handle: Handle, arg: int)

  ghost predicate Fits(queues: Queues, caps: seq<nat>) {
    && |queues| == |caps|
    && forall h :: 0 <= h < |caps| ==> 1 <= caps[h] && |queues[h]| <= caps[h]
  }

  function Notify(queues: Queues, caps: seq<nat>, n: Notice): (r: Queues)
    requires Fits(queues, caps) && n.handle < |caps|
    ensures Fits(r, caps)
  {
    queues[n.handle := PushedRing(queues[n.handle], caps[n.handle], n.arg)]
  }

  ghost predicate Known(notices: seq<Notice>, n: nat) {
    forall i :: 0 <= i < |notices| ==> notices[i].handle < n
  }

  // ---------------------------------------------------------------------------------------------
  // Histories

  /** What happened to the queues: a notification, or the oldest item of a handler taken. */
  datatype Event = Told(notice: Notice) | Taken(handle: Handle)

  function Target(e: Event): Handle {
    if e.Told? then e.notice.handle else e.handle
  }

  ghost predicate KnownEvents(events: seq<Event>, n: nat) {
    forall i :: 0 <= i < |events| ==> Target(events[i]) < n
  }

  function Apply(queues: Queues, caps: seq<nat>, e: Event): (r: Queues)
    requires Fits(queues, caps) && Target(e) < |caps|
    ensures Fits(r, caps)
  {
    match e
    case Told(n) => Notify(queues, caps, n)
    case Taken(h) => if queues[h] == [] then queues else Popped(queues, h)
  }

  ghost predicate Sized(caps: seq<nat>) {
    forall h :: 0 <= h < |caps| ==> 1 <= caps[h]
  }

  /** The queues after a history that began with all of them empty. */
  function Replay(caps: seq<nat>, events: seq<Event>): (r: Queues)
    requires Sized(caps) && KnownEvents(events, |caps|)
    ensures Fits(r, caps)
  {
    if events == [] then seq(|caps|, _ => [])
    else Apply(Replay(caps, events[..|events| - 1]), caps, events[|events| - 1])
  }

  lemma ReplayAppend(caps: seq<nat>, events: seq<Event>, e: Event)
    requires Sized(caps) && KnownEvents(events, |caps|) && Target(e) < |caps|
    ensures KnownEvents(events + [e], |caps|)
    ensures Replay(caps, events + [e]) == Apply(Replay(caps, events), caps, e)
  {
    assert (events + [e])[..|events|] == events;
  }

  /** A handler registered later starts with nothing queued. */
  lemma {:induction false} ReplayRegister(caps: seq<nat>, events: seq<Event>, cap: nat)
    requires Sized(caps) && 1 <= cap && KnownEvents(events, |caps|)
    ensures Sized(caps + [cap]) && KnownEvents(events, |caps + [cap]|)
    ensures Replay(caps + [cap], events) == Replay(caps, events) + [[]]
  {
    if events != [] {
      ReplayRegister(caps, events[..|events| - 1], cap);
    }
  }

  /** Seen from one handler, the history is a queue history: its own arrivals and takes. */
  function Of(events: seq<Event>, h: Handle): seq<QueueHistory.Op> {
    if events == [] then []
    else
      var before, e := Of(events[..|events| - 1], h), events[|events| - 1];
      if Target(e) != h then before
      else before + [if e.Told? then QueueHistory.Arrive(e.notice.arg) else QueueHistory.Take]
  }

  lemma {:induction false} ReplayIsPlay(caps: seq<nat>, events: seq<Event>, h: Handle)
    requires Sized(caps) && KnownEvents(events, |caps|) && h < |caps|
    ensures Replay(caps, events)[h] == QueueHistory.Play(caps[h], Of(events, h)).queue
  {
    if events != [] {
      ReplayIsPlay(caps, events[..|events| - 1], h);
    }
  }

  function ToldAll(notices: seq<Notice>): (r: seq<Event>)
    ensures |r| == |notices| && forall i :: 0 <= i < |r| ==> r[i] == Told(notices[i])
  {
    seq(|notices|, i requires 0 <= i < |notices| => Told(notices[i]))
  }

  // ---------------------------------------------------------------------------------------------
  // Scheduling

  ghost predicate IsPermutation(order: seq<Handle>, n: nat) {
    && |order| == n
    && (forall i :: 0 <= i < n ==> order[i] < n)
    && (forall i, j :: 0 <= i < j < n ==> order[i] != order[j])
    && (forall h :: 0 <= h < n ==> h in order)
  }

  lemma PermutationGrows(order: seq<Handle>, n: nat)
    requires IsPermutation(order, n)
    ensures IsPermutation(order + [n], n + 1)
  {
    var grown := order + [n];
    assert forall h :: 0 <= h < n ==> h in order;
    assert grown[n] == n;
  }

  /** Any outcome of the qsort by priority: highest first, equal priorities in any order. */
  ghost predicate IsSchedule(order: seq<Handle>, priorities: seq<nat>) {
    && IsPermutation(order, |priorities|)
    && forall i, j :: 0 <= i < j < |order| ==> priorities[order[i]] >= priorities[order[j]]
  }

  /** Where a handler of the given priority goes behind those that are as important. */
  lemma {:induction false} PlaceFor(order: seq<Handle>, priorities: seq<nat>, priority: nat) returns (p: nat)
    requires IsSchedule(order, priorities)
    ensures p <= |order|
    ensures forall i :: 0 <= i < p ==> priorities[order[i]] >= priority
    ensures forall i :: p <= i < |order| ==> priority >= priorities[order[i]]
  {
    p := 0;
    while p < |order| && priorities[order[p]] >= priority
      invariant p <= |order|
      invariant forall i :: 0 <= i < p ==> priorities[order[i]] >= priority
    {
      p := p + 1;
    }
  }

  /** The sort always has an outcome, whatever the priorities. */
  lemma {:induction false} SomeSchedule(priorities: seq<nat>) returns (order: seq<Handle>)
    ensures IsSchedule(order, priorities)
  {
    hide *;
    order := [];
    if priorities == [] {
      NoHandlers(priorities);
    } else {
      var n := |priorities| - 1;
      var before := SomeSchedule(priorities[..n]);
      var p := PlaceFor(before, priorities[..n], priorities[n]);
      order := before[..p] + [n] + before[p..];
      Placed(before, priorities, p);
    }
  }

  lemma NoHandlers(priorities: seq<nat>)
    requires priorities == []
    ensures IsSchedule([], priorities)
  {
  }

  /** The last handler put in its place. */
  lemma Placed(before: seq<Handle>, priorities: seq<nat>, p: nat)
    requires priorities != [] && IsSchedule(before, priorities[..|priorities| - 1]) && p <= |before|
    requires forall i :: 0 <= i < p ==> priorities[..|priorities| - 1][before[i]] >= priorities[|priorities| - 1]
    requires forall i :: p <= i < |before| ==> priorities[|priorities| - 1] >= priorities[..|priorities| - 1][before[i]]
    ensures IsSchedule(before[..p] + [|priorities| - 1] + before[p..], priorities)
  {
    PlacedPermutes(before, p);
  }

  lemma PlacedPermutes(before: seq<Handle>, p: nat)
    requires IsPermutation(before, |before|) && p <= |before|
    ensures IsPermutation(before[..p] + [|before|] + before[p..], |before| + 1)
  {
    var n, order := |before|, before[..p] + [|before|] + before[p..];
    forall h | 0 <= h < n + 1
      ensures h in order
    {
      if h < n {
        assert h in before;
        var i :| 0 <= i < n && before[i] == h;
        assert order[if i < p then i else i + 1] == h;
      } else {
        assert order[p] == h;
      }
    }
  }

  /** The position of the first handler in order with something queued; |order| when there is none. */
  function Pick(order: seq<Handle>, queues: Queues): (p: nat)
    requires IsPermutation(order, |queues|)
    ensures p <= |order|
    ensures forall i :: 0 <= i < p ==> queues[order[i]] == []
    ensures p < |order| ==> queues[order[p]] != []
  {
    PickFrom(order, queues, 0)
  }

  function PickFrom(order: seq<Handle>, queues: Queues, from: nat): (p: nat)
    requires IsPermutation(order, |queues|) && from <= |order|
    ensures from <= p <= |order|
    ensures forall i :: from <= i < p ==> queues[order[i]] == []
    ensures p < |order| ==> queues[order[p]] != []
    decreases |order| - from
  {
    if from == |order| || queues[order[from]] != [] then from else PickFrom(order, queues, from + 1)
  }

  function Popped(queues: Queues, h: Handle): Queues
    requires h < |queues| && queues[h] != []
  {
    queues[h := queues[h][1..]]
  }

  lemma PickIs(order: seq<Handle>, queues: Queues, p: nat)
    requires IsPermutation(order, |queues|) && p < |order| && queues[order[p]] != []
    requires forall i :: 0 <= i < p ==> queues[order[i]] == []
    ensures Pick(order, queues) == p
  {
  }

  /**
   One busy round of the loop: the handler is chosen on a snapshot of what is queued, then
   interrupts notify, then the oldest item of the chosen handler is taken and passed to it.
   */
  ghost predicate Serves(order: seq<Handle>, caps: seq<nat>, events: seq<Event>, isr: seq<Notice>, call: Notice, events': seq<Event>)
    requires Sized(caps) && KnownEvents(events, |caps|) && IsPermutation(order, |caps|) && Known(isr, |caps|)
  {
    var p, told := Pick(order, Replay(caps, events)), events + ToldAll(isr);
    && p < |order| && call.handle == order[p]
    && Replay(caps, told)[order[p]] != [] && call.arg == Replay(caps, told)[order[p]][0]
    && events' == told + [Taken(order[p])]
  }

  /** Notifications never empty a queue. */
  lemma {:induction false} ReplayKeeps(caps: seq<nat>, events: seq<Event>, isr: seq<Notice>, h: Handle)
    requires Sized(caps) && KnownEvents(events, |caps|) && Known(isr, |caps|) && h < |caps|
    ensures KnownEvents(events + ToldAll(isr), |caps|)
    ensures Replay(caps, events)[h] != [] ==> Replay(caps, events + ToldAll(isr))[h] != []
    decreases |isr|
  {
    if isr == [] {
      assert events + ToldAll(isr) == events;
    } else {
      var told := events + [Told(isr[0])];
      ReplayAppend(caps, events, Told(isr[0]));
      ReplayKeeps(caps, told, isr[1..], h);
      assert events + ToldAll(isr) == told + ToldAll(isr[1..]);
    }
  }

  /** When h is picked, a handler of strictly higher priority has nothing queued. */
  lemma PickIsHighest(order: seq<Handle>, priorities: seq<nat>, queues: Queues, higher: Handle)
    requires IsSchedule(order, priorities) && |queues| == |priorities| && higher < |queues|
    requires var p := Pick(order, queues); p < |order| && priorities[order[p]] < priorities[higher]
    ensures queues[higher] == []
  {
    assert higher in order;
    var i :| 0 <= i < |order| && order[i] == higher;
    assert i < Pick(order, queues);
  }

  /** Handler a is sorted in front of handler b. */
  ghost predicate Ahead(order: seq<Handle>, a: Handle, b: Handle) {
    exists i, j :: 0 <= i < j < |order| && order[i] == a && order[j] == b
  }

  lemma PickBehind(order: seq<Handle>, queues: Queues, a: Handle, b: Handle)
    requires IsPermutation(order, |queues|) && Ahead(order, a, b) && a < |queues|
    requires Pick(order, queues) < |order| && order[Pick(order, queues)] == b
    ensures queues[a] == []
  {
    var i, j :| 0 <= i < j < |order| && order[i] == a && order[j] == b;
    assert Pick(order, queues) == j;
  }

  /** Strictly higher priorities come first in every outcome of the sort. */
  lemma HigherIsAhead(order: seq<Handle>, priorities: seq<nat>, a: Handle, b: Handle)
    requires IsSchedule(order, priorities) && a < |order| && b < |order| && priorities[a] > priorities[b]
    ensures Ahead(order, a, b)
  {
    assert a in order && b in order;
    var i :| 0 <= i < |order| && order[i] == a;
    var j :| 0 <= j < |order| && order[j] == b;
    assert i < j;
  }

  lemma NotAhead(order: seq<Handle>, k: nat, i: nat)
    requires IsPermutation(order, |order|) && i < k < |order|
    ensures !Ahead(order, order[k], order[i])
  {
  }

  lemma PickLeader(order: seq<Handle>, queues: Queues, h: Handle)
    requires IsPermutation(order, |queues|) && h < |queues| && queues[h] != []
    requires forall g :: 0 <= g < |queues| && queues[g] != [] && g != h ==> Ahead(order, h, g)
    ensures Pick(order, queues) < |order| && order[Pick(order, queues)] == h
  {
    hide Ahead;
    assert h in order;
    var k :| 0 <= k < |order| && order[k] == h;
    forall i | 0 <= i < k
      ensures queues[order[i]] == []
    {
      NotAhead(order, k, i);
    }
    PickIs(order, queues, k);
  }

  lemma SomePick(order: seq<Handle>, queues: Queues, g: Handle)
    requires IsPermutation(order, |queues|) && g < |queues| && queues[g] != []
    ensures Pick(order, queues) < |order| && order[Pick(order, queues)] < |queues|
  {
    assert g in order;
  }

  lemma PickedLeads(order: seq<Handle>, queues: Queues)
    requires IsPermutation(order, |queues|) && Pick(order, queues) < |order|
    ensures forall g :: 0 <= g < |queues| && queues[g] != [] && g != order[Pick(order, queues)] ==>
              Ahead(order, order[Pick(order, queues)], g)
  {
    var p := Pick(order, queues);
    forall g | 0 <= g < |queues| && queues[g] != [] && g != order[p]
      ensures Ahead(order, order[p], g)
    {
      assert g in order;
      var k :| 0 <= k < |order| && order[k] == g;
      assert p < k;
    }
  }

  lemma PickHas(order: seq<Handle>, queues: Queues)
    requires IsPermutation(order, |queues|) && Pick(order, queues) < |order|
    ensures order[Pick(order, queues)] < |queues| && queues[order[Pick(order, queues)]] != []
  {
  }

  function Total(queues: Queues): nat {
    if queues == [] then 0 else |queues[0]| + Total(queues[1..])
  }

  lemma {:induction false} TotalPopped(queues: Queues, h: Handle)
    requires h < |queues| && queues[h] != []
    ensures Total(Popped(queues, h)) == Total(queues) - 1
  {
    if h == 0 {
      assert Popped(queues, h)[1..] == queues[1..];
    } else {
      TotalPopped(queues[1..], h - 1);
      assert Popped(queues, h)[1..] == Popped(queues[1..], h - 1);
    }
  }

  /** The handler calls of the loop when nothing more is notified. */
  function Drain(order: seq<Handle>, queues: Queues): seq<Notice>
    requires IsPermutation(order, |queues|)
    decreases Total(queues)
  {
    var p := Pick(order, queues);
    if p == |order| then []
    else
      var h := order[p];
      TotalPopped(queues, h);
      [Notice(h, queues[h][0])] + Drain(order, Popped(queues, h))
  }

  function Labelled(h: Handle, q: seq<int>): seq<Notice> {
    seq(|q|, i requires 0 <= i < |q| => Notice(h, q[i]))
  }

  /** Handler after handler in priority order, each with its whole queue first-in first-out. */
  function InPriorityOrder(order: seq<Handle>, queues: Queues): seq<Notice>
    requires forall i :: 0 <= i < |order| ==> order[i] < |queues|
  {
    if order == [] then [] else Labelled(order[0], queues[order[0]]) + InPriorityOrder(order[1..], queues)
  }

  lemma {:induction false} InPriorityOrderNone(order: seq<Handle>, queues: Queues)
    requires forall i :: 0 <= i < |order| ==> order[i] < |queues| && queues[order[i]] == []
    ensures InPriorityOrder(order, queues) == []
  {
    if order != [] {
      InPriorityOrderNone(order[1..], queues);
    }
  }

  lemma {:induction false} InPriorityOrderPop(order: seq<Handle>, queues: Queues, p: nat)
    requires forall i :: 0 <= i < |order| ==> order[i] < |queues|
    requires forall i, j :: 0 <= i < j < |order| ==> order[i] != order[j]
    requires p < |order| && queues[order[p]] != []
    requires forall i :: 0 <= i < p ==> queues[order[i]] == []
    ensures InPriorityOrder(order, queues)
         == [Notice(order[p], queues[order[p]][0])] + InPriorityOrder(order, Popped(queues, order[p]))
  {
    var h, popped := order[p], Popped(queues, order[p]);
    if p == 0 {
      InPriorityOrderSame(order[1..], queues, popped);
      assert Labelled(h, queues[h]) == [Notice(h, queues[h][0])] + Labelled(h, popped[h]);
    } else {
      InPriorityOrderPop(order[1..], queues, p - 1);
      assert Labelled(order[0], queues[order[0]]) == [] == Labelled(order[0], popped[order[0]]);
    }
  }

  lemma {:induction false} InPriorityOrderSame(order: seq<Handle>, queues: Queues, queues': Queues)
    requires forall i :: 0 <= i < |order| ==> order[i] < |queues| == |queues'| && queues[order[i]] == queues'[order[i]]
    ensures InPriorityOrder(order, queues) == InPriorityOrder(order, queues')
  {
    if order != [] {
      InPriorityOrderSame(order[1..], queues, queues');
    }
  }

  /** Left alone, the loop makes one call per queued item, in priority order and first-in first-out. */
  lemma {:induction false} DrainIsPriorityOrder(order: seq<Handle>, queues: Queues)
    requires IsPermutation(order, |queues|)
    ensures Drain(order, queues) == InPriorityOrder(order, queues)
    ensures |Drain(order, queues)| == Total(queues)
    decreases Total(queues)
  {
    var p := Pick(order, queues);
    if p == |order| {
      InPriorityOrderNone(order, queues);
      NothingLeft(order, queues);
      TotalOfEmpty(queues);
    } else {
      TotalPopped(queues, order[p]);
      InPriorityOrderPop(order, queues, p);
      DrainIsPriorityOrder(order, Popped(queues, order[p]));
    }
  }

  lemma NothingLeft(order: seq<Handle>, queues: Queues)
    requires IsPermutation(order, |queues|) && Pick(order, queues) == |order|
    ensures forall h :: 0 <= h < |queues| ==> queues[h] == []
  {
    forall h | 0 <= h < |queues|
      ensures queues[h] == []
    {
      assert h in order;
    }
  }

  lemma DrainNothing(order: seq<Handle>, queues: Queues)
    requires IsPermutation(order, |queues|) && Pick(order, queues) == |order|
    ensures Drain(order, queues) == []
  {
  }

  /** A round without interrupts makes the first call of those that are due. */
  lemma ServedAlone(order: seq<Handle>, caps: seq<nat>, events: seq<Event>, call: Notice, events': seq<Event>)
    requires Sized(caps) && KnownEvents(events, |caps|) && IsPermutation(order, |caps|)
    requires Serves(order, caps, events, [], call, events')
    ensures KnownEvents(events', |caps|)
    ensures Drain(order, Replay(caps, events)) == [call] + Drain(order, Replay(caps, events'))
    ensures Total(Replay(caps, events')) < Total(Replay(caps, events))
  {
    var queues := Replay(caps, events);
    assert events + ToldAll([]) == events;
    ReplayAppend(caps, events, Taken(call.handle));
    TotalPopped(queues, call.handle);
  }

  lemma {:induction false} TotalOfEmpty(queues: Queues)
    requires forall h :: 0 <= h < |queues| ==> queues[h] == []
    ensures Total(queues) == 0
  {
    if queues != [] {
      TotalOfEmpty(queues[1..]);
    }
  }
}
