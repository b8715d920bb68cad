/** The reactor of asx/src/reactor.c: handlers, their ring queues, and the notification word. */
module Reactors {
  import opened RingQueues
  import opened ReactorModel

  /** reactor_item_t; the mask is 1 << bit. */
  datatype Item = Item(priority: nat, bit: nat, queue: RingQueue)

  ghost function Caps(items: seq<Item>): (r: seq<nat>)
    ensures |r| == |items|
    ensures forall h :: 0 <= h < |items| ==> r[h] == items[h].queue.nelem
  {
    seq(|items|, h requires 0 <= h < |items| => items[h].queue.nelem)
  }

  function Priorities(items: seq<Item>): (r: seq<nat>)
    ensures |r| == |items|
    ensures forall h :: 0 <= h < |items| ==> r[h] == items[h].priority
  {
    seq(|items|, h requires 0 <= h < |items| => items[h].priority)
  }

  /** The loop's search: shifts the snapshot right until its lowest bit is set. */
  method LowestFlag(snapshot: seq<bool>, n: nat) returns (i: nat)
    requires exists b :: 0 <= b < n <= |snapshot| && snapshot[b]
    ensures i < n && snapshot[i]
    ensures forall b :: 0 <= b < i ==> !snapshot[b]
  {
    var flags := snapshot;
    i := 0;
    while i < n
      invariant 0 <= i <= n && |flags| == |snapshot|
      invariant forall b :: 0 <= b < |flags| - i ==> flags[b] == snapshot[b + i]
      invariant forall b :: 0 <= b < i ==> !snapshot[b]
    {
      if flags[0] {
        return;
      }
      flags := flags[1..] + [false];
      i := i + 1;
    }
  }

  class Reactor {
    const max: nat             // REACTOR_MAX_HANDLERS
    var items: seq<Item>
    var lookup: seq<Handle>    // _handle_lookup: the handler at each bit once sorted
    var locked: bool           // no registration any more
    var bits: seq<bool>        // reactor_notifications, lowest bit first
    ghost var order: seq<Handle>
    ghost var events: seq<Event>   // everything notified and taken so far
    ghost var Repr: set<object>    // the queues and their buffers

    /** Distinct valid queues, owned by this reactor. */
    ghost predicate Owns()
      reads `items, `Repr, Repr
    {
      && (forall h :: 0 <= h < |items| ==>
            items[h].queue in Repr && items[h].queue.buffer in Repr && items[h].queue.Valid())
      && (forall h, k :: 0 <= h < k < |items| ==>
            items[h].queue != items[k].queue && items[h].queue.buffer != items[k].queue.buffer)
    }

    /** Handler order[i] owns bit i, and its bit is set exactly when something is queued for it. */
    ghost predicate Flags(queues: Queues)
      requires |queues| == |items|
      reads `items, `lookup, `locked, `bits, `order
    {
      && |items| <= max <= 32 && |bits| == max
      && IsPermutation(order, |items|)
      && (locked ==> lookup == order)
      && (!locked ==> forall i :: 0 <= i < |order| ==> order[i] == i)
      && (forall i :: 0 <= i < |order| ==> items[order[i]].bit == i && bits[i] == (queues[order[i]] != []))
      && (forall i :: |order| <= i < max ==> !bits[i])
    }

    /** The word agrees with the queues. */
    ghost predicate Agrees()
      reads `items, `lookup, `locked, `bits, `order, `Repr, Repr
    {
      Owns() && this !in Repr && Flags(Queues())
    }

    ghost function Queues(): (r: Queues)
      requires Owns()
      reads `items, `Repr, Repr
      ensures |r| == |items|
      ensures forall h :: 0 <= h < |items| ==> r[h] == items[h].queue.Contents()
    {
      var its, repr := items, Repr;
      seq(|its|, h requires 0 <= h < |its| && its[h].queue in repr && its[h].queue.buffer in repr && its[h].queue.Valid()
                   reads repr => its[h].queue.Contents())
    }

    /** The word agrees with the queues, and the queues hold what the history left in them. */
    ghost predicate Valid()
      reads this, Repr
    {
      && Agrees() && Sized(Caps(items))
      && KnownEvents(events, |items|) && Queues() == Replay(Caps(items), events)
    }

    lemma FewHandlers()
      requires Valid()
      ensures |items| <= 32
    {
    }

    lemma OwnsOthers()
      requires Valid()
      ensures this !in Repr && Owns() && IsPermutation(order, |items|)
    {
    }

    constructor (max: nat)
      requires max <= 32
      ensures Valid() && fresh(Repr) && this.max == max
      ensures items == [] && !locked && events == []
    {
      this.max := max;
      items, lookup, locked, order, events := [], [], false, [], [];
      bits := seq(max, _ => false);
      Repr := {};
    }

    /** The handler table entry of reactor_register. */
    method AddItem(priority: nat, queueSize: nat)
      requires Agrees() && !locked && |items| < max && 1 <= queueSize <= 128
      modifies `items, `order, `Repr
      ensures Agrees() && fresh(Repr - old(Repr))
      ensures Queues() == old(Queues()) + [[]]
      ensures Caps(items) == Caps(old(items)) + [queueSize]
      ensures Priorities(items) == Priorities(old(items)) + [priority]
    {
      var queue := new RingQueue(queueSize);
      var n := |items|;
      items := items + [Item(priority, n, queue)];
      order := order + [n];
      Repr := Repr + {queue, queue.buffer};
      assert Owns() && Queues() == old(Queues()) + [[]];
      PermutationGrows(old(order), n);
    }

    /** reactor_register; both alerts are its demands on the caller. */
    method Register(priority: nat, queueSize: nat) returns (handle: Handle)
      requires Valid() && !locked && |items| < max && 1 <= queueSize <= 128
      modifies `items, `order, `Repr
      ensures Valid() && fresh(Repr - old(Repr))
      ensures handle == old(|items|)
      ensures Caps(items) == Caps(old(items)) + [queueSize]
      ensures Priorities(items) == Priorities(old(items)) + [priority]
    {
      handle := |items|;
      ReplayRegister(Caps(items), events, queueSize);
      AddItem(priority, queueSize);
    }

    /** The two writes of reactor_notify. */
    method Raise(n: Notice)
      requires Agrees() && n.handle < |items|
      modifies `bits, Repr
      ensures Agrees()
      ensures Fits(old(Queues()), Caps(items))
      ensures Queues() == ReactorModel.Notify(old(Queues()), Caps(items), n)
    {
      assert n.handle in order;
      bits := bits[items[n.handle].bit := true];
      PushItem(n);
      assert Flags(Queues());
    }

    /** The second of them. */
    method PushItem(n: Notice)
      requires Owns() && n.handle < |items|
      modifies Repr - {this}
      ensures Owns() && Fits(old(Queues()), Caps(items))
      ensures Queues() == ReactorModel.Notify(old(Queues()), Caps(items), n)
    {
      items[n.handle].queue.PushRing(n.arg);
    }

    /** reactor_notify */
    method Notify(n: Notice)
      requires Valid() && n.handle < |items|
      modifies `bits, `events, Repr
      ensures Valid() && events == old(events) + [Told(n)]
    {
      ReplayAppend(Caps(items), events, Told(n));
      Raise(n);
      events := events + [Told(n)];
    }

    /**
     _reactor_sort_by_priority, for any result order of the qsort. It runs before interrupts are
     enabled. What was notified before the run moves to the handler's new bit.
     */
    method SortByPriority(order: seq<Handle>)
      requires Valid() && !locked && IsSchedule(order, Priorities(items))
      modifies `lookup, `items, `bits, `locked, `order
      ensures Valid() && locked && this.order == order
      ensures Caps(items) == Caps(old(items)) && Priorities(items) == Priorities(old(items))
    {
      Reindex(order);
      assert Owns() && Queues() == old(Queues());
      assert Caps(items) == Caps(old(items));
    }

    /** The second loop and the end of _reactor_sort_by_priority. */
    method Reindex(order: seq<Handle>)
      requires IsPermutation(order, |items|) && |items| <= |bits| == max
      modifies `lookup, `items, `bits, `locked, `order
      ensures locked && this.order == order == lookup && |items| == old(|items|) && |bits| == max
      ensures forall h :: 0 <= h < |items| ==>
                items[h].queue == old(items)[h].queue && items[h].priority == old(items)[h].priority
      ensures forall i :: 0 <= i < |order| ==> items[order[i]].bit == i && bits[i] == old(bits)[order[i]]
      ensures forall i :: |order| <= i < max ==> !bits[i]
    {
      var sorted := seq(max, _ => false);
      lookup := order;
      ghost var was := items;
      var i := 0;
      while i < |items|
        invariant 0 <= i <= |items| == |was| == |order|
        invariant lookup == order && |sorted| == |bits| == max
        invariant forall h :: 0 <= h < |items| ==> items[h].queue == was[h].queue && items[h].priority == was[h].priority
        invariant forall k :: 0 <= k < i ==> items[order[k]].bit == k && sorted[k] == bits[order[k]]
        invariant forall k :: i <= k < max ==> !sorted[k]
        invariant bits == old(bits)
      {
        var index := order[i];
        lookup := lookup[i := index];
        items := items[index := items[index].(bit := i)];
        if bits[index] {
          sorted := sorted[i := true];
        }
        i := i + 1;
      }
      locked := true;
      bits := sorted;
      this.order := order;
    }

    /** Notifications from interrupts. */
    method NotifyEach(notices: seq<Notice>)
      requires Valid() && Known(notices, |items|)
      modifies `bits, `events, Repr
      ensures Valid() && events == old(events) + ToldAll(notices)
      decreases |notices|
    {
      if notices != [] {
        assert ToldAll(notices) == [Told(notices[0])] + ToldAll(notices[1..]);
        assert events + ToldAll(notices) == events + [Told(notices[0])] + ToldAll(notices[1..]);
        Notify(notices[0]);
        NotifyEach(notices[1..]);
      }
    }

    /** The pop and the clearing of an empty handler's flag. */
    method PopAndClear(i: nat) returns (call: Notice)
      requires Agrees() && locked && i < |items| && Queues()[order[i]] != []
      modifies `bits, Repr
      ensures Agrees()
      ensures call == Notice(order[i], old(Queues())[order[i]][0])
      ensures Queues() == Popped(old(Queues()), order[i])
    {
      var empty;
      call, empty := PopItem(lookup[i]);
      if empty {
        bits := bits[items[lookup[i]].bit := false];
      }
      assert Flags(Queues());
    }

    method PopItem(h: Handle) returns (call: Notice, empty: bool)
      requires Owns() && h < |items| && Queues()[h] != []
      modifies Repr - {this}
      ensures Owns() && Queues() == Popped(old(Queues()), h)
      ensures call == Notice(h, old(Queues())[h][0]) && (empty <==> Queues()[h] == [])
    {
      var item := items[h];
      var ok, data := item.queue.Pop();
      assert ok;   // the alert on a failed pop
      empty := item.queue.IsEmpty();
      call := Notice(h, data);
    }

    /** The critical section of the loop, for a handler whose flag was set in the snapshot. */
    method Take(i: nat) returns (call: Notice)
      requires Valid() && locked && i < |items| && Queues()[order[i]] != []
      modifies `bits, `events, Repr
      ensures Valid() && events == old(events) + [Taken(order[i])]
      ensures call == Notice(order[i], old(Queues())[order[i]][0])
    {
      hide Agrees, Owns, Replay;
      OwnsOthers();
      ReplayAppend(Caps(items), events, Taken(order[i]));
      call := PopAndClear(i);
      events := events + [Taken(order[i])];
    }

    /** The lowest flag belongs to the first handler in priority order with something queued. */
    lemma LowestFlagIsPick(i: nat)
      requires Agrees() && i < |items| && bits[i]
      requires forall b :: 0 <= b < i ==> !bits[b]
      ensures Pick(order, Queues()) == i
    {
      PickIs(order, Queues(), i);
    }

    lemma FlagsAreHandlers()
      requires Agrees()
      ensures |items| <= |bits| && forall b :: 0 <= b < |bits| && bits[b] ==> b < |items|
    {
    }

    /** No flag at all means nothing queued. */
    lemma NoFlagIsIdle()
      requires Agrees() && forall b :: 0 <= b < |bits| ==> !bits[b]
      ensures Pick(order, Queues()) == |order|
    {
    }

    /**
     One round of the loop in reactor_run: the handler call it makes, if any. The notifications
     in isr arrive from interrupts between the snapshot of the flags and the critical section, so
     the handler chosen is the first in priority order at the snapshot.
     */
    method Round(isr: seq<Notice>) returns (ran: bool, call: Notice)
      requires Valid() && locked && Known(isr, |items|)
      modifies `bits, `events, Repr
      ensures Valid()
      ensures ran == (Pick(order, old(Queues())) < |order|)
      ensures !ran ==> events == old(events)
      ensures ran ==> Serves(order, Caps(items), old(events), isr, call, events)
    {
      hide Agrees, Owns, Replay, Pick;
      call := Notice(0, 0);
      if forall b :: 0 <= b < |bits| ==> !bits[b] {
        NoFlagIsIdle();
        return false, call;
      }
      OwnsOthers();
      FlagsAreHandlers();
      var i := LowestFlag(bits, |items|);
      LowestFlagIsPick(i);
      ReplayKeeps(Caps(items), events, isr, order[i]);
      NotifyEach(isr);
      call := Take(i);
      return true, call;
    }

    /** The loop of reactor_run up to its sleep, while nothing notifies any more. */
    method RunUntilIdle() returns (calls: seq<Notice>)
      requires Valid() && locked
      modifies `bits, `events, Repr
      ensures Valid() && forall h :: 0 <= h < |items| ==> Queues()[h] == []
      ensures calls == InPriorityOrder(order, old(Queues()))
    {
      hide *;
      calls := [];
      OwnsOthers();
      ghost var queues := Queues();
      DrainIsPriorityOrder(order, queues);
      var ran, call := true, Notice(0, 0);
      while ran
        invariant Valid() && locked && this !in Repr && Repr == old(Repr) && Owns() && IsPermutation(order, |Queues()|)
        invariant calls + Drain(order, Queues()) == Drain(order, queues)
        invariant !ran ==> Pick(order, Queues()) == |order| && Drain(order, Queues()) == []
        decreases ran, Total(Queues())
      {
        ran, call := RoundAlone();
        if ran {
          calls := calls + [call];
        }
      }
      NothingLeft(order, Queues());
    }

    /** A round without interrupts takes the next of the calls that are due. */
    method RoundAlone() returns (ran: bool, call: Notice)
      requires Valid() && locked
      modifies `bits, `events, Repr
      ensures Valid() && Owns() && IsPermutation(order, |items|)
      ensures !ran ==> Queues() == old(Queues()) && Pick(order, Queues()) == |order| && Drain(order, Queues()) == []
      ensures ran ==> Drain(order, old(Queues())) == [call] + Drain(order, Queues()) && Total(Queues()) < Total(old(Queues()))
    {
      hide Agrees, Serves, Replay, Drain, Pick, Total;
      ghost var before := events;
      OwnsOthers();
      ran, call := Round([]);
      OwnsOthers();
      if ran {
        ServedAlone(order, Caps(items), before, call, events);
      } else {
        DrainNothing(order, Queues());
      }
    }
  }
}
