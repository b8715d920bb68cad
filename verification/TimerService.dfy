/** The timer service of asx/src/timer.c: a sorted list kept in rotating slots. */
module TimerServices {
  import opened Rings
  import opened TimerModel
  import opened TimerCounts
  import opened ReactorModel
  import opened Reactors

  /** The C functions _timer_right_of and _timer_left_of. */
  function RightOf(index: nat, n: nat): nat
    requires index < n
  {
    if index == n - 1 then 0 else index + 1
  }

  function LeftOf(index: nat, n: nat): nat
    requires index < n
  {
    if index == 0 then n - 1 else index - 1
  }

  lemma Neighbours(active: nat, j: nat, n: nat)
    requires active < n && j < n
    ensures 0 < j ==> LeftOf(Wrap(active + j, n), n) == Wrap(active + (j - 1), n)
    ensures j + 1 < n ==> RightOf(Wrap(active + j, n), n) == Wrap(active + (j + 1), n)
  {
  }

  /** The used slots come first, and exactly the free ones carry the null handle. */
  ghost predicate Marked(view: seq<Future>, n: nat) {
    && n <= |view| && Counts(view[..n])
    && forall j :: 0 <= j < |view| ==> (view[j].reactor == NULL_HANDLE <==> n <= j)
  }

  /** The view with the used slots from q on copied one slot to the right. */
  ghost function ShiftedRight(view: seq<Future>, q: nat, n: nat): (r: seq<Future>)
    requires q <= n < |view|
    ensures |r| == |view|
  {
    view[..q + 1] + view[q..n] + view[n + 1..]
  }

  /** The view with the slots right of p, up to q, copied one slot to the left. */
  ghost function ShiftedLeft(view: seq<Future>, p: nat, q: nat): (r: seq<Future>)
    requires p <= q < |view|
    ensures |r| == |view|
  {
    view[..p] + view[p + 1..q + 1] + view[q..]
  }

  lemma ShiftRight(view: seq<Future>, q: nat, n: nat)
    requires q <= n < |view|
    ensures ShiftedRight(view, n, n) == view
    ensures q > 0 ==> var now := ShiftedRight(view, q, n); now[q := now[q - 1]] == ShiftedRight(view, q - 1, n)
  {
  }

  lemma ShiftLeft(view: seq<Future>, p: nat, q: nat)
    requires p <= q < |view|
    ensures ShiftedLeft(view, p, p) == view
    ensures q + 1 < |view| ==> var now := ShiftedLeft(view, p, q); now[q := now[q + 1]] == ShiftedLeft(view, p, q + 1)
  {
  }

  lemma MarkedInsert(view: seq<Future>, n: nat, p: nat, e: Future) returns (r: seq<Future>)
    requires Marked(view, n) && p <= n < |view|
    requires e.reactor != NULL_HANDLE && Counts([e])
    ensures r == ShiftedRight(view, p, n)[p := e]
    ensures Marked(r, n + 1) && r[..n + 1] == view[..n][..p] + [e] + view[..n][p..]
  {
    r := view[..p] + [e] + view[p..n] + view[n + 1..];
    assert [e][0] == e;
    assert forall j :: p < j <= n ==> r[j] == view[j - 1] == view[..n][j - 1];
    assert forall j :: 0 <= j < p ==> r[j] == view[j] == view[..n][j];
  }

  lemma MarkedRemove(view: seq<Future>, n: nat, p: nat, freed: Future) returns (r: seq<Future>)
    requires Marked(view, n) && p < n < |view| && freed.reactor == NULL_HANDLE
    ensures r == ShiftedLeft(view, p, n)[n - 1 := freed]
    ensures Marked(r, n - 1) && r[..n - 1] == view[..n][..p] + view[..n][p + 1..]
  {
    r := view[..p] + view[p + 1..n] + [freed] + view[n..];
    assert forall j :: p <= j < n - 1 ==> r[j] == view[j + 1] == view[..n][j + 1];
    assert forall j :: 0 <= j < p ==> r[j] == view[j] == view[..n][j];
  }

  class TimerService {
    const N: nat               // TIMER_MAX_CALLBACK
    const slots: array<Future> // _timer_future_sorted_list
    const handle: Handle       // _timer_reactor_handle
    var active: nat
    var avail: nat
    var counter: nat           // _timer_free_running_ms_counter
    var current: nat           // _timer_current_instance
    ghost var n: nat           // how many slots are in use

    /** All slots, from the active one rightwards. */
    ghost function View(): (v: seq<Future>)
      requires 0 < N == slots.Length && active < N
      reads this`active, slots
      ensures |v| == N
    {
      Ring(slots[..], active, N)
    }

    ghost predicate Shape()
      reads this`active, this`n, this`avail
    {
      && 0 < N == slots.Length
      && active < N && n <= N && avail == Wrap(active + n, N)
    }

    ghost predicate Valid()
      reads this, slots
    {
      && Shape() && 2 <= N <= 128
      && counter < RANGE && current < RANGE
      && Marked(View(), n)
    }

    ghost function Live(): seq<Future>
      requires Valid()
      reads this, slots
    {
      View()[..n]
    }

    /** The instance the next arm gets. */
    function Next(): (r: nat)
      requires current < RANGE
      reads this`current
      ensures r < RANGE
    {
      Add(current, 1)
    }

    ghost function Abs(): Timers
      requires Valid()
      reads this, slots
    {
      Timers(counter, Live(), Next())
    }

    /** timer_init */
    constructor (n: nat, handle: Handle)
      requires 2 <= n <= 128
      ensures Valid() && fresh(slots) && N == n && this.handle == handle
      ensures Abs() == Timers(0, [], 0)
    {
      N := n;
      this.handle := handle;
      slots := new Future[n](_ => Future(NULL_HANDLE, 0, 0, 0, 0));
      active, avail, counter, current, this.n := 0, 0, 0, INVALID_INSTANCE, 0;
    }

    /** The copy of one slot, j steps right of the active one. */
    method Store(i: nat, ghost j: nat, f: Future)
      requires 0 < N == slots.Length && active < N && j < N && i == Wrap(active + j, N)
      modifies slots
      ensures View() == old(View())[j := f]
    {
      RingUpdate(slots[..], active, j, f);
      ghost var was := slots[..];
      slots[i] := f;
      assert slots[..] == was[i := f];
    }

    /** The memcpy of the shifting loops: from the slot k steps right of the active one to the slot j steps right. */
    method CopySlot(i: nat, ghost j: nat, from: nat, ghost k: nat)
      requires 0 < N == slots.Length && active < N && j < N && k < N
      requires i == Wrap(active + j, N) && from == Wrap(active + k, N)
      modifies slots
      ensures View() == old(View())[j := old(View())[k]]
    {
      assert slots[from] == View()[k];
      Store(i, j, slots[from]);
    }

    /** The test of the alert in timer_arm tells a full list from an empty one. */
    lemma AlertIffFull()
      requires Valid()
      ensures (active == avail && slots[active].reactor != NULL_HANDLE) <==> n == N
    {
      assert View()[0] == slots[active];
    }

    /** The first loop of timer_arm: the slot of the first future due after count. */
    method FindInsertPoint(now: nat, count: nat, ghost live: seq<Future>) returns (insertPoint: nat, ghost p: nat)
      requires Valid() && live == Live() && n < N && now < RANGE && count < RANGE
      ensures p <= n && insertPoint == Wrap(active + p, N)
      ensures forall j :: 0 <= j < p ==> Distance(now, live[j].count) <= Distance(now, count)
      ensures p < n ==> Distance(now, count) < Distance(now, live[p].count)
    {
      p := 0;
      insertPoint := active;
      while insertPoint != avail
        invariant p <= n && insertPoint == Wrap(active + p, N)
        invariant forall j :: 0 <= j < p ==> Distance(now, live[j].count) <= Distance(now, count)
        decreases n - p
      {
        assert slots[insertPoint] == live[p];
        if Distance(now, count) < Distance(now, slots[insertPoint].count) {
          break;
        }
        insertPoint := RightOf(insertPoint, N);
        p := p + 1;
      }
    }

    /** The body of timer_arm's second loop. */
    method PullFromLeft(i: nat, ghost view: seq<Future>, ghost q: nat) returns (oneLeftOf: nat)
      requires 0 < N == slots.Length && active < N && 0 < q <= n < N == |view| && i == Wrap(active + q, N)
      requires View() == ShiftedRight(view, q, n)
      modifies slots
      ensures oneLeftOf == Wrap(active + (q - 1), N) && View() == ShiftedRight(view, q - 1, n)
    {
      oneLeftOf := LeftOf(i, N);
      Neighbours(active, q, N);
      ShiftRight(view, q, n);
      CopySlot(i, q, oneLeftOf, q - 1);
    }

    /** The second loop of timer_arm: shifts the used slots from insertPoint on to the right. */
    method MakeRoom(insertPoint: nat, ghost p: nat)
      requires Shape() && p <= n < N && insertPoint == Wrap(active + p, N)
      modifies slots
      ensures View() == ShiftedRight(old(View()), p, n)
    {
      hide View, ShiftedRight;
      ghost var view := View();
      ghost var q := n;
      var i := avail;
      ShiftRight(view, n, n);
      while i != insertPoint
        invariant p <= q <= n && i == Wrap(active + q, N)
        invariant View() == ShiftedRight(view, q, n)
        decreases q
      {
        i := PullFromLeft(i, view, q);
        q := q - 1;
      }
    }

    /** The rest of timer_arm: the new future takes the insertion point. */
    method Place(insertPoint: nat, ghost p: nat, e: Future)
      requires Valid() && p <= n < N && insertPoint == Wrap(active + p, N)
      requires e.reactor != NULL_HANDLE && Counts([e])
      modifies this`avail, this`n, slots
      ensures Valid() && n == old(n) + 1
      ensures Live() == old(Live())[..p] + [e] + old(Live())[p..]
    {
      ghost var view := View();
      MakeRoom(insertPoint, p);
      Store(insertPoint, p, e);
      ghost var r := MarkedInsert(view, n, p, e);
      assert View() == r;
      avail := RightOf(avail, N);
      n := n + 1;
    }

    /** timer_arm; the alert stops it when every slot is used. */
    method Arm(reactor: Handle, count: nat, repeat: nat, arg: int) returns (instance: nat)
      requires Valid() && reactor != NULL_HANDLE && count < RANGE && repeat < RANGE
      requires n < N
      modifies this`avail, this`current, this`n, slots
      ensures Valid() && n == old(n) + 1
      ensures current == old(Next())
      ensures instance == if repeat > 0 then INVALID_INSTANCE else old(Next())
      ensures Live() == InsertByDistance(old(Live()), counter, Future(reactor, old(Next()), count, repeat, arg))
      ensures old(SortedFrom(counter, Live())) ==> SortedFrom(counter, Live())
    {
      hide InsertByDistance, SortedFrom, Distance, View;
      AlertIffFull();
      ghost var live := Live();
      var insertPoint, p := FindInsertPoint(counter, count, live);
      var e := Future(reactor, Add(current, 1), count, repeat, arg);
      CountsOfLive();
      InsertByDistanceSplits(live, counter, e, p);
      if SortedFrom(counter, live) {
        InsertKeepsSorted(counter, live, e);
      }
      current := e.instance;
      Place(insertPoint, p, e);
      instance := if repeat > 0 then INVALID_INSTANCE else current;
    }

    lemma CountsOfLive()
      requires Valid()
      ensures Counts(Live())
    {
    }

    /** The body of timer_cancel's inner loop. */
    method PullFromRight(i: nat, ghost view: seq<Future>, ghost p: nat, ghost q: nat) returns (oneRightOf: nat)
      requires 0 < N == slots.Length && active < N && p <= q && q + 1 < N == |view| && i == Wrap(active + q, N)
      requires View() == ShiftedLeft(view, p, q)
      modifies slots
      ensures oneRightOf == Wrap(active + (q + 1), N) && View() == ShiftedLeft(view, p, q + 1)
    {
      oneRightOf := RightOf(i, N);
      Neighbours(active, q, N);
      ShiftLeft(view, p, q);
      CopySlot(i, q, oneRightOf, q + 1);
    }

    /** The inner loop of timer_cancel: shifts the slots right of the one found over it. */
    method CloseGap(slot: nat, ghost p: nat)
      requires Shape() && p < n < N && slot == Wrap(active + p, N)
      modifies slots
      ensures View() == ShiftedLeft(old(View()), p, n)
    {
      hide View, ShiftedLeft;
      ghost var view := View();
      ghost var q := p;
      var i := slot;
      ShiftLeft(view, p, p);
      while i != avail
        invariant p <= q <= n && i == Wrap(active + q, N)
        invariant View() == ShiftedLeft(view, p, q)
        decreases n - q
      {
        i := PullFromRight(i, view, p, q);
        q := q + 1;
      }
    }

    /** The rest of timer_cancel once the slot is found. */
    method Reclaim(slot: nat, ghost p: nat)
      requires Valid() && p < n < N && slot == Wrap(active + p, N)
      modifies this`avail, this`n, slots
      ensures Valid() && n == old(n) - 1
      ensures Live() == old(Live())[..p] + old(Live())[p + 1..]
    {
      ghost var view := View();
      CloseGap(slot, p);
      avail := LeftOf(avail, N);
      ghost var freed := slots[avail].(reactor := NULL_HANDLE);
      ghost var r := MarkedRemove(view, n, p, freed);
      Store(avail, n - 1, slots[avail].(reactor := NULL_HANDLE));
      assert View() == r;
      n := n - 1;
    }

    /** timer_cancel; when every slot is used the list reads as empty. */
    method Cancel(instance: nat) returns (found: bool)
      requires Valid()
      modifies this`avail, this`n, slots
      ensures Valid()
      ensures found == (old(n) < N && IsLive(old(Live()), instance))
      ensures Live() == if found then Remove(old(Live()), instance) else old(Live())
      ensures old(n) < N ==> Abs() == TimerModel.Cancel(old(Abs()), instance)
      ensures old(SortedFrom(counter, Live())) ==> SortedFrom(counter, Live())
    {
      ghost var live := Live();
      if SortedFrom(counter, live) {
        RemoveKeepsSorted(counter, live, instance);
      }
      ghost var p := 0;
      var slot := active;
      while slot != avail
        invariant p <= n && slot == Wrap(active + p, N) && Valid()
        invariant n == old(n) && avail == old(avail) && Live() == live && (n == N ==> p == 0)
        invariant forall j :: 0 <= j < p ==> live[j].instance != instance
        decreases n - p
      {
        assert slots[slot] == live[p];
        if slots[slot].instance == instance {
          Reclaim(slot, p);
          RemoveAt(live, instance, p);
          return true;
        }
        slot := RightOf(slot, N);
        p := p + 1;
      }
      ghost var _ := RemoveSplits(live, instance);
      return false;
    }

    /** There are slots and instances for so many arms, within reach of the clock and of each other. */
    ghost predicate Room(arms: nat, reach: nat)
      reads this, slots
    {
      && Valid() && n + arms < N
      && counter + reach < RANGE && reach < HALF && AllNear(counter, Live())
      && Next() + arms <= INVALID_INSTANCE
    }

    lemma RoomShrinks(arms: nat, reach: nat)
      requires Room(arms, reach) && 0 < arms
      ensures Room(arms - 1, reach)
    {
    }

    /** timer_get_count_from_now */
    function CountFromNow(delay: nat): nat
      requires counter < RANGE && delay < RANGE
      reads this`counter
    {
      Add(counter, delay)
    }

    /** timer_arm(reactor, timer_get_count_from_now(delay), 0, 0) */
    method ArmAfter(reactor: Handle, delay: nat, ghost arms: nat, ghost reach: nat) returns (instance: nat)
      requires Room(arms, reach) && 0 < arms && delay <= reach && reactor != NULL_HANDLE
      modifies this`avail, this`current, this`n, slots
      ensures Room(arms - 1, reach) && counter == old(counter)
      ensures Abs() == TimerModel.Arm(old(Abs()), reactor, old(counter) + delay, 0, 0)
      ensures instance == old(Next()) && instance < INVALID_INSTANCE
    {
      ghost var e := Future(reactor, Next(), counter + delay, 0, 0);
      AllNearInsert(counter, Live(), e);
      InsertByDistanceIsInsert(Live(), counter, e);
      instance := Arm(reactor, CountFromNow(delay), 0, 0);
    }

    method CancelInstance(instance: nat, ghost arms: nat, ghost reach: nat) returns (found: bool)
      requires Room(arms, reach)
      modifies this`avail, this`n, slots
      ensures Room(arms, reach) && counter == old(counter)
      ensures Abs() == TimerModel.Cancel(old(Abs()), instance)
    {
      AllNearRemove(counter, Live(), instance);
      found := Cancel(instance);
    }

    ghost predicate Apart(r: Reactor)
      reads r`Repr
    {
      this !in r.Repr && slots !in r.Repr
    }

    /** The tick interrupt. */
    method IsrTick(r: Reactor)
      requires Valid() && r.Valid() && Apart(r) && handle < |r.items|
      modifies this`counter, r`bits, r`events, r.Repr
      ensures Valid() && counter == Add(old(counter), 1) && Live() == old(Live())
      ensures r.Valid() && r.events == old(r.events) + [Told(Notice(handle, 0))]
      ensures old(SortedFrom(counter, Live()) && StaysInReach(counter, Live(), 1)) ==> SortedFrom(counter, Live())
    {
      if SortedFrom(counter, Live()) && StaysInReach(counter, Live(), 1) {
        TickKeepsSorted(counter, Live());
      }
      counter := Add(counter, 1);
      r.Notify(Notice(handle, 0));
    }

    /** A repeating future re-arms while it still is the active one; the new deadline goes behind it. */
    method RearmActive(now: nat)
      requires Valid() && 0 < n < N && HeadDue(Live(), now) && Regular(Live(), now, counter)
      requires Live()[0].repeat > 0 && Next() + 1 < RANGE
      modifies this`avail, this`current, this`n, slots
      ensures Valid() && n == old(n) + 1 && Next() == old(Next()) + 1
      ensures Live() == [old(Live())[0]] + AfterHead(old(Live()), old(Next()))
    {
      ghost var live := Live();
      var future := slots[active];
      assert future == View()[0] == live[0];
      RegularAfterHead(live, Next(), now, counter);
      ghost var e := Rearmed(future, Next());
      InsertByDistanceIsInsert(live, counter, e);
      var _ := Arm(future.reactor, Add(future.count, future.repeat), future.repeat, 0);
    }

    /** The part of a dispatch round after the notification. */
    method Advance(now: nat)
      requires Valid() && 0 < n < N && HeadDue(Live(), now) && Regular(Live(), now, counter)
      requires Live()[0].repeat > 0 ==> Next() + 1 < RANGE
      modifies this`active, this`avail, this`current, this`n, slots
      ensures Valid() && n < N
      ensures Live() == AfterHead(old(Live()), old(Next())) && Next() == NextAfterHead(old(Live()), old(Next()))
    {
      assert slots[active] == View()[0];
      if slots[active].repeat > 0 {
        RearmActive(now);
      }
      DropActive();
    }

    /** Tick interrupts, count of them. */
    method IsrTicks(r: Reactor, count: nat)
      requires Valid() && r.Valid() && Apart(r) && handle < |r.items| && counter + count < RANGE
      modifies this`counter, r`bits, r`events, r.Repr
      ensures Valid() && counter == old(counter) + count && Live() == old(Live())
      ensures r.Valid() && r.events == old(r.events) + ToldAll(Ticks(handle, count))
    {
      if count > 0 {
        ghost var rest := Ticks(handle, count - 1);
        assert ToldAll(Ticks(handle, count)) == [Told(Notice(handle, 0))] + ToldAll(rest);
        assert r.events + ([Told(Notice(handle, 0))] + ToldAll(rest)) == r.events + [Told(Notice(handle, 0))] + ToldAll(rest);
        IsrTick(r);
        IsrTicks(r, count - 1);
      }
    }

    /** A round of timer_dispatch whose active future is due. */
    method FireActive(r: Reactor, now: nat)
      requires Valid() && r.Valid() && Apart(r)
      requires 0 < n < N && HeadDue(Live(), now) && Regular(Live(), now, counter)
      requires Live()[0].reactor < |r.items| && NextAfterHead(Live(), Next()) < RANGE
      modifies this`active, this`avail, this`current, this`n, slots, r`bits, r`events, r.Repr
      ensures Valid() && n < N
      ensures Live() == AfterHead(old(Live()), old(Next())) && Next() == NextAfterHead(old(Live()), old(Next()))
      ensures r.Valid() && r.events == old(r.events) + [Told(NoticeOf(old(Live())[0]))]
    {
      assert slots[active] == View()[0];
      r.Notify(NoticeOf(slots[active]));
      Advance(now);
    }

    /** The future in the active slot, which is the next one due. */
    method ActiveSlot(now: nat) returns (future: Future)
      requires Valid() && 0 < n
      ensures Live() != [] && future == Live()[0] && (HeadDue(Live(), now) <==> future.count <= now)
      ensures active < slots.Length && future == slots[active]
    {
      future := slots[active];
      assert future == View()[0] == Live()[0];
    }

    /** One round of timer_dispatch, before which burst tick interrupts land. */
    method DispatchRound(r: Reactor, now: nat, burst: nat) returns (fired: bool)
      requires Valid() && r.Valid() && Apart(r) && handle < |r.items|
      requires 0 < n < N && Aimed(Live(), |r.items|)
      requires now <= counter && Regular(Live(), now, counter + burst)
      requires HeadDue(Live(), now) ==> NextAfterHead(Live(), Next()) < RANGE
      modifies this`active, this`avail, this`counter, this`current, this`n, slots, r`bits, r`events, r.Repr
      ensures Valid() && n < N && counter == old(counter) + burst
      ensures r.Valid() && fired == HeadDue(old(Live()), now)
      ensures Live() == if fired then AfterHead(old(Live()), old(Next())) else old(Live())
      ensures Next() == if fired then NextAfterHead(old(Live()), old(Next())) else old(Next())
      ensures r.events == old(r.events) + ToldAll(Ticks(handle, burst) + if fired then [NoticeOf(old(Live())[0])] else [])
    {
      hide Valid, Live, View, Reactor.Valid, HeadDue, AfterHead, NextAfterHead, Regular, Aimed, Ticks, ToldAll;
      ghost var ticks := Ticks(handle, burst);
      var future := ActiveSlot(now);
      HeadFits(Live(), now, counter + burst, |r.items|);
      r.OwnsOthers();
      IsrTicks(r, burst);
      if now < future.count {
        assert ticks + [] == ticks;
        return false;
      }
      assert ToldAll(ticks + [NoticeOf(future)]) == ToldAll(ticks) + [Told(NoticeOf(future))];
      FireActive(r, now);
      return true;
    }

    /**
     What holds between the rounds of a dispatch that read the time now: b is what it will have
     done in all, done and trace are the notifications so far, without and with the ticks.
     */
    ghost predicate Dispatching(r: Reactor, now: nat, until: nat, events: seq<Event>, trace: seq<Notice>, done: seq<Future>, b: Burst)
      reads this, slots, r, r.Repr
    {
      && Valid() && r.Valid() && Apart(r) && handle < |r.items| && n < N
      && Underway(Live(), Next(), counter, handle, |r.items|, now, until, trace, done, b)
      && r.events == events + ToldAll(trace)
    }

    method DispatchNext(r: Reactor, now: nat, ghost until: nat, burst: nat,
                        ghost events: seq<Event>, ghost trace: seq<Notice>, ghost done: seq<Future>, ghost b: Burst)
      returns (fired: bool, ghost trace': seq<Notice>, ghost done': seq<Future>)
      requires Dispatching(r, now, until, events, trace, done, b) && 0 < n && counter + burst <= until
      modifies this`active, this`avail, this`counter, this`current, this`n, slots, r`bits, r`events, r.Repr
      ensures Dispatching(r, now, until, events, trace', done', b) && counter == old(counter) + burst
      ensures if fired then TotalOverdue(Live(), now) < TotalOverdue(old(Live()), now) else !HeadDue(Live(), now)
    {
      ghost var live, next := Live(), Next();
      assert live != [];
      hide Underway, HeadDue, AfterHead, NextAfterHead, TotalOverdue, Regular, Aimed, Fire, ToldAll, Ticks, View;
      trace', done' := RoundUnderway(live, next, counter, handle, |r.items|, now, until, burst, events, trace, done, b);
      fired := DispatchRound(r, now, burst);
    }

    /**
     timer_dispatch while up to ticks tick interrupts land at any points between its rounds. What
     it does depends only on the time it read at its start: the notifications are those of
     TimerModel.Fire, in that order, with the tick's own notifications mixed in.
     */
    method Dispatch(r: Reactor, ticks: nat) returns (ghost trace: seq<Notice>)
      requires Valid() && r.Valid() && Apart(r) && handle < |r.items|
      requires n < N && Aimed(Live(), |r.items|)
      requires Regular(Live(), counter, counter + ticks)
      requires Fire(Live(), Next(), counter).next < RANGE
      modifies this`active, this`avail, this`counter, this`current, this`n, slots, r`bits, r`events, r.Repr
      ensures Valid() && n < N && old(counter) <= counter <= old(counter) + ticks
      ensures var b := Fire(old(Live()), old(Next()), old(counter));
              && Live() == b.live && Next() == b.next
              && IsMixed(trace, handle, b.notes)
      ensures r.Valid() && r.events == old(r.events) + ToldAll(trace)
    {
      trace := [];
      ghost var done: seq<Future> := [];
      ghost var b, events, until := Fire(Live(), Next(), counter), r.events, counter + ticks;
      var timeNow := counter;
      var left := ticks;
      while active != avail
        invariant Dispatching(r, timeNow, until, events, trace, done, b)
        invariant counter + left == until
        decreases TotalOverdue(Live(), timeNow)
      {
        var burst :| 0 <= burst <= left;
        var fired;
        fired, trace, done := DispatchNext(r, timeNow, until, burst, events, trace, done, b);
        left := left - burst;
        if !fired {
          break;
        }
      }
      assert !HeadDue(Live(), timeNow) && done + [] == done;
    }

    /** The end of the round: the active slot is passed by and marked free. */
    method DropActive()
      requires Valid() && 0 < n
      modifies this`active, this`n, slots
      ensures Valid() && n == old(n) - 1
      ensures Live() == old(Live())[1..]
    {
      ghost var view := View();
      var future := active;
      RingRotate(slots[..], active);
      active := RightOf(active, N);
      n := n - 1;
      Store(future, N - 1, slots[future].(reactor := NULL_HANDLE));
      assert View() == view[1..] + [view[0].(reactor := NULL_HANDLE)];
      assert View()[..n] == view[1..n + 1];
    }
  }

  ghost predicate Aimed(live: seq<Future>, n: nat) {
    forall i :: 0 <= i < |live| ==> live[i].reactor < n
  }

  function Ticks(handle: Handle, count: nat): (r: seq<Notice>)
    ensures |r| == count && forall i :: 0 <= i < |r| ==> r[i] == Notice(handle, 0)
  {
    seq(count, _ => Notice(handle, 0))
  }

  /** The notices of the futures, with notifications of the tick in between. */
  ghost predicate IsMixed(trace: seq<Notice>, tick: Handle, notes: seq<Future>) {
    Without(trace, tick) == Without(NoticesOf(notes), tick)
  }

  ghost function Without(trace: seq<Notice>, h: Handle): seq<Notice> {
    if trace == [] then []
    else Without(trace[..|trace| - 1], h) + (if trace[|trace| - 1].handle == h then [] else [trace[|trace| - 1]])
  }

  function NoticesOf(notes: seq<Future>): (r: seq<Notice>)
    ensures |r| == |notes| && forall i :: 0 <= i < |r| ==> r[i] == NoticeOf(notes[i])
  {
    seq(|notes|, i requires 0 <= i < |notes| => NoticeOf(notes[i]))
  }

  function NoticeOf(f: Future): Notice {
    Notice(f.reactor, f.arg)
  }

  function PrependNotes(notes: seq<Future>, b: Burst): Burst {
    b.(notes := notes + b.notes)
  }

  lemma {:induction false} MixedTicks(trace: seq<Notice>, tick: Handle, done: seq<Future>, count: nat)
    requires IsMixed(trace, tick, done)
    ensures IsMixed(trace + Ticks(tick, count), tick, done)
  {
    if count == 0 {
      assert trace + Ticks(tick, count) == trace;
    } else {
      MixedTicks(trace, tick, done, count - 1);
      var all := trace + Ticks(tick, count);
      assert |Ticks(tick, count)| == count;
      assert all[..|all| - 1] == trace + Ticks(tick, count - 1);
    }
  }

  lemma MixedNote(trace: seq<Notice>, tick: Handle, done: seq<Future>, f: Future)
    requires IsMixed(trace, tick, done)
    ensures IsMixed(trace + [NoticeOf(f)], tick, done + [f])
  {
    assert (trace + [NoticeOf(f)])[..|trace|] == trace;
    assert NoticesOf(done + [f])[..|done|] == NoticesOf(done);
  }

  lemma FireStep(done: seq<Future>, live: seq<Future>, next: nat, now: nat)
    requires HeadDue(live, now)
    ensures PrependNotes(done, Fire(live, next, now))
         == PrependNotes(done + [live[0]], Fire(AfterHead(live, next), NextAfterHead(live, next), now))
  {
    OverdueShrinks(live, next, now);
    PrependAssoc(done, live[0], Fire(AfterHead(live, next), NextAfterHead(live, next), now));
  }

  lemma PrependAssoc(done: seq<Future>, f: Future, b: Burst)
    ensures PrependNotes(done, b.(notes := [f] + b.notes)) == PrependNotes(done + [f], b)
  {
    assert done + ([f] + b.notes) == done + [f] + b.notes;
  }

  /** A dispatch that read the time now, between two rounds: b is what it will have done in all. */
  ghost predicate Underway(live: seq<Future>, next: nat, counter: nat, tick: Handle, handles: nat, now: nat, until: nat,
                           trace: seq<Notice>, done: seq<Future>, b: Burst)
  {
    && Aimed(live, handles) && now <= counter <= until && Regular(live, now, until)
    && b == PrependNotes(done, Fire(live, next, now)) && b.next < RANGE && IsMixed(trace, tick, done)
  }

  lemma HeadFits(live: seq<Future>, from: nat, to: nat, handles: nat)
    requires live != [] && Aimed(live, handles) && Regular(live, from, to)
    ensures live[0].reactor < handles && to < RANGE
  {
  }

  /** What a round of dispatch needs. */
  lemma RoundNeeds(live: seq<Future>, next: nat, now: nat, mid: nat, to: nat, handles: nat)
    requires live != [] && Aimed(live, handles) && Regular(live, now, to) && now <= mid <= to
    ensures Regular(live, now, mid)
    ensures HeadDue(live, now) ==>
      && NextAfterHead(live, next) <= Fire(live, next, now).next
      && TotalOverdue(AfterHead(live, next), now) < TotalOverdue(live, now)
      && Aimed(AfterHead(live, next), handles) && Regular(AfterHead(live, next), now, to)
  {
    if HeadDue(live, now) {
      OverdueShrinks(live, next, now);
      FireNextGrows(AfterHead(live, next), NextAfterHead(live, next), now);
      RegularAfterHead(live, next, now, to);
      if live[0].repeat > 0 {
        var p := InsertSplits(live[1..], Rearmed(live[0], next));
      }
    }
  }

  /** What a round of dispatch keeps, with burst ticks landing in it. */
  lemma RoundUnderway(live: seq<Future>, next: nat, counter: nat, tick: Handle, handles: nat, now: nat, until: nat,
                      burst: nat, events: seq<Event>, trace: seq<Notice>, done: seq<Future>, b: Burst)
    returns (trace': seq<Notice>, done': seq<Future>)
    requires Underway(live, next, counter, tick, handles, now, until, trace, done, b)
    requires live != [] && counter + burst <= until
    ensures Aimed(live, handles) && now <= counter && Regular(live, now, counter + burst)
    ensures HeadDue(live, now) ==> NextAfterHead(live, next) < RANGE
    ensures HeadDue(live, now) ==> TotalOverdue(AfterHead(live, next), now) < TotalOverdue(live, now)
    ensures HeadDue(live, now) ==>
      Underway(AfterHead(live, next), NextAfterHead(live, next), counter + burst, tick, handles, now, until, trace', done', b)
    ensures !HeadDue(live, now) ==> Underway(live, next, counter + burst, tick, handles, now, until, trace', done', b)
    ensures events + ToldAll(trace')
         == events + ToldAll(trace)
            + ToldAll(Ticks(tick, burst) + if HeadDue(live, now) then [NoticeOf(live[0])] else [])
  {
    hide Underway, Fire, Regular, Aimed, AfterHead, NextAfterHead, TotalOverdue, HeadDue, PrependNotes, IsMixed, ToldAll;
    UnderwayParts(live, next, counter, tick, handles, now, until, trace, done, b);
    RoundNeeds(live, next, now, counter + burst, until, handles);
    trace', done' := MixedRound(events, trace, tick, done, burst, HeadDue(live, now), live[0]);
    if HeadDue(live, now) {
      FireStep(done, live, next, now);
      var live', next' := AfterHead(live, next), NextAfterHead(live, next);
      UnderwayIs(live', next', counter + burst, tick, handles, now, until, trace', done', b);
    } else {
      UnderwayIs(live, next, counter + burst, tick, handles, now, until, trace', done', b);
    }
  }

  lemma UnderwayParts(live: seq<Future>, next: nat, counter: nat, tick: Handle, handles: nat, now: nat, until: nat,
                      trace: seq<Notice>, done: seq<Future>, b: Burst)
    requires Underway(live, next, counter, tick, handles, now, until, trace, done, b)
    ensures Aimed(live, handles) && now <= counter <= until && Regular(live, now, until) && IsMixed(trace, tick, done)
    ensures b == PrependNotes(done, Fire(live, next, now)) && b.next == Fire(live, next, now).next < RANGE
  {
  }

  lemma UnderwayIs(live: seq<Future>, next: nat, counter: nat, tick: Handle, handles: nat, now: nat, until: nat,
                   trace: seq<Notice>, done: seq<Future>, b: Burst)
    requires Aimed(live, handles) && now <= counter <= until && Regular(live, now, until) && IsMixed(trace, tick, done)
    requires b == PrependNotes(done, Fire(live, next, now)) && b.next < RANGE
    ensures Underway(live, next, counter, tick, handles, now, until, trace, done, b)
  {
  }

  lemma MixedRound(events: seq<Event>, trace: seq<Notice>, tick: Handle, done: seq<Future>, burst: nat, fired: bool, f: Future)
    returns (trace': seq<Notice>, done': seq<Future>)
    requires IsMixed(trace, tick, done)
    ensures done' == if fired then done + [f] else done
    ensures events + ToldAll(trace')
         == events + ToldAll(trace) + ToldAll(Ticks(tick, burst) + if fired then [NoticeOf(f)] else [])
    ensures IsMixed(trace', tick, done')
  {
    MixedTicks(trace, tick, done, burst);
    trace', done' := trace + Ticks(tick, burst), done;
    if fired {
      MixedNote(trace', tick, done, f);
      trace', done' := trace' + [NoticeOf(f)], done + [f];
    }
    hide IsMixed;
  }

  lemma {:induction false} RemoveAt(live: seq<Future>, instance: nat, p: nat)
    requires p < |live| && live[p].instance == instance
    requires forall j :: 0 <= j < p ==> live[j].instance != instance
    ensures Remove(live, instance) == live[..p] + live[p + 1..]
  {
    if p > 0 {
      RemoveAt(live[1..], instance, p - 1);
    }
  }
}
