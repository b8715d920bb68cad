/**
 The timer list of asx/src/timer.c as a sequence of futures, next to expire first, over
 unbounded time. TimerService refines these functions with 32-bit counts and rotating slots.
 */
module TimerModel {
  type Handle = nat

  /** REACTOR_NULL_HANDLE, which also marks a free timer slot. */
  const NULL_HANDLE: Handle := 255

  /** TIMER_INVALID_INSTANCE */
  const INVALID_INSTANCE: nat := 0xFFFF_FFFF

  datatype Future = Future(reactor: Handle, instance: nat, count: nat, repeat: nat, arg: int)

  /** The list with its clock; next is the number of arms made so far, which names the next instance. */
  datatype Timers = Timers(now: nat, live: seq<Future>, next: nat)

  /** What one dispatch did: the futures notified, in order, and what it left. */
  datatype Burst = Burst(notes: seq<Future>, live: seq<Future>, next: nat)

  /** Stable insertion by deadline: after every future due no later. */
  function Insert(live: seq<Future>, e: Future): (r: seq<Future>)
    ensures |r| == |live| + 1
  {
    if live == [] || e.count < live[0].count then [e] + live
    else [live[0]] + Insert(live[1..], e)
  }

  function Remove(live: seq<Future>, instance: nat): (r: seq<Future>)
    ensures |r| <= |live|
  {
    if live == [] then []
    else if live[0].instance == instance then live[1..]
    else [live[0]] + Remove(live[1..], instance)
  }

  predicate IsLive(live: seq<Future>, instance: nat) {
    exists i :: 0 <= i < |live| && live[i].instance == instance
  }

  function Arm(t: Timers, reactor: Handle, count: nat, repeat: nat, arg: int): Timers {
    t.(live := Insert(t.live, Future(reactor, t.next, count, repeat, arg)), next := t.next + 1)
  }

  function Cancel(t: Timers, instance: nat): Timers {
    t.(live := Remove(t.live, instance))
  }

  /** A variable for an instance; None stands for TIMER_INVALID_INSTANCE. */
  datatype Instance = None | Armed(id: nat)

  function AsInstance(i: nat): Instance {
    if i == INVALID_INSTANCE then None else Armed(i)
  }

  function CancelInstance(t: Timers, i: Instance): Timers {
    if i == None then t else Cancel(t, i.id)
  }

  /** The next run of a repeating timer: counted from its deadline, and without its argument. */
  function Rearmed(e: Future, next: nat): Future {
    Future(e.reactor, next, e.count + e.repeat, e.repeat, 0)
  }

  /** How far a future is past its deadline at time now, plus one; 0 when it is not due. */
  function Overdue(e: Future, now: nat): nat {
    if now < e.count then 0 else now + 1 - e.count
  }

  function TotalOverdue(live: seq<Future>, now: nat): nat {
    if live == [] then 0 else Overdue(live[0], now) + TotalOverdue(live[1..], now)
  }

  lemma {:induction false} TotalOverdueOfInsert(live: seq<Future>, e: Future, now: nat)
    ensures TotalOverdue(Insert(live, e), now) == TotalOverdue(live, now) + Overdue(e, now)
  {
    if live == [] || e.count < live[0].count {
      assert ([e] + live)[1..] == live;
    } else {
      TotalOverdueOfInsert(live[1..], e, now);
      assert ([live[0]] + Insert(live[1..], e))[1..] == Insert(live[1..], e);
    }
  }

  predicate HeadDue(live: seq<Future>, now: nat) {
    live != [] && live[0].count <= now
  }

  /** The list after its first future was notified; a repeating one is armed again. */
  function AfterHead(live: seq<Future>, next: nat): seq<Future>
    requires live != []
  {
    if live[0].repeat > 0 then Insert(live[1..], Rearmed(live[0], next)) else live[1..]
  }

  function NextAfterHead(live: seq<Future>, next: nat): nat
    requires live != []
  {
    if live[0].repeat > 0 then next + 1 else next
  }

  /** Every round of a dispatch shrinks the total, so re-arming inside the loop still ends. */
  lemma OverdueShrinks(live: seq<Future>, next: nat, now: nat)
    requires HeadDue(live, now)
    ensures TotalOverdue(AfterHead(live, next), now) < TotalOverdue(live, now)
  {
    if live[0].repeat > 0 {
      TotalOverdueOfInsert(live[1..], Rearmed(live[0], next), now);
    }
  }

  /** timer_dispatch at time now. */
  function Fire(live: seq<Future>, next: nat, now: nat): Burst
    decreases TotalOverdue(live, now)
  {
    if !HeadDue(live, now) then Burst([], live, next)
    else
      OverdueShrinks(live, next, now);
      var rest := Fire(AfterHead(live, next), NextAfterHead(live, next), now);
      rest.(notes := [live[0]] + rest.notes)
  }

  function Dispatch(t: Timers): Timers {
    var b := Fire(t.live, t.next, t.now);
    t.(live := b.live, next := b.next)
  }

  // ---------------------------------------------------------------------------------------------
  // Well-formed lists

  /** Earlier deadline, or the same deadline and armed earlier. */
  predicate Before(a: Future, b: Future) {
    a.count < b.count || (a.count == b.count && a.instance < b.instance)
  }

  ghost predicate Ordered(live: seq<Future>) {
    forall i, j :: 0 <= i < j < |live| ==> Before(live[i], live[j])
  }

  ghost predicate Unique(live: seq<Future>) {
    forall i, j :: 0 <= i < j < |live| ==> live[i].instance != live[j].instance
  }

  ghost predicate Given(live: seq<Future>, next: nat) {
    forall i :: 0 <= i < |live| ==> live[i].instance < next
  }

  /** What every list built by arms, cancels and dispatches satisfies. */
  ghost predicate Sound(live: seq<Future>, next: nat) {
    Ordered(live) && Unique(live) && Given(live, next)
  }

  /** Where the new future lands; the others keep their order. */
  lemma {:induction false} InsertSplits(live: seq<Future>, e: Future) returns (p: nat)
    ensures p <= |live| && Insert(live, e) == live[..p] + [e] + live[p..]
    ensures forall j :: 0 <= j < p ==> live[j].count <= e.count
    ensures p < |live| ==> e.count < live[p].count
  {
    if live == [] || e.count < live[0].count {
      p := 0;
    } else {
      var q := InsertSplits(live[1..], e);
      p := q + 1;
      forall j | 0 <= j < p
        ensures live[j].count <= e.count
      {
        if j > 0 {
          assert live[j] == live[1..][j - 1];
        }
      }
    }
  }

  lemma {:induction false} MembersAfterInsert(live: seq<Future>, e: Future)
    ensures forall f :: f in Insert(live, e) <==> f in live || f == e
  {
    if live != [] && !(e.count < live[0].count) {
      MembersAfterInsert(live[1..], e);
      assert forall f :: f in live <==> f == live[0] || f in live[1..];
    }
  }

  lemma SoundCons(f: Future, live: seq<Future>, next: nat)
    requires Sound(live, next) && f.instance < next
    requires forall g :: g in live ==> Before(f, g) && f.instance != g.instance
    ensures Sound([f] + live, next)
  {
  }

  lemma {:induction false} InsertSound(live: seq<Future>, next: nat, e: Future)
    requires Sound(live, next) && e.instance == next
    ensures Sound(Insert(live, e), next + 1)
  {
    if live == [] || e.count < live[0].count {
      assert forall g :: g in live ==> g == live[0] || Before(live[0], g);
      SoundCons(e, live, next + 1);
    } else {
      InsertSound(live[1..], next, e);
      MembersAfterInsert(live[1..], e);
      SoundCons(live[0], Insert(live[1..], e), next + 1);
    }
  }

  /** Which future a cancel takes out; the others keep their order. */
  lemma {:induction false} RemoveSplits(live: seq<Future>, instance: nat) returns (p: nat)
    ensures IsLive(live, instance) <==> p < |live|
    ensures p < |live| ==> live[p].instance == instance && Remove(live, instance) == live[..p] + live[p + 1..]
    ensures !IsLive(live, instance) ==> Remove(live, instance) == live
  {
    if live == [] {
      p := 0;
    } else if live[0].instance == instance {
      p := 0;
    } else {
      var q := RemoveSplits(live[1..], instance);
      p := q + 1;
      if IsLive(live, instance) {
        var i :| 0 <= i < |live| && live[i].instance == instance;
        assert live[1..][i - 1].instance == instance;
      }
    }
  }

  lemma RemoveSound(live: seq<Future>, next: nat, instance: nat)
    requires Sound(live, next)
    ensures Sound(Remove(live, instance), next)
    ensures !IsLive(Remove(live, instance), instance)
  {
    var p := RemoveSplits(live, instance);
  }

  lemma {:induction false} FireSound(live: seq<Future>, next: nat, now: nat)
    requires Sound(live, next)
    ensures var b := Fire(live, next, now);
            && Sound(b.live, b.next) && next <= b.next
            && (forall i :: 0 <= i < |b.live| ==> now < b.live[i].count)
            && (forall i :: 0 <= i < |b.notes| ==> b.notes[i].count <= now)
    decreases TotalOverdue(live, now)
  {
    if HeadDue(live, now) {
      OverdueShrinks(live, next, now);
      if live[0].repeat > 0 {
        InsertSound(live[1..], next, Rearmed(live[0], next));
      }
      FireSound(AfterHead(live, next), NextAfterHead(live, next), now);
    }
  }

  lemma {:induction false} FireNextGrows(live: seq<Future>, next: nat, now: nat)
    ensures next <= Fire(live, next, now).next
    decreases TotalOverdue(live, now)
  {
    if HeadDue(live, now) {
      OverdueShrinks(live, next, now);
      FireNextGrows(AfterHead(live, next), NextAfterHead(live, next), now);
    }
  }

  // ---------------------------------------------------------------------------------------------
  // What the operations do to the futures of one handler

  function For(live: seq<Future>, h: Handle): (r: seq<Future>)
    ensures forall i :: 0 <= i < |r| ==> r[i].reactor == h && r[i] in live
  {
    if live == [] then []
    else (if live[0].reactor == h then [live[0]] else []) + For(live[1..], h)
  }

  lemma {:induction false} ForConcat(a: seq<Future>, b: seq<Future>, h: Handle)
    ensures For(a + b, h) == For(a, h) + For(b, h)
  {
    if a == [] {
      assert a + b == b;
    } else {
      ForConcat(a[1..], b, h);
      assert (a + b)[1..] == a[1..] + b;
    }
  }

  lemma {:induction false} ForFindsAll(live: seq<Future>, h: Handle, i: nat)
    requires i < |live| && live[i].reactor == h
    ensures live[i] in For(live, h)
  {
    if i > 0 {
      ForFindsAll(live[1..], h, i - 1);
    }
  }

  lemma {:induction false} ForInsert(live: seq<Future>, e: Future, h: Handle)
    ensures e.reactor != h ==> For(Insert(live, e), h) == For(live, h)
    ensures e.reactor == h && For(live, h) == [] ==> For(Insert(live, e), h) == [e]
  {
    if live == [] || e.count < live[0].count {
      assert ([e] + live)[1..] == live;
    } else {
      ForInsert(live[1..], e, h);
      assert ([live[0]] + Insert(live[1..], e))[1..] == Insert(live[1..], e);
    }
  }

  /** A cancel leaves the futures of a handler alone unless one of them carries the instance... */
  lemma {:induction false} ForRemoveOther(live: seq<Future>, instance: nat, h: Handle)
    requires forall f :: f in For(live, h) ==> f.instance != instance
    ensures For(Remove(live, instance), h) == For(live, h)
  {
    if live != [] {
      assert forall f :: f in For(live[1..], h) ==> f in For(live, h);
      assert live[0].reactor == h ==> live[0] in For(live, h);
      if live[0].instance != instance {
        ForRemoveOther(live[1..], instance, h);
        assert ([live[0]] + Remove(live[1..], instance))[1..] == Remove(live[1..], instance);
      }
    }
  }

  /** ...and takes out the handler's only one. */
  lemma {:induction false} ForRemoveOnly(live: seq<Future>, instance: nat, h: Handle)
    requires Unique(live) && |For(live, h)| == 1 && For(live, h)[0].instance == instance
    ensures For(Remove(live, instance), h) == []
  {
    var only := For(live, h)[0];
    var k :| 0 <= k < |live| && live[k] == only;
    if live[0].instance == instance {
      assert k == 0;
    } else {
      assert live[0].reactor != h;
      ForRemoveOnly(live[1..], instance, h);
      assert ([live[0]] + Remove(live[1..], instance))[1..] == Remove(live[1..], instance);
    }
  }

  ghost predicate OneShot(live: seq<Future>, h: Handle) {
    forall f :: f in For(live, h) ==> f.repeat == 0
  }

  /** A dispatch moves one-shot futures to the notifications and never loses or repeats one. */
  lemma {:induction false} ForFire(live: seq<Future>, next: nat, now: nat, h: Handle)
    requires OneShot(live, h)
    ensures var b := Fire(live, next, now); For(live, h) == For(b.notes, h) + For(b.live, h)
    decreases TotalOverdue(live, now)
  {
    if HeadDue(live, now) {
      OverdueShrinks(live, next, now);
      var after, next' := AfterHead(live, next), NextAfterHead(live, next);
      ForCons(live[0], live[1..], h);
      assert live == [live[0]] + live[1..];
      if live[0].reactor == h {
        assert live[0] in For(live, h);
      } else {
        ForInsert(live[1..], Rearmed(live[0], next), h);
      }
      ForFire(after, next', now, h);
      ForFireCons(live[0], Fire(after, next', now), h);
    }
  }

  lemma ForFireCons(f: Future, b: Burst, h: Handle)
    ensures For([f] + b.notes, h) + For(b.live, h)
         == (if f.reactor == h then [f] else []) + (For(b.notes, h) + For(b.live, h))
  {
    ForCons(f, b.notes, h);
  }

  lemma ForCons(f: Future, live: seq<Future>, h: Handle)
    ensures For([f] + live, h) == (if f.reactor == h then [f] else []) + For(live, h)
  {
    assert ([f] + live)[1..] == live;
  }

  /** The handler's only future is one-shot: a dispatch notifies it exactly when it is due. */
  lemma ForFireSingle(live: seq<Future>, next: nat, now: nat, h: Handle)
    requires Sound(live, next)
    requires OneShot(live, h) && |For(live, h)| <= 1
    ensures var b, mine := Fire(live, next, now), For(live, h);
            if mine != [] && mine[0].count <= now
            then For(b.notes, h) == mine && For(b.live, h) == []
            else For(b.notes, h) == [] && For(b.live, h) == mine
  {
    ForFire(live, next, now, h);
    FireSound(live, next, now);
    var b := Fire(live, next, now);
    if For(b.notes, h) != [] {
      assert For(b.notes, h)[0] in b.notes;
    }
    if For(b.live, h) != [] {
      assert For(b.live, h)[0] in b.live;
    }
  }
}
