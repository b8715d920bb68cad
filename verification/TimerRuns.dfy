/** What every run of arms, cancels, ticks and dispatches keeps, with the whole history at hand. */
module TimerRuns {
  import opened TimerModel

  /** A notification: the future, the time, and how many arms had been made before it. */
  datatype Note = Note(future: Future, at: nat, arms: nat)

  datatype History = History(
    timers: Timers,
    armed: seq<Future>,      // armed[i] is what instance i was armed with
    log: seq<Note>,          // every notification so far
    cancelled: set<nat>)     // the instances a cancel returned true for

  datatype Op =
    | Arm(reactor: Handle, count: nat, repeat: nat, arg: int)
    | Cancel(instance: nat)
    | Tick
    | Dispatch

  const Start := History(Timers(0, [], 0), [], [], {})

  /** One round of the dispatch loop: the head is notified and, when it repeats, armed again. */
  function FireHead(h: History): History
    requires h.timers.live != []
  {
    var t := h.timers;
    var head := t.live[0];
    h.(timers := t.(live := AfterHead(t.live, t.next), next := NextAfterHead(t.live, t.next)),
       armed := if head.repeat > 0 then h.armed + [Rearmed(head, t.next)] else h.armed,
       log := h.log + [Note(head, t.now, t.next)])
  }

  function FireAll(h: History): History
    decreases TotalOverdue(h.timers.live, h.timers.now)
  {
    if !HeadDue(h.timers.live, h.timers.now) then h
    else
      OverdueShrinks(h.timers.live, h.timers.next, h.timers.now);
      FireAll(FireHead(h))
  }

  function Step(h: History, op: Op): History {
    match op
    case Arm(reactor, count, repeat, arg) =>
      h.(timers := TimerModel.Arm(h.timers, reactor, count, repeat, arg),
         armed := h.armed + [Future(reactor, h.timers.next, count, repeat, arg)])
    case Cancel(instance) =>
      h.(timers := TimerModel.Cancel(h.timers, instance),
         cancelled := if IsLive(h.timers.live, instance) then h.cancelled + {instance} else h.cancelled)
    case Tick => h.(timers := h.timers.(now := h.timers.now + 1))
    case Dispatch => FireAll(h)
  }

  function Run(ops: seq<Op>): History {
    if ops == [] then Start else Step(Run(ops[..|ops| - 1]), ops[|ops| - 1])
  }

  predicate Notified(h: History, instance: nat) {
    exists i :: 0 <= i < |h.log| && h.log[i].future.instance == instance
  }

  /** The history's dispatch is TimerModel.Fire, with the notifications appended to the log. */
  lemma {:induction false} FireAllIsFire(h: History)
    ensures var b, t, r := Fire(h.timers.live, h.timers.next, h.timers.now), h.timers, FireAll(h);
            && r.timers == TimerModel.Dispatch(t)
            && |r.log| == |h.log| + |b.notes| && r.log[..|h.log|] == h.log
            && forall i :: 0 <= i < |b.notes| ==> r.log[|h.log| + i].future == b.notes[i] && r.log[|h.log| + i].at == t.now
    decreases TotalOverdue(h.timers.live, h.timers.now)
  {
    if HeadDue(h.timers.live, h.timers.now) {
      OverdueShrinks(h.timers.live, h.timers.next, h.timers.now);
      var h1 := FireHead(h);
      FireAllIsFire(h1);
      var r, b := FireAll(h), Fire(h.timers.live, h.timers.next, h.timers.now);
      assert r.log[..|h.log|] == r.log[..|h1.log|][..|h.log|];
      assert r.log[|h.log|] == r.log[..|h1.log|][|h.log|];
      forall i | 0 < i < |b.notes|
        ensures r.log[|h.log| + i].future == b.notes[i] && r.log[|h.log| + i].at == h.timers.now
      {
        assert r.log[|h1.log| + (i - 1)].future == b.notes[1..][i - 1];
      }
    }
  }

  // ---------------------------------------------------------------------------------------------
  // The invariant

  /** Everything live or notified is exactly what was armed under that instance. */
  ghost predicate Faithful(h: History) {
    && |h.armed| == h.timers.next
    && (forall i :: 0 <= i < |h.armed| ==> h.armed[i].instance == i)
    && (forall f :: f in h.timers.live ==> f.instance < |h.armed| && h.armed[f.instance] == f)
    && (forall n :: n in h.log ==> n.future.instance < |h.armed| && h.armed[n.future.instance] == n.future)
    && (forall i :: i in h.cancelled ==> i < |h.armed|)
  }

  /** Never early, and never twice. */
  ghost predicate Punctual(h: History) {
    && (forall n :: n in h.log ==> n.future.count <= n.at <= h.timers.now && n.future.instance < n.arms <= h.timers.next)
    && (forall i, j :: 0 <= i < j < |h.log| ==> h.log[i].future.instance != h.log[j].future.instance)
  }

  /** A future already armed when another was notified comes after it: later deadline, or armed later. */
  ghost predicate InOrder(h: History) {
    && (forall i, j :: 0 <= i < j < |h.log| && h.log[j].future.instance < h.log[i].arms
          ==> Before(h.log[i].future, h.log[j].future))
    && (forall n, f :: n in h.log && f in h.timers.live && f.instance < n.arms ==> Before(n.future, f))
  }

  /** Every armed instance is exactly one of live, notified and cancelled. */
  ghost predicate Conserved(h: History) {
    forall i :: 0 <= i < |h.armed| ==>
      && (IsLive(h.timers.live, i) || Notified(h, i) || i in h.cancelled)
      && !(IsLive(h.timers.live, i) && Notified(h, i))
      && !(IsLive(h.timers.live, i) && i in h.cancelled)
      && !(Notified(h, i) && i in h.cancelled)
  }

  ghost predicate Inv(h: History) {
    Sound(h.timers.live, h.timers.next) && Faithful(h) && Punctual(h) && InOrder(h) && Conserved(h)
  }

  lemma LiveAfterInsert(live: seq<Future>, e: Future)
    ensures forall f :: f in Insert(live, e) <==> f in live || f == e
    ensures forall i :: IsLive(Insert(live, e), i) <==> IsLive(live, i) || i == e.instance
  {
    var r := Insert(live, e);
    MembersAfterInsert(live, e);
    IsLiveIn(live);
    IsLiveIn(r);
  }

  lemma IsLiveIn(live: seq<Future>)
    ensures forall i :: IsLive(live, i) <==> exists f :: f in live && f.instance == i
  {
    forall i | exists f :: f in live && f.instance == i
      ensures IsLive(live, i)
    {
      var f :| f in live && f.instance == i;
      var k :| 0 <= k < |live| && live[k] == f;
    }
  }

  lemma LiveAfterRemove(live: seq<Future>, instance: nat)
    requires Unique(live)
    ensures forall f :: f in Remove(live, instance) <==> f in live && f.instance != instance
    ensures forall i :: IsLive(Remove(live, instance), i) <==> IsLive(live, i) && i != instance
  {
    var p := RemoveSplits(live, instance);
    var r := Remove(live, instance);
    if p < |live| {
      assert live == live[..p] + [live[p]] + live[p + 1..];
      forall f | f in live && f.instance != instance
        ensures f in r
      {
        assert f in live[..p] || f in live[p + 1..];
      }
    }
    IsLiveIn(live);
    IsLiveIn(r);
  }

  lemma ArmKeeps(h: History, reactor: Handle, count: nat, repeat: nat, arg: int)
    requires Inv(h)
    ensures Inv(Step(h, Arm(reactor, count, repeat, arg)))
  {
    var e := Future(reactor, h.timers.next, count, repeat, arg);
    InsertSound(h.timers.live, h.timers.next, e);
    LiveAfterInsert(h.timers.live, e);
    var r := Step(h, Arm(reactor, count, repeat, arg));
    assert r.armed[h.timers.next] == e;
    assert forall i :: Notified(r, i) <==> Notified(h, i);
    assert !Notified(h, e.instance);
  }

  lemma CancelKeeps(h: History, instance: nat)
    requires Inv(h)
    ensures Inv(Step(h, Cancel(instance)))
  {
    RemoveSound(h.timers.live, h.timers.next, instance);
    LiveAfterRemove(h.timers.live, instance);
    IsLiveIn(h.timers.live);
    var r := Step(h, Cancel(instance));
    assert forall i :: Notified(r, i) <==> Notified(h, i);
  }

  /** The first half of FireHead: the head moves from the list to the log. */
  function PopHead(h: History): History
    requires h.timers.live != []
  {
    h.(timers := h.timers.(live := h.timers.live[1..]),
       log := h.log + [Note(h.timers.live[0], h.timers.now, h.timers.next)])
  }

  lemma NotifiedAfterPop(h: History, i: nat)
    requires h.timers.live != []
    ensures Notified(PopHead(h), i) <==> Notified(h, i) || i == h.timers.live[0].instance
  {
    var r := PopHead(h);
    assert r.log[|h.log|].future == h.timers.live[0];
    if Notified(h, i) {
      var k :| 0 <= k < |h.log| && h.log[k].future.instance == i;
      assert r.log[k].future.instance == i;
    }
  }

  lemma PopHeadConserves(h: History)
    requires Inv(h) && HeadDue(h.timers.live, h.timers.now)
    ensures Conserved(PopHead(h))
  {
    var r, head, rest := PopHead(h), h.timers.live[0], h.timers.live[1..];
    assert h.timers.live == [head] + rest;
    IsLiveIn(h.timers.live);
    IsLiveIn(rest);
    assert IsLive(h.timers.live, head.instance);
    forall i | 0 <= i < |h.armed|
      ensures Notified(r, i) <==> Notified(h, i) || i == head.instance
      ensures IsLive(rest, i) <==> IsLive(h.timers.live, i) && i != head.instance
    {
      NotifiedAfterPop(h, i);
    }
  }

  lemma PopHeadOrders(h: History)
    requires Inv(h) && HeadDue(h.timers.live, h.timers.now)
    ensures InOrder(PopHead(h))
  {
    var r, head := PopHead(h), h.timers.live[0];
    assert forall f :: f in r.timers.live ==> f in h.timers.live && Before(head, f);
    assert forall n :: n in r.log ==> n in h.log || n.future == head;
    assert forall i :: 0 <= i < |h.log| ==> r.log[i] == h.log[i] && h.log[i] in h.log;
    assert head in h.timers.live;
  }

  lemma PopHeadPunctual(h: History)
    requires Inv(h) && HeadDue(h.timers.live, h.timers.now)
    ensures Faithful(PopHead(h)) && Punctual(PopHead(h))
  {
    var r, head := PopHead(h), h.timers.live[0];
    assert head in h.timers.live;
    assert IsLive(h.timers.live, head.instance);
    assert !Notified(h, head.instance);
    assert forall n :: n in r.log ==> n in h.log || n == Note(head, h.timers.now, h.timers.next);
  }

  lemma PopHeadKeeps(h: History)
    requires Inv(h) && HeadDue(h.timers.live, h.timers.now)
    ensures Inv(PopHead(h))
  {
    PopHeadConserves(h);
    PopHeadOrders(h);
    PopHeadPunctual(h);
  }

  lemma FireHeadKeeps(h: History)
    requires Inv(h) && HeadDue(h.timers.live, h.timers.now)
    ensures Inv(FireHead(h))
  {
    hide Inv, TimerModel.Insert;
    PopHeadKeeps(h);
    var head := h.timers.live[0];
    if head.repeat > 0 {
      var p := PopHead(h);
      var again := Arm(head.reactor, head.count + head.repeat, head.repeat, 0);
      ArmKeeps(p, again.reactor, again.count, again.repeat, again.arg);
      assert FireHead(h) == Step(p, again);
    } else {
      assert FireHead(h) == PopHead(h);
    }
  }

  lemma {:induction false} FireAllKeeps(h: History)
    requires Inv(h)
    ensures Inv(FireAll(h))
    decreases TotalOverdue(h.timers.live, h.timers.now)
  {
    if HeadDue(h.timers.live, h.timers.now) {
      OverdueShrinks(h.timers.live, h.timers.next, h.timers.now);
      FireHeadKeeps(h);
      FireAllKeeps(FireHead(h));
    }
  }

  /** Every run of the service keeps the invariant. */
  lemma {:induction false} RunsKeepInv(ops: seq<Op>)
    ensures Inv(Run(ops))
  {
    if ops != [] {
      var h, op := Run(ops[..|ops| - 1]), ops[|ops| - 1];
      RunsKeepInv(ops[..|ops| - 1]);
      match op
      case Arm(reactor, count, repeat, arg) => ArmKeeps(h, reactor, count, repeat, arg);
      case Cancel(instance) => CancelKeeps(h, instance);
      case Tick =>
        assert forall i :: Notified(Step(h, Tick), i) <==> Notified(h, i);
      case Dispatch => FireAllKeeps(h);
    }
  }

  // ---------------------------------------------------------------------------------------------
  // What a caller sees

  /** A notification is what was armed under that instance, at or after its count, and comes once. */
  lemma NotifiedOnceInTime(ops: seq<Op>, i: nat)
    requires i < |Run(ops).log|
    ensures var h := Run(ops); var n := h.log[i];
            && n.future.instance < |h.armed| && h.armed[n.future.instance] == n.future
            && n.future.count <= n.at
            && forall j :: 0 <= j < |h.log| && h.log[j].future.instance == n.future.instance ==> j == i
  {
    RunsKeepInv(ops);
    assert Run(ops).log[i] in Run(ops).log;
  }

  /** Of two futures armed before the first of them fires, the one due first, or armed first at equal counts, is notified first. */
  lemma NotifiedInDeadlineOrder(ops: seq<Op>, i: nat, j: nat)
    requires var h := Run(ops); i < |h.log| && j < |h.log|
    requires var h := Run(ops); h.log[j].future.instance < h.log[i].arms && h.log[i].future.instance < h.log[j].arms
    ensures var h := Run(ops); i < j <==> Before(h.log[i].future, h.log[j].future)
  {
    RunsKeepInv(ops);
  }

  /** An instance whose cancel returned true is never notified, neither before nor in any continuation. */
  lemma CancelledNeverNotified(ops: seq<Op>, instance: nat, more: seq<Op>)
    requires IsLive(Run(ops).timers.live, instance)
    ensures !Notified(Run(ops + [Cancel(instance)] + more), instance)
  {
    var cut := ops + [Cancel(instance)];
    assert cut[..|cut| - 1] == ops;
    assert instance in Run(cut).cancelled;
    CancelledGrows(cut, more, instance);
    RunsKeepInv(cut + more);
  }

  lemma {:induction false} CancelledGrows(ops: seq<Op>, more: seq<Op>, instance: nat)
    requires instance in Run(ops).cancelled
    ensures instance in Run(ops + more).cancelled
  {
    if more == [] {
      assert ops + more == ops;
    } else {
      var all := ops + more;
      assert all[..|all| - 1] == ops + more[..|more| - 1];
      CancelledGrows(ops, more[..|more| - 1], instance);
      StepCancels(Run(all[..|all| - 1]), all[|all| - 1]);
    }
  }

  lemma StepCancels(h: History, op: Op)
    ensures h.cancelled <= Step(h, op).cancelled
  {
    FireAllCancels(h);
  }

  lemma {:induction false} FireAllCancels(h: History)
    ensures FireAll(h).cancelled == h.cancelled && FireAll(h).timers.now == h.timers.now
    decreases TotalOverdue(h.timers.live, h.timers.now)
  {
    if HeadDue(h.timers.live, h.timers.now) {
      OverdueShrinks(h.timers.live, h.timers.next, h.timers.now);
      FireAllCancels(FireHead(h));
    }
  }

  /** After a dispatch every armed future whose count was reached has been notified, unless it was cancelled. */
  lemma DispatchNotifiesAllDue(ops: seq<Op>, instance: nat)
    requires var h := Run(ops + [Dispatch]); instance < |h.armed| && h.armed[instance].count <= h.timers.now
    ensures var h := Run(ops + [Dispatch]); Notified(h, instance) <==> instance !in h.cancelled
  {
    var all := ops + [Dispatch];
    assert all[..|all| - 1] == ops;
    RunsKeepInv(ops);
    RunsKeepInv(all);
    FireAllIsFire(Run(ops));
    FireAllCancels(Run(ops));
    FireSound(Run(ops).timers.live, Run(ops).timers.next, Run(ops).timers.now);
    var h := Run(all);
    assert forall f :: f in h.timers.live ==> h.timers.now < f.count;
    IsLiveIn(h.timers.live);
  }
}
