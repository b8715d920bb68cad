/** Whole runs of the 32-bit service, within its bounds, are the runs of the list on plain times. */
module TimerDriver {
  import opened TimerModel
  import opened TimerRuns
  import opened TimerCounts
  import opened TimerServices
  import opened ReactorModel
  import opened Reactors

  /**
   The bounds of the service: a free slot, fewer than 2^32 arms, no rollover of the clock or of a
   deadline, and no deadline half the range away.
   */
  ghost predicate InBounds(t: Timers, slots: nat, handles: nat) {
    && |t.live| < slots && t.next < RANGE && Aimed(t.live, handles) && Regular(t.live, t.now, t.now)
  }

  ghost predicate Bounded(ops: seq<Op>, slots: nat, handles: nat) {
    forall k :: 0 <= k <= |ops| ==> InBounds(Run(ops[..k]).timers, slots, handles)
  }

  function LogNotices(log: seq<Note>): (r: seq<Notice>)
    ensures |r| == |log| && forall i :: 0 <= i < |r| ==> r[i] == NoticeOf(log[i].future)
  {
    seq(|log|, i requires 0 <= i < |log| => NoticeOf(log[i].future))
  }

  /** The notifications are those of the log, in its order, with those of the ticks in between. */
  ghost predicate Logged(trace: seq<Notice>, tick: Handle, log: seq<Note>) {
    Without(trace, tick) == Without(LogNotices(log), tick)
  }

  lemma {:induction false} WithoutConcat(a: seq<Notice>, b: seq<Notice>, h: Handle)
    ensures Without(a + b, h) == Without(a, h) + Without(b, h)
  {
    if b == [] {
      assert a + b == a;
    } else {
      WithoutConcat(a, b[..|b| - 1], h);
      assert (a + b)[..|a + b| - 1] == a + b[..|b| - 1];
    }
  }

  lemma TickLogged(trace: seq<Notice>, tick: Handle, log: seq<Note>)
    requires Logged(trace, tick, log)
    ensures Logged(trace + [Notice(tick, 0)], tick, log)
  {
    assert (trace + [Notice(tick, 0)])[..|trace|] == trace;
  }

  lemma LogGrows(h: History)
    ensures LogNotices(FireAll(h).log)
         == LogNotices(h.log) + NoticesOf(Fire(h.timers.live, h.timers.next, h.timers.now).notes)
  {
    hide FireAll, Fire;
    FireAllIsFire(h);
    var r := FireAll(h);
    assert forall i :: 0 <= i < |h.log| ==> r.log[i] == r.log[..|h.log|][i];
  }

  /** A dispatch logs what it notifies. */
  lemma DispatchLogged(trace: seq<Notice>, more: seq<Notice>, tick: Handle, h: History)
    requires Logged(trace, tick, h.log)
    requires IsMixed(more, tick, Fire(h.timers.live, h.timers.next, h.timers.now).notes)
    ensures Logged(trace + more, tick, FireAll(h).log)
  {
    hide FireAll, Fire, LogNotices, NoticesOf, Without;
    LogGrows(h);
    WithoutConcat(trace, more, tick);
    WithoutConcat(LogNotices(h.log), NoticesOf(Fire(h.timers.live, h.timers.next, h.timers.now).notes), tick);
  }

  /** What an arm needs follows from the bounds of the state after it. */
  lemma ArmFits(t: Timers, e: Future, slots: nat, handles: nat)
    requires InBounds(t, slots, handles) && e.instance == t.next
    requires InBounds(TimerModel.Arm(t, e.reactor, e.count, e.repeat, e.arg), slots, handles)
    ensures e.count < RANGE && e.repeat < RANGE && e.reactor < handles
    ensures Counts(t.live) ==> InsertByDistance(t.live, t.now, e) == Insert(t.live, e)
  {
    MembersAfterInsert(t.live, e);
    var live := Insert(t.live, e);
    assert e in live;
    var i :| 0 <= i < |live| && live[i] == e;
    if Counts(t.live) {
      InsertByDistanceIsInsert(t.live, t.now, e);
    }
  }

  lemma ToldMore(base: seq<Event>, trace: seq<Notice>, more: seq<Notice>)
    ensures base + ToldAll(trace + more) == base + ToldAll(trace) + ToldAll(more)
    ensures |more| == 1 ==> ToldAll(more) == [Told(more[0])]
  {
  }

  /** The service stands where the run does, and has notified what the run logged since base. */
  ghost predicate Follows(s: TimerService, r: Reactor, h: History, base: seq<Event>, trace: seq<Notice>)
    reads s, s.slots, r, r.Repr
  {
    && s.Valid() && r.Valid() && s.Apart(r) && s.handle < |r.items|
    && s.Abs() == h.timers && InBounds(h.timers, s.N, |r.items|)
    && r.events == base + ToldAll(trace) && Logged(trace, s.handle, h.log)
  }

  method DoArm(s: TimerService, r: Reactor, reactor: Handle, count: nat, repeat: nat, arg: int,
               ghost h: History, ghost base: seq<Event>, ghost trace: seq<Notice>)
    requires Follows(s, r, h, base, trace)
    requires InBounds(Step(h, Op.Arm(reactor, count, repeat, arg)).timers, s.N, |r.items|)
    modifies s`avail, s`current, s`n, s.slots
    ensures Follows(s, r, Step(h, Op.Arm(reactor, count, repeat, arg)), base, trace)
  {
    hide Logged, ToldAll, Insert, InsertByDistance, Aimed, Regular;
    ArmFits(h.timers, Future(reactor, h.timers.next, count, repeat, arg), s.N, |r.items|);
    s.CountsOfLive();
    r.FewHandlers();
    var _ := s.Arm(reactor, count, repeat, arg);
  }

  method DoCancel(s: TimerService, r: Reactor, instance: nat, ghost h: History, ghost base: seq<Event>, ghost trace: seq<Notice>)
    returns (found: bool)
    requires Follows(s, r, h, base, trace)
    requires InBounds(Step(h, Op.Cancel(instance)).timers, s.N, |r.items|)
    modifies s`avail, s`n, s.slots
    ensures Follows(s, r, Step(h, Op.Cancel(instance)), base, trace) && found == IsLive(h.timers.live, instance)
  {
    hide Logged, ToldAll, Remove, IsLive, Regular, Aimed;
    found := s.Cancel(instance);
  }

  method DoTick(s: TimerService, r: Reactor, ghost h: History, ghost base: seq<Event>, ghost trace: seq<Notice>)
    returns (ghost trace': seq<Notice>)
    requires Follows(s, r, h, base, trace) && InBounds(Step(h, Op.Tick).timers, s.N, |r.items|)
    modifies s`counter, r`bits, r`events, r.Repr
    ensures Follows(s, r, Step(h, Op.Tick), base, trace')
  {
    hide Logged, ToldAll, Aimed;
    trace' := trace + [Notice(s.handle, 0)];
    ToldMore(base, trace, [Notice(s.handle, 0)]);
    TickLogged(trace, s.handle, h.log);
    s.IsrTick(r);
  }

  method DoDispatch(s: TimerService, r: Reactor, ghost h: History, ghost base: seq<Event>, ghost trace: seq<Notice>)
    returns (ghost trace': seq<Notice>)
    requires Follows(s, r, h, base, trace) && InBounds(Step(h, Op.Dispatch).timers, s.N, |r.items|)
    modifies s`active, s`avail, s`counter, s`current, s`n, s.slots, r`bits, r`events, r.Repr
    ensures Follows(s, r, Step(h, Op.Dispatch), base, trace')
  {
    hide Logged, ToldAll, Aimed, Regular, Fire, FireAll, IsMixed;
    FireAllIsFire(h);
    ghost var more := s.Dispatch(r, 0);
    trace' := trace + more;
    ToldMore(base, trace, more);
    DispatchLogged(trace, more, s.handle, h);
  }

  method Perform(s: TimerService, r: Reactor, op: Op, ghost h: History, ghost base: seq<Event>, ghost trace: seq<Notice>)
    returns (found: bool, ghost trace': seq<Notice>)
    requires Follows(s, r, h, base, trace) && InBounds(Step(h, op).timers, s.N, |r.items|)
    modifies s`active, s`avail, s`counter, s`current, s`n, s.slots, r`bits, r`events, r.Repr
    ensures Follows(s, r, Step(h, op), base, trace') && r.items == old(r.items) && r.Repr == old(r.Repr)
    ensures found == (op.Cancel? && IsLive(h.timers.live, op.instance))
  {
    hide Follows, Step, InBounds, IsLive;
    FollowsApart(s, r, h, base, trace);
    found, trace' := false, trace;
    match op {
      case Arm(reactor, count, repeat, arg) => DoArm(s, r, reactor, count, repeat, arg, h, base, trace);
      case Cancel(instance) => found := DoCancel(s, r, instance, h, base, trace);
      case Tick => trace' := DoTick(s, r, h, base, trace);
      case Dispatch => trace' := DoDispatch(s, r, h, base, trace);
    }
  }

  lemma FollowsApart(s: TimerService, r: Reactor, h: History, base: seq<Event>, trace: seq<Notice>)
    requires Follows(s, r, h, base, trace)
    ensures r !in r.Repr
  {
    r.OwnsOthers();
  }

  lemma FollowsMeans(s: TimerService, r: Reactor, h: History, base: seq<Event>, trace: seq<Notice>)
    requires Follows(s, r, h, base, trace)
    ensures s.Valid() && r.Valid() && s.Abs() == h.timers
    ensures r.events == base + ToldAll(trace) && Logged(trace, s.handle, h.log)
  {
  }

  lemma DriveStarts(s: TimerService, r: Reactor, ops: seq<Op>)
    requires s.Valid() && s.Abs() == Timers(0, [], 0)
    requires r.Valid() && s.Apart(r) && s.handle < |r.items| && Bounded(ops, s.N, |r.items|)
    ensures Follows(s, r, Run(ops[..0]), r.events, []) && Run(ops[..0]).cancelled == {}
  {
    assert ops[..0] == [];
  }

  lemma RunGoesOn(ops: seq<Op>, i: nat, slots: nat, handles: nat)
    requires i < |ops| && Bounded(ops, slots, handles)
    ensures Run(ops[..i + 1]) == Step(Run(ops[..i]), ops[i]) && InBounds(Run(ops[..i + 1]).timers, slots, handles)
    ensures Run(ops[..i + 1]).cancelled
         == if ops[i].Cancel? && IsLive(Run(ops[..i]).timers.live, ops[i].instance)
            then Run(ops[..i]).cancelled + {ops[i].instance} else Run(ops[..i]).cancelled
  {
    assert ops[..i + 1][..i] == ops[..i];
    FireAllCancels(Run(ops[..i]));
  }

  /**
   Arms, cancels, ticks and dispatches performed by the service in any order: within the bounds its
   list is that of the run on plain times, it notifies what the run logs, in that order, and its
   cancels succeed where those of the run do. What is proved of all runs holds of the service.
   */
  method Drive(s: TimerService, r: Reactor, ops: seq<Op>) returns (cancelled: set<nat>, ghost trace: seq<Notice>)
    requires s.Valid() && s.Abs() == Timers(0, [], 0)
    requires r.Valid() && s.Apart(r) && s.handle < |r.items| && Bounded(ops, s.N, |r.items|)
    modifies s`active, s`avail, s`counter, s`current, s`n, s.slots, r`bits, r`events, r.Repr
    ensures s.Valid() && r.Valid() && s.Abs() == Run(ops).timers && cancelled == Run(ops).cancelled
    ensures r.events == old(r.events) + ToldAll(trace) && Logged(trace, s.handle, Run(ops).log)
  {
    hide Follows, Run, Step, InBounds, IsLive, Bounded, Reactor.Valid, TimerService.Valid, TimerService.Abs;
    cancelled, trace := {}, [];
    var i := 0;
    DriveStarts(s, r, ops);
    while i < |ops|
      invariant i <= |ops| && Follows(s, r, Run(ops[..i]), old(r.events), trace)
      invariant cancelled == Run(ops[..i]).cancelled && r.items == old(r.items) && r.Repr == old(r.Repr)
    {
      RunGoesOn(ops, i, s.N, |r.items|);
      var found;
      found, trace := Perform(s, r, ops[i], Run(ops[..i]), old(r.events), trace);
      if found {
        cancelled := cancelled + {ops[i].instance};
      }
      i := i + 1;
    }
    assert ops[..i] == ops;
    FollowsMeans(s, r, Run(ops), old(r.events), trace);
  }
}
