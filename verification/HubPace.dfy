/** Runs that the hub's loop can take in real time, and how to build them. */
module HubPace {
  import opened TimerModel
  import opened ReactorModel
  import opened Runtime
  import opened HubModel
  import opened HubRuns
  import opened HubPrompt

  // ---------------------------------------------------------------------------------------------
  // Steps the loop can take

  /** The hardware watchdog (WDTO_1S), reset before every handler call. */
  const WATCHDOG: nat := 1000

  /** The milliseconds since the last handler call began. */
  function SinceCall(events: seq<Activity>): nat {
    if events == [] then 0
    else
      match events[|events| - 1]
      case Asleep(env) => SinceCall(events[..|events| - 1]) + TickCount(env)
      case Round(_, after) => TickCount(after)
  }

  /**
   The loop sleeps only with nothing queued, and the next tick wakes it; a round calls a handler; and
   the watchdog does not expire in between.
   */
  ghost predicate CanTake(order: seq<Handle>, w: World, waited: nat, e: Activity)
    requires |w.queues| == |CAPS| && IsPermutation(order, |CAPS|)
  {
    match e
    case Asleep(env) => Pick(order, w.queues) == |order| && TickCount(env) <= 1 && waited + TickCount(env) < WATCHDOG
    case Round(isr, after) =>
      Pick(order, w.queues) < |order| && waited + TickCount(isr) < WATCHDOG && TickCount(after) < WATCHDOG
  }

  ghost predicate Paced(order: seq<Handle>, env: seq<EnvOp>, events: seq<Activity>)
    requires IsPermutation(order, |CAPS|)
  {
    events != [] ==>
      var before := events[..|events| - 1];
      Paced(order, env, before) && CanTake(order, Run(order, env, before), SinceCall(before), events[|events| - 1])
  }

  // ---------------------------------------------------------------------------------------------
  // Building such a run, with checks at most late ms behind and accepts on time

  ghost predicate At(order: seq<Handle>, env: seq<EnvOp>, events: seq<Activity>, late: nat, waited: nat, w: World)
    requires IsPermutation(order, |CAPS|)
  {
    && w == Run(order, env, events) && Paced(order, env, events) && PromptRun(order, env, events, late, 0)
    && waited == SinceCall(events)
  }

  /** In time for any call, and everything the steps below rely on. */
  ghost predicate InTime(w: World, late: nat) {
    HasCheck(w) && Sane(w) && Prompt(w, late, 0) && w.since < 0x1_0000
  }

  lemma Sleeps(order: seq<Handle>, env: seq<EnvOp>, events: seq<Activity>, late: nat, waited: nat, w: World)
    returns (more: seq<Activity>)
    requires IsPermutation(order, |CAPS|) && At(order, env, events, late, waited, w) && waited + 1 < WATCHDOG
    requires forall h :: 0 <= h < |CAPS| ==> w.queues[h] == []
    ensures At(order, env, more, late, waited + 1, Step(order, w, Asleep([Tick])))
  {
    more := events + [Asleep([Tick])];
    assert more[..|events|] == events;
    assert TickCount([Tick]) == 1 + TickCount([Tick][1..]) == 1;
  }

  /** A round with nothing before the handler's call. */
  lemma Calling(order: seq<Handle>, env: seq<EnvOp>, events: seq<Activity>, late: nat, waited: nat, w: World,
                h: Handle, after: seq<EnvOp>) returns (more: seq<Activity>, r: World)
    requires IsPermutation(order, |CAPS|) && At(order, env, events, late, waited, w) && waited < WATCHDOG
    requires InTime(w, late) && TickCount(after) < WATCHDOG && h < |CAPS| && w.queues[h] != []
    requires forall g :: 0 <= g < |CAPS| && w.queues[g] != [] && g != h ==> Ahead(order, h, g)
    ensures r == Around(Call(w.(queues := Popped(w.queues, h)), Notice(h, w.queues[h][0])), after)
    ensures At(order, env, more, late, TickCount(after), r)
  {
    PickLeader(order, w.queues, h);
    assert Around(w, []) == w;
    r := Step(order, w, Round([], after));
    more := events + [Round([], after)];
    assert more[..|events|] == events;
  }

  /** What the application has is the same; only the drivers' queues and timers differ. */
  ghost predicate SameHub(w: World, r: World) {
    && |w.queues| == |r.queues| == |CAPS| && Sane(r)
    && r == w.(hub := w.hub.(timers := r.hub.timers), queues := r.queues)
    && r.hub.timers.now == w.hub.timers.now
    && (forall h :: h == CHECK || h == ACCEPT ==> For(r.hub.timers.live, h) == For(w.hub.timers.live, h))
    && (forall h :: h == CHECK || h == ACCEPT || h == TRAFFIC || h == TIMER ==> r.queues[h] == w.queues[h])
  }

  lemma SameHubTwice(w: World, r: World, r': World)
    requires SameHub(w, r) && SameHub(r, r')
    ensures SameHub(w, r')
  {
  }

  lemma SameHubInTime(w: World, r: World, late: nat)
    requires SameHub(w, r) && InTime(w, late)
    ensures InTime(r, late)
  {
  }

  /** A driver's handler takes its item and does nothing to the application. */
  lemma DriverCall(w: World, h: Handle)
    requires Sane(w) && h < |CAPS| && w.queues[h] != [] && (h == SAMPLE || h == DIRECT || h == ACKNOWLEDGE)
    ensures var r := Around(Call(w.(queues := Popped(w.queues, h)), Notice(h, w.queues[h][0])), []);
            SameHub(w, r) && Total(r.queues) < Total(w.queues)
  {
    PopKeeps(SysOf(w), RULES, h);
    TotalPopped(w.queues, h);
    var r := w.(queues := Popped(w.queues, h));
    assert SysOf(r) == SysOf(w).(queues := r.queues);
    assert Around(r, []) == r;
  }

  /** Who is picked in front of g, when the application's other handlers are behind it. */
  lemma DriverPicked(order: seq<Handle>, queues: Queues, g: Handle)
    requires IsPermutation(order, |CAPS|) && |queues| == |CAPS| && Pick(order, queues) < |order|
    requires (g == CHECK || g == ACCEPT) && queues[g] != [] && queues[TIMER] == [] && queues[TRAFFIC] == []
    requires forall h :: (h == CHECK || h == ACCEPT) && h != g && queues[h] != [] ==> Ahead(order, g, h)
    ensures var h := order[Pick(order, queues)]; h != g ==> h == SAMPLE || h == DIRECT || h == ACKNOWLEDGE
  {
    var h := order[Pick(order, queues)];
    if h != g && (h == CHECK || h == ACCEPT) {
      PickBehind(order, queues, g, h);
      assert false;
    }
  }

  /** The drivers' handlers in front of g run, until g is the one to be called. */
  lemma {:induction false} DrainTo(order: seq<Handle>, env: seq<EnvOp>, events: seq<Activity>, late: nat, w: World, g: Handle)
    returns (more: seq<Activity>, r: World)
    requires IsPermutation(order, |CAPS|) && At(order, env, events, late, 0, w) && InTime(w, late)
    requires (g == CHECK || g == ACCEPT) && w.queues[g] != [] && w.queues[TIMER] == [] && w.queues[TRAFFIC] == []
    requires forall h :: (h == CHECK || h == ACCEPT) && h != g && w.queues[h] != [] ==> Ahead(order, g, h)
    ensures At(order, env, more, late, 0, r) && SameHub(w, r)
    ensures forall h :: 0 <= h < |CAPS| && r.queues[h] != [] && h != g ==> Ahead(order, g, h)
    decreases Total(w.queues)
  {
    hide At, InTime, Pick, Call, Around, Total, For, Popped, Sane;
    InTimeSane(w, late);
    SomePick(order, w.queues, g);
    PickedLeads(order, w.queues);
    DriverPicked(order, w.queues, g);
    var h := order[Pick(order, w.queues)];
    if h == g {
      more, r := events, w;
    } else {
      var next;
      PickHas(order, w.queues);
      more, next := Calling(order, env, events, late, 0, w, h, []);
      DriverCall(w, h);
      SameHubInTime(w, next, late);
      more, r := DrainTo(order, env, more, late, next, g);
      SameHubTwice(w, next, r);
    }
  }

  lemma InTimeSane(w: World, late: nat)
    requires InTime(w, late)
    ensures |w.queues| == |CAPS| && Sane(w) && HasCheck(w)
  {
  }

  /** With nothing for the application, the drivers' handlers run until the loop can sleep. */
  lemma {:induction false} DrainAll(order: seq<Handle>, env: seq<EnvOp>, events: seq<Activity>, late: nat, w: World)
    returns (more: seq<Activity>, r: World)
    requires IsPermutation(order, |CAPS|) && At(order, env, events, late, 0, w) && InTime(w, late)
    requires forall h :: h == CHECK || h == ACCEPT || h == TIMER || h == TRAFFIC ==> w.queues[h] == []
    ensures At(order, env, more, late, 0, r) && SameHub(w, r)
    ensures forall h :: 0 <= h < |CAPS| ==> r.queues[h] == []
    decreases Total(w.queues)
  {
    hide At, InTime, Pick, Call, Around, Total, For, Popped, Sane;
    InTimeSane(w, late);
    if g: Handle :| g < |CAPS| && w.queues[g] != [] {
      SomePick(order, w.queues, g);
      PickedLeads(order, w.queues);
      PickHas(order, w.queues);
      var h, next := order[Pick(order, w.queues)], w;
      more, next := Calling(order, env, events, late, 0, w, h, []);
      DriverCall(w, h);
      SameHubInTime(w, next, late);
      more, r := DrainAll(order, env, more, late, next);
      SameHubTwice(w, next, r);
    } else {
      SameHubItself(w);
      more, r := events, w;
    }
  }

  lemma SameHubItself(w: World)
    requires Sane(w) && |w.queues| == |CAPS|
    ensures SameHub(w, w)
  {
  }

  // ---------------------------------------------------------------------------------------------
  // The timer handler and the clock

  /** The timer handler goes before all but the traffic handler, and that one before it. */
  lemma TimerLeads(order: seq<Handle>, queues: Queues)
    requires IsSchedule(order, PRIORITIES) && |queues| == |CAPS| && queues[TRAFFIC] == []
    ensures forall g :: 0 <= g < |CAPS| && queues[g] != [] && g != TIMER ==> Ahead(order, TIMER, g)
  {
    forall g | 0 <= g < |CAPS| && queues[g] != [] && g != TIMER
      ensures Ahead(order, TIMER, g)
    {
      HigherIsAhead(order, PRIORITIES, TIMER, g);
    }
  }

  lemma TrafficLeads(order: seq<Handle>)
    requires IsSchedule(order, PRIORITIES)
    ensures forall g :: 0 <= g < |CAPS| && g != TRAFFIC ==> Ahead(order, TRAFFIC, g)
  {
    forall g | 0 <= g < |CAPS| && g != TRAFFIC
      ensures Ahead(order, TRAFFIC, g)
    {
      HigherIsAhead(order, PRIORITIES, TRAFFIC, g);
    }
  }

  /** The state when the timer handler's call begins. */
  function TimerTaken(w: World): World
    requires |w.queues| == |CAPS|
  {
    w.(queues := w.queues[TIMER := []])
  }

  lemma TimerTakenIs(w: World)
    requires Sane(w) && w.queues[TIMER] != []
    ensures w.(queues := Popped(w.queues, TIMER)) == TimerTaken(w) && Sane(TimerTaken(w))
  {
    assert |w.queues[TIMER]| <= CAPS[TIMER] == 1;
    PopKeeps(SysOf(w), RULES, TIMER);
    assert SysOf(TimerTaken(w)) == SysOf(w).(queues := Popped(w.queues, TIMER));
  }

  function Dispatched(w: World): World {
    WithSys(w, DispatchTimers(SysOf(w), RULES))
  }

  /** What every dispatch leaves. */
  lemma DispatchLeaves(w: World)
    requires Sane(w)
    ensures var r := Dispatched(w);
            && Sane(r) && |r.queues| == |w.queues| == |CAPS| && r.hub.timers.now == w.hub.timers.now
            && r == w.(hub := w.hub.(timers := r.hub.timers), queues := r.queues)
            && r.queues[TIMER] == w.queues[TIMER] && r.queues[TRAFFIC] == w.queues[TRAFFIC]
  {
    hide Fire, ToldEach, Sound;
    DispatchKeepsSane(w);
    NoTimersFor(SysOf(w), RULES, TIMER);
    NoTimersFor(SysOf(w), RULES, TRAFFIC);
    DispatchNotDue(SysOf(w), RULES, TIMER);
    DispatchNotDue(SysOf(w), RULES, TRAFFIC);
  }

  /** A handler of the application with nothing due is left alone... */
  lemma DispatchSpares(w: World, h: Handle)
    requires Sane(w) && (h == CHECK || h == ACCEPT)
    requires forall f :: f in For(w.hub.timers.live, h) ==> w.hub.timers.now < f.count
    ensures |w.queues| == |Dispatched(w).queues| == |CAPS|
    ensures For(Dispatched(w).hub.timers.live, h) == For(w.hub.timers.live, h) && Dispatched(w).queues[h] == w.queues[h]
  {
    hide Fire, ToldEach, Sound;
    DispatchNotDue(SysOf(w), RULES, h);
  }

  /** ...the check, when due, is notified once... */
  lemma DispatchChecks(w: World)
    requires Sane(w) && HasCheck(w)
    requires var c := For(w.hub.timers.live, CHECK)[0].count; c <= w.hub.timers.now < c + CHECK_PERIOD
    ensures var r := Dispatched(w);
            && HasCheck(r) && r.queues[CHECK] != []
            && For(r.hub.timers.live, CHECK)[0].count == For(w.hub.timers.live, CHECK)[0].count + CHECK_PERIOD
  {
    hide Fire, ToldEach, Sound;
    var f := For(w.hub.timers.live, CHECK)[0];
    assert For(w.hub.timers.live, CHECK) == [f];
    var f' := DispatchRepeating(SysOf(w), RULES, CHECK, f);
    DispatchLeaves(w);
  }

  /** ...and so is the accept timer. */
  lemma DispatchAccepts(w: World, f: Future)
    requires Sane(w) && For(w.hub.timers.live, ACCEPT) == [f] && f.repeat == 0 && f.count <= w.hub.timers.now
    ensures var r := Dispatched(w);
            |r.queues| == |CAPS| && For(r.hub.timers.live, ACCEPT) == [] && r.queues[ACCEPT] != []
  {
    hide Fire, ToldEach, Sound;
    DispatchEffect(SysOf(w), RULES, ACCEPT);
    ForFireSingle(w.hub.timers.live, w.hub.timers.next, w.hub.timers.now, ACCEPT);
  }

  /** Time goes by while nothing is called; the tick notifies the timer handler. */
  function Passed(w: World, n: nat): World {
    w.(hub := w.hub.(timers := w.hub.timers.(now := w.hub.timers.now + n)))
  }

  function Ticked(w: World, n: nat): World
    requires |w.queues| == |CAPS|
  {
    Passed(w, n).(queues := w.queues[TIMER := [0]])
  }

  lemma TicksAround(w: World, n: nat)
    requires |w.queues| == |CAPS| && w.queues[TIMER] == [] && 0 < n
    ensures Around(w, Ticks(n)) == Ticked(w, n)
    ensures Sane(w) ==> Sane(Ticked(w, n))
  {
    TicksWake(SysOf(w), RULES, n);
    if Sane(w) {
      AroundKeepsSane(w, Ticks(n));
    }
  }

  /** A tick wakes the loop, and the timer handler finds nothing due. */
  lemma QuietMillisecond(order: seq<Handle>, env: seq<EnvOp>, events: seq<Activity>, late: nat, w: World)
    returns (more: seq<Activity>, r: World)
    requires IsSchedule(order, PRIORITIES) && At(order, env, events, late, 0, w) && InTime(w, late)
    requires forall h :: 0 <= h < |CAPS| ==> w.queues[h] == []
    requires forall h, f :: (h == CHECK || h == ACCEPT) && f in For(w.hub.timers.live, h) ==> w.hub.timers.now + 1 < f.count
    ensures At(order, env, more, late, 0, r) && SameHub(Passed(w, 1), r)
    ensures forall h :: 0 <= h < |CAPS| ==> r.queues[h] == []
  {
    hide At, InTime, Call, Around, For, Sane, Dispatched, SameHub, Step;
    InTimeSane(w, late);
    more := Sleeps(order, env, events, late, 0, w);
    var w1 := Ticked(w, 1);
    WakesUp(order, w, late);
    TimerLeads(order, w1.queues);
    more, r := Calling(order, env, more, late, 1, w1, TIMER, []);
    FindsNothing(w, late);
    SameHubQueues(Passed(w, 1), r);
    var r1 := r;
    more, r := DrainAll(order, env, more, late, r1);
    SameHubTwice(Passed(w, 1), r1, r);
  }

  lemma WakesUp(order: seq<Handle>, w: World, late: nat)
    requires IsPermutation(order, |CAPS|) && InTime(w, late)
    requires forall h :: 0 <= h < |CAPS| ==> w.queues[h] == []
    requires forall h, f :: (h == CHECK || h == ACCEPT) && f in For(w.hub.timers.live, h) ==> w.hub.timers.now + 1 < f.count
    ensures Step(order, w, Asleep([Tick])) == Ticked(w, 1) && InTime(Ticked(w, 1), late)
  {
    assert Ticks(1) == [Tick] by {
      assert Ticks(1) == [Tick] + Ticks(0);
    }
    TicksAround(w, 1);
    assert For(w.hub.timers.live, CHECK)[0] in For(w.hub.timers.live, CHECK);
  }

  lemma FindsNothing(w: World, late: nat)
    requires InTime(w, late)
    requires forall h :: 0 <= h < |CAPS| ==> w.queues[h] == []
    requires forall h, f :: (h == CHECK || h == ACCEPT) && f in For(w.hub.timers.live, h) ==> w.hub.timers.now + 1 < f.count
    ensures var w1 := Ticked(w, 1);
            var r := Around(Call(w1.(queues := Popped(w1.queues, TIMER)), Notice(TIMER, w1.queues[TIMER][0])), []);
            SameHub(Passed(w, 1), r) && InTime(r, late)
  {
    var w1 := Ticked(w, 1);
    var p := Passed(w, 1);
    assert w.queues[TIMER := [0]][TIMER := []] == w.queues;
    TicksAround(w, 1);
    TimerTakenIs(w1);
    assert TimerTaken(w1) == p;
    DispatchLeaves(p);
    DispatchSpares(p, CHECK);
    DispatchSpares(p, ACCEPT);
    assert Around(Dispatched(p), []) == Dispatched(p);
    assert For(w.hub.timers.live, CHECK)[0] in For(w.hub.timers.live, CHECK);
  }

  lemma SameHubQueues(w: World, r: World)
    requires SameHub(w, r)
    ensures |r.queues| == |w.queues| == |CAPS| && Sane(r)
    ensures forall h :: h == CHECK || h == ACCEPT || h == TRAFFIC || h == TIMER ==> r.queues[h] == w.queues[h]
  {
  }

  lemma SameHubPassed(w: World, n: nat, r: World, r': World)
    requires SameHub(Passed(w, n), r) && SameHub(Passed(r, 1), r')
    ensures SameHub(Passed(w, n + 1), r')
  {
  }

  /** So it goes on for n milliseconds in which nothing falls due. */
  lemma {:induction false} QuietSpan(order: seq<Handle>, env: seq<EnvOp>, events: seq<Activity>, late: nat, w: World, n: nat)
    returns (more: seq<Activity>, r: World)
    requires IsSchedule(order, PRIORITIES) && At(order, env, events, late, 0, w) && InTime(w, late)
    requires forall h :: 0 <= h < |CAPS| ==> w.queues[h] == []
    requires forall h, f :: (h == CHECK || h == ACCEPT) && f in For(w.hub.timers.live, h) ==> w.hub.timers.now + n < f.count
    ensures At(order, env, more, late, 0, r) && SameHub(Passed(w, n), r) && InTime(r, late)
    ensures forall h :: 0 <= h < |CAPS| ==> r.queues[h] == []
  {
    if n == 0 {
      SameHubItself(w);
      more, r := events, w;
    } else {
      var before;
      more, before := QuietSpan(order, env, events, late, w, n - 1);
      more, r := QuietMillisecond(order, env, more, late, before);
      SameHubPassed(w, n - 1, before, r);
      StaysInTime(w, n, r, late);
    }
  }

  lemma StaysInTime(w: World, n: nat, r: World, late: nat)
    requires InTime(w, late) && SameHub(Passed(w, n), r)
    requires forall h :: 0 <= h < |CAPS| ==> w.queues[h] == []
    requires forall f :: f in For(w.hub.timers.live, CHECK) ==> w.hub.timers.now + n < f.count
    ensures InTime(r, late)
  {
    assert For(w.hub.timers.live, CHECK)[0] in For(w.hub.timers.live, CHECK);
  }
}
