/**
 The anti-chatter rule of the hub depends on how the priority sort orders two handlers of equal
 priority. Among the runs the loop can take in real time it holds in all exactly when the accept
 handler comes first; otherwise a check called one second late is enough to break it.
 */
module HubChatter {
  import opened TimerModel
  import opened ReactorModel
  import opened Runtime
  import opened HubModel
  import opened HubRuns
  import opened HubPrompt
  import opened HubPace
  import OpCodes

  const LATE: nat := 1000
  const PUSH: int := 0x71

  /** The drivers' start-up has taken no time and notified nobody. */
  ghost predicate QuietStart(env: seq<EnvOp>) {
    var w := Around(Boot(), env);
    w.hub.timers.now == 0 && forall h :: 0 <= h < |CAPS| ==> w.queues[h] == []
  }

  /** The hub's own state, and the deadline of the next check; the accept timer is left to the cases below. */
  ghost predicate Stands(w: World, now: nat, check: nat, accepts: seq<Future>) {
    && HasCheck(w) && Sane(w) && w.hub.timers.now == now && For(w.hub.timers.live, CHECK)[0].count == check
    && For(w.hub.timers.live, ACCEPT) == accepts
  }

  /** Second 0 to just before second 5: nothing has come yet. */
  ghost predicate Fresh(w: World) {
    && w.hub.ready && w.hub.current == OpCodes.IDLE && w.hub.messages == 0
    && w.applied == [] && w.since == 0
  }

  /** From second 6: a command has been applied. */
  ghost predicate Pushing(w: World) {
    && !w.hub.ready && w.hub.current == OpCodes.PUSH_DOOR && w.hub.messages == w.since <= 1
    && w.applied == [Applied(6000, true)]
  }

  lemma FreshAlike(w: World, r: World)
    requires r == w.(hub := w.hub.(timers := r.hub.timers), queues := r.queues)
    ensures Fresh(w) ==> Fresh(r)
    ensures Pushing(w) ==> Pushing(r)
  {
  }

  lemma StandsAlike(w: World, r: World, now: nat, check: nat, accepts: seq<Future>)
    requires Stands(w, now, check, accepts) && SameHub(w, r)
    ensures Stands(r, now, check, accepts)
  {
  }

  lemma StandsPassed(w: World, n: nat, r: World, now: nat, check: nat, accepts: seq<Future>)
    requires Stands(w, now, check, accepts) && SameHub(Passed(w, n), r)
    ensures Stands(r, now + n, check, accepts)
    ensures r == w.(hub := w.hub.(timers := r.hub.timers), queues := r.queues)
  {
  }

  /** When nothing waits, or only the check, the lateness is that of the check. */
  lemma StandsInTime(w: World, now: nat, check: nat, accepts: seq<Future>)
    requires Stands(w, now, check, accepts) && w.since < 0x1_0000
    requires now <= check + LATE - if w.queues[CHECK] != [] then CHECK_PERIOD else 0
    requires w.queues[ACCEPT] != [] && w.applied != [] ==> now <= LastAt(w) + QUIET_PERIOD
    ensures InTime(w, LATE)
  {
  }

  lemma Starts(order: seq<Handle>, env: seq<EnvOp>) returns (events: seq<Activity>, w: World)
    requires IsPermutation(order, |CAPS|) && QuietStart(env)
    ensures At(order, env, events, LATE, 0, w) && Stands(w, 0, FIRST_CHECK, []) && Fresh(w)
    ensures forall h :: 0 <= h < |CAPS| ==> w.queues[h] == []
  {
    hide Around, For, Sane, Insert, Sound;
    events, w := [], Start(env);
    var w0 := Around(Boot(), env);
    BootIsCalm(env);
    BootAccepts(env);
    StartIsQuietToo(env);
    CheckArmed(w0);
    ArmSpares(w0);
  }

  lemma BootAccepts(env: seq<EnvOp>)
    ensures var w := Around(Boot(), env);
            w == Boot().(hub := Boot().hub.(timers := w.hub.timers), queues := w.queues) && For(w.hub.timers.live, ACCEPT) == []
  {
    assert Sane(Boot()) && For(Boot().hub.timers.live, ACCEPT) == [];
    hide HappenAll, Base, For;
    AroundKeepsSane(Boot(), env);
    assert ACCEPT in RULES.own;
  }

  lemma StartIsQuietToo(env: seq<EnvOp>)
    ensures Sane(Start(env)) && |Start(env).queues| == |CAPS|
  {
    StartIsQuiet(env);
  }

  lemma ArmSpares(w: World)
    ensures var t := w.hub.timers;
            For(Arm(t, CHECK, t.now + FIRST_CHECK, CHECK_PERIOD, 0).live, ACCEPT) == For(t.live, ACCEPT)
  {
    var t := w.hub.timers;
    ForInsert(t.live, Future(CHECK, t.next, t.now + FIRST_CHECK, CHECK_PERIOD, 0), ACCEPT);
  }

  // ---------------------------------------------------------------------------------------------
  // The calls of the run

  /** A call of the timer handler, with n milliseconds passing in it. */
  lemma TimerRound(w: World, n: nat)
    requires Sane(w) && w.queues[TIMER] != []
    ensures |w.queues| == |CAPS|
    ensures var r := Dispatched(TimerTaken(w));
            && Around(Call(w.(queues := Popped(w.queues, TIMER)), Notice(TIMER, w.queues[TIMER][0])), Ticks(n))
               == (if n == 0 then r else Ticked(r, n))
            && Sane(TimerTaken(w)) && Sane(r) && |r.queues| == |CAPS| && (n > 0 ==> Sane(Ticked(r, n)))
            && r.queues[TIMER] == [] && r.queues[TRAFFIC] == w.queues[TRAFFIC]
            && r.hub.timers.now == w.hub.timers.now
            && r == w.(hub := w.hub.(timers := r.hub.timers), queues := r.queues)
  {
    TimerTakenIs(w);
    var r := Dispatched(TimerTaken(w));
    DispatchLeaves(TimerTaken(w));
    if n == 0 {
      assert Around(r, []) == r;
    } else {
      TicksAround(r, n);
    }
  }

  /** A millisecond of sleep at the end of which something falls due. */
  lemma Wakes(order: seq<Handle>, w: World)
    requires Sane(w) && IsPermutation(order, |CAPS|) && forall h :: 0 <= h < |CAPS| ==> w.queues[h] == []
    ensures |w.queues| == |CAPS| && Step(order, w, Asleep([Tick])) == Ticked(w, 1) && Sane(Ticked(w, 1))
  {
    assert Ticks(1) == [Tick] by {
      assert Ticks(1) == [Tick] + Ticks(0);
    }
    TicksAround(w, 1);
  }

  /** What applying a command does to the accept timer, when none is live. */
  lemma AcceptArmed(w: World, h: Hub, cmd: OpCodes.Byte) returns (f: Future)
    requires Sane(w) && h.timers == w.hub.timers && h.accept == w.hub.accept && For(w.hub.timers.live, ACCEPT) == []
    ensures For(Process(h, cmd).timers.live, ACCEPT) == [f]
    ensures f.repeat == 0 && f.count == w.hub.timers.now + QUIET_PERIOD
  {
    hide Base, Sound, Remove, Insert;
    Restarted(SysOf(w), RULES, w.hub.accept, ACCEPT, w.hub.timers.now + QUIET_PERIOD);
    f := Future(ACCEPT, CancelInstance(w.hub.timers, w.hub.accept).next, w.hub.timers.now + QUIET_PERIOD, 0, 0);
  }

  /** A push command arrives while the hub is ready and idle. */
  lemma PushApplied(w: World, check: nat) returns (f: Future)
    requires Stands(w, w.hub.timers.now, check, []) && w.hub.ready && w.hub.current == OpCodes.IDLE
    ensures var r := Call(w, Notice(TRAFFIC, PUSH));
            && Stands(r, w.hub.timers.now, check, [f]) && f.repeat == 0 && f.count == w.hub.timers.now + QUIET_PERIOD
            && r.queues == w.queues && r.since == w.since + 1 && r.hub.messages == (w.hub.messages + 1) % 0x1_0000
            && r.applied == w.applied + [Applied(w.hub.timers.now, true)]
            && !r.hub.ready && r.hub.current == OpCodes.PUSH_DOOR
  {
    hide For, Sane, Process;
    PushIsValid();
    var h := w.hub.(messages := (w.hub.messages + 1) % 0x1_0000, current := OpCodes.PUSH_DOOR);
    f := AcceptArmed(w, h, OpCodes.PUSH_DOOR);
    CallKeepsCheckTimer(w, Notice(TRAFFIC, PUSH));
    ProcessLeaves(h, OpCodes.PUSH_DOOR);
  }

  lemma PushIsValid()
    ensures ByteOf(PUSH) == OpCodes.PUSH_DOOR && OpCodes.CheckValid(OpCodes.PUSH_DOOR) != OpCodes.ERROR
    ensures OpCodes.PUSH_DOOR != OpCodes.IDLE
  {
  }

  lemma ProcessLeaves(h: Hub, cmd: OpCodes.Byte)
    ensures !Process(h, cmd).ready && Process(h, cmd).current == h.current && Process(h, cmd).messages == h.messages
  {
  }

  /** A check that finds no message shuts the valves, although an accept notification is queued. */
  lemma CheckShuts(w: World, check: nat) returns (f: Future)
    requires Stands(w, w.hub.timers.now, check, []) && w.hub.messages == 0
    ensures var r := Call(w, Notice(CHECK, 0));
            && Stands(r, w.hub.timers.now, check, [f]) && r.queues == w.queues && r.since == 0 && r.hub.messages == 0
            && r.applied == w.applied + [Applied(w.hub.timers.now, false)] && r.hub.current == OpCodes.IDLE
  {
    hide For, Sane, Process;
    f := AcceptArmed(w, w.hub, OpCodes.IDLE);
    CallKeepsCheckTimer(w, Notice(CHECK, 0));
  }

  /** A check that finds a message lets the valves be. */
  lemma CheckPasses(w: World, check: nat, accepts: seq<Future>)
    requires Stands(w, w.hub.timers.now, check, accepts) && w.hub.messages != 0
    ensures var r := Call(w, Notice(CHECK, 0));
            && Stands(r, w.hub.timers.now, check, accepts) && r.queues == w.queues && r.since == 0
            && r == w.(hub := w.hub.(messages := 0), before := w.since, since := 0)
  {
    hide For, Sane;
    CallKeepsCheckTimer(w, Notice(CHECK, 0));
  }

  lemma CallIgnoresArgument(w: World, h: Handle, x: int)
    requires h == CHECK || h == ACCEPT
    ensures Call(w, Notice(h, x)) == Call(w, Notice(h, 0))
  {
  }

  lemma Takes(w: World, h: Handle)
    requires Sane(w) && h < |CAPS| && w.queues[h] != []
    ensures |w.queues| == |CAPS| && Popped(w.queues, h) == w.queues[h := []]
    ensures Sane(w.(queues := w.queues[h := []]))
  {
    assert |w.queues[h]| <= CAPS[h] == 1;
    PopKeeps(SysOf(w), RULES, h);
    assert SysOf(w.(queues := w.queues[h := []])) == SysOf(w).(queues := Popped(w.queues, h));
  }

  lemma MessageRaised(w: World)
    requires Sane(w) && w.queues[TRAFFIC] == []
    ensures |w.queues| == |CAPS| && Around(w, [Raise(Notice(TRAFFIC, PUSH))]) == w.(queues := w.queues[TRAFFIC := [PUSH]])
    ensures Sane(w.(queues := w.queues[TRAFFIC := [PUSH]]))
  {
    RaisedSingle(SysOf(w), RULES, TRAFFIC, PUSH);
    AroundKeepsSane(w, [Raise(Notice(TRAFFIC, PUSH))]);
  }

  // ---------------------------------------------------------------------------------------------
  // The run: the first check is called a second late, just after a command was applied, so that the
  // end of the quiet period and the next check fall on the same millisecond

  /** Which of the application's handlers have something queued. */
  ghost predicate Queued(w: World, timer: bool, check: bool, accept: bool, traffic: bool) {
    && |w.queues| == |CAPS|
    && (w.queues[TIMER] != [] <==> timer) && (w.queues[CHECK] != [] <==> check)
    && (w.queues[ACCEPT] != [] <==> accept) && w.queues[TRAFFIC] == (if traffic then [PUSH] else [])
  }

  /** The state in which handler h is called, when it alone leads. */
  function Called(w: World, h: Handle, after: seq<EnvOp>): World
    requires |w.queues| == |CAPS| && h < |CAPS| && w.queues[h] != []
  {
    Around(Call(w.(queues := Popped(w.queues, h)), Notice(h, w.queues[h][0])), after)
  }

  lemma FirstCheckDue(w: World)
    requires Stands(w, 4999, FIRST_CHECK, []) && Fresh(w) && forall h :: 0 <= h < |CAPS| ==> w.queues[h] == []
    ensures var w1 := Ticked(w, 1);
            && InTime(w1, LATE) && w1.queues[TIMER] != [] && w1.queues[TRAFFIC] == []
            && var r := Called(w1, TIMER, Ticks(500));
               Stands(r, 5500, 7000, []) && Fresh(r) && Queued(r, true, true, false, false)
  {
    hide For, Sane, Fire, ToldEach, Call, Around, DispatchTimers;
    var w1 := Ticked(w, 1);
    TicksAround(w, 1);
    StandsInTime(w1, 5000, FIRST_CHECK, []);
    TimerRound(w1, 500);
    var t := TimerTaken(w1);
    DispatchChecks(t);
    DispatchSpares(t, ACCEPT);
    FreshAlike(w, Dispatched(t));
  }

  lemma SecondLeft(order: seq<Handle>, env: seq<EnvOp>, events: seq<Activity>, w: World)
    returns (more: seq<Activity>, r: World)
    requires IsSchedule(order, PRIORITIES) && At(order, env, events, LATE, 0, w)
    requires Stands(w, 4999, FIRST_CHECK, []) && Fresh(w) && forall h :: 0 <= h < |CAPS| ==> w.queues[h] == []
    ensures At(order, env, more, LATE, 500, r) && Stands(r, 5500, 7000, []) && Fresh(r) && Queued(r, true, true, false, false)
  {
    hide At, InTime, Call, Around, For, Step, Fresh;
    FirstCheckDue(w);
    Wakes(order, w);
    more := Sleeps(order, env, events, LATE, 0, w);
    TimerLeads(order, Ticked(w, 1).queues);
    more, r := Calling(order, env, more, LATE, 1, Ticked(w, 1), TIMER, Ticks(500));
  }

  lemma RaiseThenTicks(w: World, n: nat)
    requires Sane(w) && w.queues[TRAFFIC] == [] && w.queues[TIMER] == [] && 0 < n
    ensures |w.queues| == |CAPS|
    ensures Around(w, [Raise(Notice(TRAFFIC, PUSH))] + Ticks(n)) == Ticked(w.(queues := w.queues[TRAFFIC := [PUSH]]), n)
    ensures Sane(Ticked(w.(queues := w.queues[TRAFFIC := [PUSH]]), n))
    ensures TickCount([Raise(Notice(TRAFFIC, PUSH))] + Ticks(n)) == n
  {
    var op := Raise(Notice(TRAFFIC, PUSH));
    var s := SysOf(w);
    MessageRaised(w);
    var w1 := w.(queues := w.queues[TRAFFIC := [PUSH]]);
    assert ([op] + Ticks(n))[1..] == Ticks(n);
    assert [op][1..] == [];
    assert HappenAll(s, RULES, [op]) == Happen(s, RULES, op);
    assert SysOf(w1) == Happen(s, RULES, op);
    TicksAround(w1, n);
  }

  lemma MessageWaits(w: World)
    requires Stands(w, 5500, 7000, []) && Fresh(w) && Queued(w, true, true, false, false)
    ensures InTime(w, LATE)
    ensures var r := Called(w, TIMER, [Raise(Notice(TRAFFIC, PUSH))] + Ticks(500));
            Stands(r, 6000, 7000, []) && Fresh(r) && Queued(r, true, true, false, true)
  {
    hide For, Sane, Fire, ToldEach, Call, Around, DispatchTimers;
    StandsInTime(w, 5500, 7000, []);
    TimerRound(w, 0);
    var t := TimerTaken(w);
    var d := Dispatched(t);
    DispatchSparesBoth(t);
    AroundNothing(Call(t, Notice(TIMER, w.queues[TIMER][0])));
    TimerTakenIs(w);
    RaiseThenTicks(d, 500);
    FreshAlike(w, d);
  }

  lemma AroundNothing(w: World)
    ensures Around(w, []) == w && Ticks(0) == []
  {
  }

  lemma DispatchSparesBoth(w: World)
    requires HasCheck(w) && Sane(w) && w.hub.timers.now < For(w.hub.timers.live, CHECK)[0].count
    requires forall f :: f in For(w.hub.timers.live, ACCEPT) ==> w.hub.timers.now < f.count
    ensures HasCheck(Dispatched(w)) && |w.queues| == |CAPS|
    ensures forall h :: h == CHECK || h == ACCEPT ==>
              For(Dispatched(w).hub.timers.live, h) == For(w.hub.timers.live, h) && Dispatched(w).queues[h] == w.queues[h]
  {
    hide Dispatched;
    assert forall f :: f in For(w.hub.timers.live, CHECK) ==> f == For(w.hub.timers.live, CHECK)[0];
    DispatchSpares(w, CHECK);
    DispatchSpares(w, ACCEPT);
  }

  lemma MessageArrives(order: seq<Handle>, env: seq<EnvOp>, events: seq<Activity>, w: World)
    returns (more: seq<Activity>, r: World)
    requires IsSchedule(order, PRIORITIES) && At(order, env, events, LATE, 500, w)
    requires Stands(w, 5500, 7000, []) && Fresh(w) && Queued(w, true, true, false, false)
    ensures At(order, env, more, LATE, 500, r) && Stands(r, 6000, 7000, []) && Fresh(r) && Queued(r, true, true, false, true)
  {
    hide At, InTime, Call, Around, For, Fresh;
    MessageWaits(w);
    TimerLeads(order, w.queues);
    RaisedTicks(500);
    more, r := Calling(order, env, events, LATE, 500, w, TIMER, [Raise(Notice(TRAFFIC, PUSH))] + Ticks(500));
  }

  lemma RaisedTicks(n: nat)
    ensures TickCount([Raise(Notice(TRAFFIC, PUSH))] + Ticks(n)) == n
  {
    assert ([Raise(Notice(TRAFFIC, PUSH))] + Ticks(n))[1..] == Ticks(n);
  }

  /** The accept timer armed at 6000. */
  ghost predicate AcceptAt7000(accepts: seq<Future>) {
    |accepts| == 1 && accepts[0].repeat == 0 && accepts[0].count == 7000
  }

  lemma MessageTaken(w: World) returns (f: Future)
    requires Stands(w, 6000, 7000, []) && Fresh(w) && Queued(w, true, true, false, true)
    ensures InTime(w, LATE) && AcceptAt7000([f])
    ensures var r := Called(w, TRAFFIC, []);
            Stands(r, 6000, 7000, [f]) && Pushing(r) && r.since == 1 && Queued(r, true, true, false, false)
  {
    hide For, Sane, Call;
    StandsInTime(w, 6000, 7000, []);
    Takes(w, TRAFFIC);
    f := PushApplied(w.(queues := w.queues[TRAFFIC := []]), 7000);
    AroundNothing(Call(w.(queues := w.queues[TRAFFIC := []]), Notice(TRAFFIC, PUSH)));
  }

  lemma NothingDueAt6000(w: World, accepts: seq<Future>)
    requires Stands(w, 6000, 7000, accepts) && AcceptAt7000(accepts) && Pushing(w) && Queued(w, true, true, false, false)
    ensures InTime(w, LATE)
    ensures var r := Called(w, TIMER, []);
            && Stands(r, 6000, 7000, accepts) && Pushing(r) && r.since == w.since && Queued(r, false, true, false, false)
            && InTime(r, LATE)
  {
    hide For, Sane, Fire, ToldEach, Call, Around, DispatchTimers;
    StandsInTime(w, 6000, 7000, accepts);
    TimerRound(w, 0);
    AroundNothing(w);
    var t := TimerTaken(w);
    DispatchSparesBoth(t);
    FreshAlike(w, Dispatched(t));
    StandsInTime(Dispatched(t), 6000, 7000, accepts);
  }

  lemma FirstCheckPasses(w: World, accepts: seq<Future>)
    requires Stands(w, 6000, 7000, accepts) && AcceptAt7000(accepts) && Pushing(w) && w.since == 1
    requires Queued(w, false, true, false, false)
    ensures InTime(w, LATE)
    ensures var r := Called(w, CHECK, []);
            && Stands(r, 6000, 7000, accepts) && Pushing(r) && r.since == 0 && Queued(r, false, false, false, false)
            && InTime(r, LATE)
  {
    hide For, Sane, Call;
    StandsInTime(w, 6000, 7000, accepts);
    Takes(w, CHECK);
    var t := w.(queues := w.queues[CHECK := []]);
    CheckPasses(t, 7000, accepts);
    CallIgnoresArgument(t, CHECK, w.queues[CHECK][0]);
    AroundNothing(Call(t, Notice(CHECK, 0)));
    StandsInTime(Call(t, Notice(CHECK, 0)), 6000, 7000, accepts);
  }

  lemma QueuedAlike(w: World, r: World, timer: bool, check: bool, accept: bool, traffic: bool)
    requires SameHub(w, r) && Queued(w, timer, check, accept, traffic)
    ensures Queued(r, timer, check, accept, traffic)
    ensures r == w.(hub := w.hub.(timers := r.hub.timers), queues := r.queues)
  {
  }

  /** From the message to the end of second 6, with nothing left to do. */
  lemma CommandApplied(order: seq<Handle>, env: seq<EnvOp>, events: seq<Activity>, w: World)
    returns (more: seq<Activity>, r: World, accepts: seq<Future>)
    requires IsSchedule(order, PRIORITIES) && At(order, env, events, LATE, 500, w)
    requires Stands(w, 6000, 7000, []) && Fresh(w) && Queued(w, true, true, false, true)
    ensures At(order, env, more, LATE, 0, r) && Stands(r, 6000, 7000, accepts) && AcceptAt7000(accepts)
    ensures Pushing(r) && r.since == 0 && InTime(r, LATE) && forall h :: 0 <= h < |CAPS| ==> r.queues[h] == []
  {
    hide At, InTime, Call, Around, For, Fresh, Pushing, Stands, SameHub, AcceptAt7000;
    var f := MessageTaken(w);
    accepts := [f];
    TrafficLeads(order);
    more, r := Calling(order, env, events, LATE, 500, w, TRAFFIC, []);
    NothingDueAt6000(r, accepts);
    TimerLeads(order, r.queues);
    more, r := Calling(order, env, more, LATE, 0, r, TIMER, []);
    var w1 := r;
    more, r := DrainTo(order, env, more, LATE, w1, CHECK);
    StandsAlike(w1, r, 6000, 7000, accepts);
    QueuedAlike(w1, r, false, true, false, false);
    FreshAlike(w1, r);
    FirstCheckPasses(r, accepts);
    more, r := Calling(order, env, more, LATE, 0, r, CHECK, []);
    var w2 := r;
    more, r := DrainAll(order, env, more, LATE, w2);
    StandsAlike(w2, r, 6000, 7000, accepts);
    QueuedAlike(w2, r, false, false, false, false);
    FreshAlike(w2, r);
    SameHubInTime(w2, r, LATE);
  }

  /** Second 7: both the check and the end of the quiet period fall due. */
  lemma BothDue(w: World, accepts: seq<Future>)
    requires Stands(w, 6999, 7000, accepts) && AcceptAt7000(accepts) && Pushing(w) && w.since == 0
    requires forall h :: 0 <= h < |CAPS| ==> w.queues[h] == []
    ensures var w1 := Ticked(w, 1);
            && InTime(w1, LATE) && w1.queues[TIMER] != [] && w1.queues[TRAFFIC] == []
            && var r := Called(w1, TIMER, []);
               && Stands(r, 7000, 9000, []) && Pushing(r) && r.since == 0 && Queued(r, false, true, true, false)
               && InTime(r, LATE)
  {
    hide For, Sane, Fire, ToldEach, Call, Around, DispatchTimers;
    var w1 := Ticked(w, 1);
    TicksAround(w, 1);
    StandsInTime(w1, 7000, 7000, accepts);
    TimerRound(w1, 0);
    AroundNothing(w1);
    var t := TimerTaken(w1);
    DispatchChecks(t);
    DispatchAccepts(t, accepts[0]);
    FreshAlike(w, Dispatched(t));
    StandsInTime(Dispatched(t), 7000, 9000, []);
  }

  /** The check goes first and shuts the valves; the accept notification is stale but still queued. */
  lemma SecondCheckShuts(w: World) returns (f: Future)
    requires Stands(w, 7000, 9000, []) && Pushing(w) && w.since == 0 && Queued(w, false, true, true, false)
    ensures var r := Called(w, CHECK, []);
            && Stands(r, 7000, 9000, [f]) && r.since == 0 && r.hub.current == OpCodes.IDLE
            && r.applied == [Applied(6000, true), Applied(7000, false)] && Queued(r, false, false, true, false)
            && InTime(r, LATE)
  {
    hide For, Sane, Call;
    Takes(w, CHECK);
    var t := w.(queues := w.queues[CHECK := []]);
    f := CheckShuts(t, 9000);
    CallIgnoresArgument(t, CHECK, w.queues[CHECK][0]);
    AroundNothing(Call(t, Notice(CHECK, 0)));
    StandsInTime(Call(t, Notice(CHECK, 0)), 7000, 9000, [f]);
  }

  /** The stale notification makes the hub ready at once, as the next message arrives. */
  lemma StaleAccept(w: World, f: Future)
    requires Stands(w, 7000, 9000, [f]) && w.since == 0 && w.hub.current == OpCodes.IDLE
    requires w.applied == [Applied(6000, true), Applied(7000, false)] && Queued(w, false, false, true, false)
    ensures var r := Called(w, ACCEPT, [Raise(Notice(TRAFFIC, PUSH))]);
            && r.queues[TRAFFIC] == [PUSH] && InTime(r, LATE)
            && r.hub.ready && r.hub.current == OpCodes.IDLE && r.hub.timers.now == 7000 && r.applied == w.applied
  {
    hide For, Sane;
    Takes(w, ACCEPT);
    var t := w.(queues := w.queues[ACCEPT := []]);
    CallKeepsCheckTimer(t, Notice(ACCEPT, 0));
    CallIgnoresArgument(t, ACCEPT, w.queues[ACCEPT][0]);
    var c := Call(t, Notice(ACCEPT, 0));
    MessageRaised(c);
    var r := c.(queues := c.queues[TRAFFIC := [PUSH]]);
    StandsInTime(r, 7000, 9000, For(r.hub.timers.live, ACCEPT));
  }

  /** The command is applied in the millisecond of the shut-off before it. */
  lemma AppliedAtOnce(w: World)
    requires Sane(w) && w.queues[TRAFFIC] == [PUSH] && w.hub.ready && w.hub.current == OpCodes.IDLE
    requires w.hub.timers.now == 7000 && w.applied == [Applied(6000, true), Applied(7000, false)]
    ensures |w.queues| == |CAPS| && !Spaced(Called(w, TRAFFIC, []).applied)
  {
    PushIsValid();
    var r := Call(w.(queues := Popped(w.queues, TRAFFIC)), Notice(TRAFFIC, PUSH));
    AroundNothing(r);
    assert r.applied == [Applied(6000, true), Applied(7000, false), Applied(7000, true)];
    assert r.applied[2].byTraffic && !(r.applied[2 - 1].at + QUIET_PERIOD <= r.applied[2].at);
  }

  lemma Chatters(order: seq<Handle>, env: seq<EnvOp>, events: seq<Activity>, w: World, accepts: seq<Future>)
    returns (more: seq<Activity>, r: World)
    requires IsSchedule(order, PRIORITIES) && Ahead(order, CHECK, ACCEPT) && At(order, env, events, LATE, 0, w)
    requires Stands(w, 6999, 7000, accepts) && AcceptAt7000(accepts) && Pushing(w) && w.since == 0
    requires forall h :: 0 <= h < |CAPS| ==> w.queues[h] == []
    ensures At(order, env, more, LATE, 0, r) && !Spaced(r.applied)
  {
    hide At, InTime, Call, Around, For, Step, Pushing, Stands, SameHub, Sane, Spaced;
    StandsSane(w, 6999, 7000, accepts);
    BothDue(w, accepts);
    Wakes(order, w);
    more := Sleeps(order, env, events, LATE, 0, w);
    TimerLeads(order, Ticked(w, 1).queues);
    more, r := Calling(order, env, more, LATE, 1, Ticked(w, 1), TIMER, []);
    var w1 := r;
    more, r := DrainTo(order, env, more, LATE, w1, CHECK);
    StandsAlike(w1, r, 7000, 9000, []);
    QueuedAlike(w1, r, false, true, true, false);
    FreshAlike(w1, r);
    SameHubInTime(w1, r, LATE);
    var f := SecondCheckShuts(r);
    more, r := Calling(order, env, more, LATE, 0, r, CHECK, []);
    var w2 := r;
    more, r := DrainTo(order, env, more, LATE, w2, ACCEPT);
    StandsAlike(w2, r, 7000, 9000, [f]);
    QueuedAlike(w2, r, false, false, true, false);
    SameHubInTime(w2, r, LATE);
    StaleAccept(r, f);
    RaisedTicks(0);
    AroundNothing(r);
    more, r := Calling(order, env, more, LATE, 0, r, ACCEPT, [Raise(Notice(TRAFFIC, PUSH))]);
    InTimeSane(r, LATE);
    TrafficLeads(order);
    AppliedAtOnce(r);
    more, r := Calling(order, env, more, LATE, 0, r, TRAFFIC, []);
  }

  lemma StandsSane(w: World, now: nat, check: nat, accepts: seq<Future>)
    requires Stands(w, now, check, accepts)
    ensures Sane(w) && |w.queues| == |CAPS|
  {
  }

  /**
   With the check handler in front there is a run the loop can take in real time, one check being a
   second late and every accept on time, that applies a command in the millisecond of a shut-off.
   */
  lemma ChatterRun(order: seq<Handle>, env: seq<EnvOp>) returns (events: seq<Activity>)
    requires IsSchedule(order, PRIORITIES) && Ahead(order, CHECK, ACCEPT) && QuietStart(env)
    ensures Paced(order, env, events) && PromptRun(order, env, events, QUIET_PERIOD, 0)
    ensures !Spaced(Run(order, env, events).applied)
  {
    hide InTime, Stands, SameHub, Fresh, Pushing, Spaced, Run, For, QuietStart;
    var w, w0, accepts;
    events, w := Starts(order, env);
    StandsNow(w, 0, FIRST_CHECK, []);
    w0 := w;
    StartsInTime(w0);
    events, w := QuietSpan(order, env, events, LATE, w0, 4999);
    StandsPassed(w0, 4999, w, 0, FIRST_CHECK, []);
    FreshAlike(w0, w);
    events, w := SecondLeft(order, env, events, w);
    events, w := MessageArrives(order, env, events, w);
    events, w, accepts := CommandApplied(order, env, events, w);
    StandsNow(w, 6000, 7000, accepts);
    w0 := w;
    events, w := QuietSpan(order, env, events, LATE, w0, 999);
    StandsPassed(w0, 999, w, 6000, 7000, accepts);
    FreshAlike(w0, w);
    events, w := Chatters(order, env, events, w, accepts);
  }

  lemma StandsNow(w: World, now: nat, check: nat, accepts: seq<Future>)
    requires Stands(w, now, check, accepts) && (accepts == [] || AcceptAt7000(accepts))
    ensures w.hub.timers.now == now
    ensures forall f :: f in For(w.hub.timers.live, CHECK) ==> f.count == check
    ensures forall f :: f in For(w.hub.timers.live, ACCEPT) ==> f.count == 7000
  {
    hide Sane, For;
  }

  lemma StartsInTime(w: World)
    requires Stands(w, 0, FIRST_CHECK, []) && Fresh(w) && forall h :: 0 <= h < |CAPS| ==> w.queues[h] == []
    ensures InTime(w, LATE)
  {
    StandsInTime(w, 0, FIRST_CHECK, []);
  }

  /**
   Of the runs the loop can take in real time, all keep a change by traffic at least a second behind
   the application before it, exactly when the sort put the accept handler ahead of the check handler.
   */
  lemma SpacedIffAcceptAhead(order: seq<Handle>)
    requires IsSchedule(order, PRIORITIES)
    ensures (forall env, events :: Paced(order, env, events) ==> Spaced(Run(order, env, events).applied))
       <==> Ahead(order, ACCEPT, CHECK)
  {
    if Ahead(order, ACCEPT, CHECK) {
      forall env, events
        ensures Spaced(Run(order, env, events).applied)
      {
        RunsAreQuiet(order, env, events);
      }
    } else {
      assert ACCEPT in order && CHECK in order;
      var i :| 0 <= i < |order| && order[i] == ACCEPT;
      var j :| 0 <= j < |order| && order[j] == CHECK;
      assert j < i;
      AroundNothing(Boot());
      var events := ChatterRun(order, []);
    }
  }
}
