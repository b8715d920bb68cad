/** What holds between any two rounds of the hub's loop, in every run. */
module HubRuns {
  import opened TimerModel
  import opened ReactorModel
  import opened Runtime
  import opened HubModel
  import OpCodes

  // ---------------------------------------------------------------------------------------------
  // Outputs and watchdog: these hold for every outcome of the priority sort

  /** The outputs are those of the current command, and while one is on a message came since the check before last. */
  ghost predicate Watched(w: World) {
    && w.hub.valves == ValvesOf(w.hub.current)
    && w.hub.messages == w.since % 0x1_0000
    && (w.hub.valves != ALL_OFF ==> w.since > 0 || w.before > 0)
  }

  lemma CountMessage(since: nat)
    ensures (since % 0x1_0000 + 1) % 0x1_0000 == (since + 1) % 0x1_0000
  {
  }

  lemma CallKeepsWatch(w: World, call: Notice)
    requires Watched(w)
    ensures Watched(Call(w, call))
  {
    CountMessage(w.since);
  }

  lemma {:induction false} RunsKeepWatch(order: seq<Handle>, env: seq<EnvOp>, events: seq<Activity>)
    requires IsPermutation(order, |CAPS|)
    ensures Watched(Run(order, env, events))
  {
    if events != [] {
      var w, e := Run(order, env, events[..|events| - 1]), events[|events| - 1];
      RunsKeepWatch(order, env, events[..|events| - 1]);
      if e.Round? && Pick(order, w.queues) < |order| {
        var h, w1 := order[Pick(order, w.queues)], Around(w, e.isr);
        CallKeepsWatch(w1.(queues := Popped(w1.queues, h)), Notice(h, w1.queues[h][0]));
      }
    }
  }

  lemma AtMostOneOn(cmd: OpCodes.Byte)
    ensures OnCount(ValvesOf(cmd)) <= 1
    ensures OnCount(ValvesOf(cmd)) == 1 <==> ValvesOf(cmd) != ALL_OFF
  {
  }

  /** At most one valve is on, and only if a valid message was handled since the check before the last one. */
  lemma ValveNeedsRecentMessage(order: seq<Handle>, env: seq<EnvOp>, events: seq<Activity>)
    requires IsPermutation(order, |CAPS|)
    ensures var w := Run(order, env, events);
            && w.hub.valves == ValvesOf(w.hub.current) && OnCount(w.hub.valves) <= 1
            && (OnCount(w.hub.valves) == 1 ==> w.since > 0 || w.before > 0)
  {
    hide Run, ValvesOf, OnCount;
    RunsKeepWatch(order, env, events);
    AtMostOneOn(Run(order, env, events).hub.current);
  }

  /**
   A check shuts the valves exactly when the number of messages since the check before is a
   multiple of 65536: with fewer than 65536 of them, exactly when there was none.
   */
  lemma CheckShutsWhenSilent(w: World)
    requires Watched(w)
    ensures var r := Call(w, Notice(CHECK, 0));
            && (|r.applied| > |w.applied| <==> w.since % 0x1_0000 == 0)
            && (w.since % 0x1_0000 == 0 ==> r.hub.valves == ALL_OFF && r.hub.current == OpCodes.IDLE)
            && (w.since % 0x1_0000 != 0 ==> r.hub.valves == w.hub.valves && r.hub.current == w.hub.current)
            && (w.since < 0x1_0000 ==> (|r.applied| > |w.applied| <==> w.since == 0))
  {
  }

  // ---------------------------------------------------------------------------------------------
  // The watchdog's own timer

  /** Exactly one check is armed, on the grid of deadlines fixed at start-up. */
  ghost predicate Ticking(w: World, first: nat) {
    var mine := For(w.hub.timers.live, CHECK);
    && |mine| == 1 && mine[0].repeat == CHECK_PERIOD == 2000
    && first <= mine[0].count && (mine[0].count - first) % CHECK_PERIOD == 0
  }

  ghost predicate Sane(w: World) {
    Base(SysOf(w), RULES) && Belongs(w.hub.timers, w.hub.accept, ACCEPT)
  }

  /** A round of a run is a round that the reactor's loop serves, with the call the loop makes. */
  lemma StepServes(order: seq<Handle>, w: World, e: Activity, events: seq<Event>, call: Notice, events': seq<Event>)
    requires IsPermutation(order, |CAPS|) && Sane(w) && e.Round?
    requires KnownEvents(events, |CAPS|) && w.queues == Replay(CAPS, events)
    requires Known(AllNotices(SysOf(w), RULES, e.isr), |CAPS|)
    requires Serves(order, CAPS, events, AllNotices(SysOf(w), RULES, e.isr), call, events')
    ensures KnownEvents(events', |CAPS|) && |w.queues| == |CAPS|
    ensures Step(order, w, e) == Around(Call(Around(w, e.isr).(queues := Replay(CAPS, events')), call), e.after)
  {
    hide Serves, Replay, AllNotices, Call, HappenAll, Pick;
    ServedRound(SysOf(w), RULES, order, e.isr, events, call, events');
  }

  lemma AroundKeepsSane(w: World, env: seq<EnvOp>)
    requires Sane(w)
    ensures var r := Around(w, env); Sane(r) && Calm(SysOf(w), SysOf(r), RULES)
  {
    HappenAllKeeps(SysOf(w), RULES, env);
    BelongsLater(w.hub.timers, Around(w, env).hub.timers, w.hub.accept, ACCEPT);
  }

  /** Applying a command leaves the check timer alone. */
  lemma ProcessKeepsSane(w: World, cmd: OpCodes.Byte)
    requires Sane(w)
    ensures var r := w.(hub := Process(w.hub, cmd));
            && Sane(r) && r.hub.timers.now == w.hub.timers.now
            && For(r.hub.timers.live, CHECK) == For(w.hub.timers.live, CHECK)
  {
    var r, s, t := w.(hub := Process(w.hub, cmd)), SysOf(w), CancelInstance(w.hub.timers, w.hub.accept);
    assert r.hub.timers == Arm(t, ACCEPT, t.now + QUIET_PERIOD, 0, 0);
    assert SysOf(r) == s.(timers := r.hub.timers);
    CancelVariable(s, RULES, w.hub.accept, ACCEPT);
    OwnArm(t, s.(timers := t), RULES, ACCEPT, t.now + QUIET_PERIOD, 0, 0);
    InstanceIsItsOwn(t, Future(ACCEPT, t.next, t.now + QUIET_PERIOD, 0, 0));
  }

  lemma DispatchKeepsSane(w: World)
    requires Sane(w)
    ensures Sane(WithSys(w, DispatchTimers(SysOf(w), RULES)))
  {
    DispatchEffect(SysOf(w), RULES, CHECK);
    BelongsLater(w.hub.timers, DispatchTimers(SysOf(w), RULES).timers, w.hub.accept, ACCEPT);
  }

  lemma OnGrid(x: nat, n: nat)
    requires x % CHECK_PERIOD == 0
    ensures (x + CHECK_PERIOD * n) % CHECK_PERIOD == 0
  {
    if n > 0 {
      OnGrid(x, n - 1);
      var y := x + CHECK_PERIOD * (n - 1);
      assert (y + CHECK_PERIOD) % CHECK_PERIOD == 0;
    }
  }

  lemma LaterOnGrid(f: Future, f': Future, n: nat, first: nat)
    requires f.repeat == CHECK_PERIOD && f'.count == f.count + f.repeat * n
    requires first <= f.count && (f.count - first) % CHECK_PERIOD == 0
    ensures first <= f'.count && (f'.count - first) % CHECK_PERIOD == 0
  {
    assert f'.count - first == f.count - first + CHECK_PERIOD * n;
    OnGrid(f.count - first, n);
  }

  lemma TicksWith(w: World, f: Future, first: nat)
    requires For(w.hub.timers.live, CHECK) == [f] && f.repeat == CHECK_PERIOD
    requires first <= f.count && (f.count - first) % CHECK_PERIOD == 0
    ensures Ticking(w, first)
  {
  }

  lemma DispatchKeepsTicking(w: World, first: nat)
    requires Sane(w) && Ticking(w, first)
    ensures Ticking(WithSys(w, DispatchTimers(SysOf(w), RULES)), first)
  {
    var t, f := w.hub.timers, For(w.hub.timers.live, CHECK)[0];
    assert For(t.live, CHECK) == [f];
    var f' := ForFireRepeating(t.live, t.next, t.now, CHECK, f);
    LaterOnGrid(f, f', |For(Fire(t.live, t.next, t.now).notes, CHECK)|, first);
    TicksWith(WithSys(w, DispatchTimers(SysOf(w), RULES)), f', first);
  }

  /** Only the timers, the queues and the accept variable matter here. */
  lemma SameTimers(w: World, r: World)
    requires SysOf(r) == SysOf(w) && r.hub.accept == w.hub.accept && Sane(w)
    ensures Sane(r) && r.hub.timers == w.hub.timers
  {
  }

  /** What a command applied in a call leaves of the check timer. */
  lemma AppliedKeepsCheckTimer(w: World, h: Hub, cmd: OpCodes.Byte, r: World)
    requires Sane(w) && h.timers == w.hub.timers && h.accept == w.hub.accept
    requires r.hub.timers == Process(h, cmd).timers && r.hub.accept == Process(h, cmd).accept && r.queues == w.queues
    ensures Sane(r) && r.hub.timers.now == w.hub.timers.now
    ensures For(r.hub.timers.live, CHECK) == For(w.hub.timers.live, CHECK)
  {
    var w1 := w.(hub := h);
    SameTimers(w, w1);
    ProcessKeepsSane(w1, cmd);
    SameTimers(w1.(hub := Process(h, cmd)), r);
  }

  /** No handler but the timer service's touches the check timer. */
  lemma CallKeepsCheckTimer(w: World, call: Notice)
    requires Sane(w) && call.handle != TIMER
    ensures var r := Call(w, call);
            && Sane(r) && r.hub.timers.now == w.hub.timers.now && r.queues == w.queues
            && For(r.hub.timers.live, CHECK) == For(w.hub.timers.live, CHECK)
  {
    var r, cmd := Call(w, call), ByteOf(call.arg);
    if call.handle == CHECK && w.hub.messages == 0 {
      AppliedKeepsCheckTimer(w, w.hub, OpCodes.IDLE, r);
    } else if call.handle == TRAFFIC && Changes(w.hub, cmd) {
      AppliedKeepsCheckTimer(w, w.hub.(messages := (w.hub.messages + 1) % 0x1_0000, current := cmd), cmd, r);
    } else if call.handle == ACCEPT {
      assert SysOf(r) == SysOf(w);
    } else {
      SameTimers(w, r);
    }
  }

  lemma TimerCall(w: World, call: Notice)
    requires call.handle == TIMER
    ensures Call(w, call) == WithSys(w, DispatchTimers(SysOf(w), RULES))
  {
  }

  lemma TicksAlike(w: World, r: World, first: nat)
    requires Ticking(w, first) && For(r.hub.timers.live, CHECK) == For(w.hub.timers.live, CHECK)
    ensures Ticking(r, first)
  {
  }

  lemma CallKeepsTicking(w: World, call: Notice, first: nat)
    requires Sane(w) && Ticking(w, first)
    ensures Sane(Call(w, call)) && Ticking(Call(w, call), first)
  {
    hide *;
    if call.handle == TIMER {
      TimerCall(w, call);
      DispatchKeepsSane(w);
      DispatchKeepsTicking(w, first);
    } else {
      CallKeepsCheckTimer(w, call);
      TicksAlike(w, Call(w, call), first);
    }
  }

  lemma AroundKeepsTicking(w: World, env: seq<EnvOp>, first: nat)
    requires Sane(w) && Ticking(w, first)
    ensures Sane(Around(w, env)) && Ticking(Around(w, env), first)
  {
    AroundKeepsSane(w, env);
    assert CHECK in RULES.own;
  }

  lemma StepKeepsTicking(order: seq<Handle>, w: World, e: Activity, first: nat)
    requires IsPermutation(order, |CAPS|) && Sane(w) && Ticking(w, first)
    ensures Sane(Step(order, w, e)) && Ticking(Step(order, w, e), first)
  {
    match e
    case Asleep(env) => AroundKeepsTicking(w, env, first);
    case Round(isr, after) =>
      if Pick(order, w.queues) < |order| {
        var h, w1 := order[Pick(order, w.queues)], Around(w, isr);
        AroundKeepsTicking(w, isr, first);
        PopKeeps(SysOf(w1), RULES, h);
        var w2, call := w1.(queues := Popped(w1.queues, h)), Notice(h, w1.queues[h][0]);
        CallKeepsTicking(w2, call, first);
        AroundKeepsTicking(Call(w2, call), after, first);
      }
  }

  lemma BootTicks()
    ensures Sane(Boot()) && For(Boot().hub.timers.live, CHECK) == []
  {
  }

  lemma StartTicks(env: seq<EnvOp>)
    ensures var w := Start(env); Sane(w) && Ticking(w, Around(Boot(), env).hub.timers.now + 5000)
  {
    hide HappenAll, For, Insert, Sound, Fits;
    var w0 := Around(Boot(), env);
    BootTicks();
    AroundKeepsSane(Boot(), env);
    assert CHECK in RULES.own;
    var t, w := w0.hub.timers, Start(env);
    OwnArm(t, SysOf(w0), RULES, CHECK, t.now + FIRST_CHECK, CHECK_PERIOD, 0);
    assert SysOf(w) == SysOf(w0).(timers := w.hub.timers);
    BelongsLater(t, w.hub.timers, w.hub.accept, ACCEPT);
    assert Ticking(w, t.now + FIRST_CHECK);
  }

  /** The watchdog never dies: in every run exactly one check is armed, and its deadlines stay on one grid. */
  lemma {:induction false} CheckAlwaysArmed(order: seq<Handle>, env: seq<EnvOp>, events: seq<Activity>) returns (first: nat)
    requires IsPermutation(order, |CAPS|)
    ensures first == Around(Boot(), env).hub.timers.now + 5000
    ensures Ticking(Start(env), first) && Sane(Run(order, env, events)) && Ticking(Run(order, env, events), first)
  {
    if events == [] {
      StartTicks(env);
      first := Around(Boot(), env).hub.timers.now + 5000;
    } else {
      first := CheckAlwaysArmed(order, env, events[..|events| - 1]);
      StepKeepsTicking(order, Run(order, env, events[..|events| - 1]), events[|events| - 1], first);
    }
  }

  // ---------------------------------------------------------------------------------------------
  // Anti-chatter: this needs the accept handler to sort ahead of the check handler

  /** A change caused by traffic comes at least the quiet period after the application before it. */
  ghost predicate Spaced(applied: seq<Applied>) {
    forall i :: 1 <= i < |applied| && applied[i].byTraffic ==> applied[i - 1].at + QUIET_PERIOD <= applied[i].at
  }

  function LastAt(w: World): nat
    requires w.applied != []
  {
    w.applied[|w.applied| - 1].at
  }

  /** Not ready means exactly one accept is pending, armed for the end of the quiet period or due. */
  ghost predicate Waiting(w: World)
    requires |w.queues| == |CAPS|
  {
    var mine, queue := For(w.hub.timers.live, ACCEPT), w.queues[ACCEPT];
    && w.applied != []
    && ((mine == [] && queue != [] && LastAt(w) + QUIET_PERIOD <= w.hub.timers.now)
        || (|mine| == 1 && queue == [] && mine[0].repeat == 0 && mine[0].count == LastAt(w) + QUIET_PERIOD
            && w.hub.accept == Armed(mine[0].instance)))
  }

  /** Ready means no accept is pending and the quiet period is over. */
  ghost predicate Idle(w: World)
    requires |w.queues| == |CAPS|
  {
    && For(w.hub.timers.live, ACCEPT) == [] && w.queues[ACCEPT] == [] && w.hub.accept == None
    && (w.applied != [] ==> LastAt(w) + QUIET_PERIOD <= w.hub.timers.now)
  }

  ghost predicate Quiet(w: World) {
    && Sane(w) && Spaced(w.applied)
    && if w.hub.ready then Idle(w) else Waiting(w)
  }

  lemma AroundKeepsQuiet(w: World, env: seq<EnvOp>)
    requires Quiet(w)
    ensures Quiet(Around(w, env))
  {
    AroundKeepsSane(w, env);
    assert ACCEPT in RULES.own;
  }

  /** What the accept handler has pending, when nothing is queued for it, is the timer the variable holds. */
  lemma AcceptIsArmed(w: World, byTraffic: bool)
    requires Quiet(w) && w.queues[ACCEPT] == [] && (byTraffic ==> w.hub.ready)
    ensures var mine := For(w.hub.timers.live, ACCEPT);
            mine == [] || (|mine| == 1 && w.hub.accept == Armed(mine[0].instance))
    ensures Base(SysOf(w), RULES) && Belongs(w.hub.timers, w.hub.accept, ACCEPT) && Spaced(w.applied)
    ensures byTraffic && w.applied != [] ==> LastAt(w) + QUIET_PERIOD <= w.hub.timers.now
  {
  }

  lemma Applies(w: World, r: World, cmd: OpCodes.Byte, byTraffic: bool)
    requires r == w.(hub := Process(w.hub, cmd), applied := w.applied + [Applied(w.hub.timers.now, byTraffic)])
    ensures var t := CancelInstance(w.hub.timers, w.hub.accept);
            && r.hub.timers == Arm(t, ACCEPT, t.now + QUIET_PERIOD, 0, 0) && r.hub.accept == Armed(t.next)
            && SysOf(r) == SysOf(w).(timers := r.hub.timers) && SysOf(w).timers == w.hub.timers
            && !r.hub.ready && r.applied != [] && LastAt(r) == w.hub.timers.now && ACCEPT in RULES.own
  {
  }

  /** A command is applied when no accept is queued; by traffic only when ready. */
  lemma ProcessKeepsQuiet(w: World, cmd: OpCodes.Byte, byTraffic: bool)
    requires Quiet(w) && w.queues[ACCEPT] == [] && (byTraffic ==> w.hub.ready)
    ensures Quiet(w.(hub := Process(w.hub, cmd), applied := w.applied + [Applied(w.hub.timers.now, byTraffic)]))
  {
    assert |w.queues| == |CAPS|;
    var t := w.hub.timers;
    var r := w.(hub := Process(w.hub, cmd), applied := w.applied + [Applied(t.now, byTraffic)]);
    AcceptIsArmed(w, byTraffic);
    hide Base, For, CancelInstance, Fits, Sound, Spaced, Waiting, Idle, Process, SysOf, Belongs;
    Applies(w, r, cmd, byTraffic);
    Restarted(SysOf(w), RULES, w.hub.accept, ACCEPT, t.now + QUIET_PERIOD);
    JustArmed(r, Future(ACCEPT, t.next, t.now + QUIET_PERIOD, 0, 0));
    SpacedAppend(w.applied, Applied(t.now, byTraffic));
  }

  lemma SpacedAppend(applied: seq<Applied>, a: Applied)
    requires Spaced(applied)
    requires a.byTraffic && applied != [] ==> applied[|applied| - 1].at + QUIET_PERIOD <= a.at
    ensures Spaced(applied + [a])
  {
  }

  lemma JustArmed(w: World, e: Future)
    requires |w.queues| == |CAPS| && w.queues[ACCEPT] == [] && w.applied != []
    requires For(w.hub.timers.live, ACCEPT) == [e]
    requires e.repeat == 0 && e.count == LastAt(w) + QUIET_PERIOD && w.hub.accept == Armed(e.instance)
    ensures Waiting(w)
  {
  }

  lemma CheckKeepsQuiet(w: World)
    requires Quiet(w) && (w.queues[ACCEPT] == [] || w.hub.messages != 0)
    ensures Quiet(Call(w, Notice(CHECK, 0)))
  {
    var r := Call(w, Notice(CHECK, 0));
    if w.hub.messages == 0 {
      ProcessKeepsQuiet(w, OpCodes.IDLE, false);
      var p := w.(hub := Process(w.hub, OpCodes.IDLE), applied := w.applied + [Applied(w.hub.timers.now, false)]);
      assert SysOf(r) == SysOf(p) && r.applied == p.applied && r.hub.accept == p.hub.accept;
    } else {
      assert SysOf(r) == SysOf(w);
    }
  }

  lemma TrafficKeepsQuiet(w: World, arg: int)
    requires Quiet(w)
    ensures Quiet(Call(w, Notice(TRAFFIC, arg)))
  {
    var r, cmd := Call(w, Notice(TRAFFIC, arg)), ByteOf(arg);
    if Changes(w.hub, cmd) {
      var counted := w.(hub := w.hub.(messages := (w.hub.messages + 1) % 0x1_0000, current := cmd));
      assert SysOf(counted) == SysOf(w);
      ProcessKeepsQuiet(counted, cmd, true);
      var p := counted.(hub := Process(counted.hub, cmd), applied := w.applied + [Applied(w.hub.timers.now, true)]);
      assert SysOf(r) == SysOf(p) && r.applied == p.applied && r.hub == p.hub;
    } else {
      assert SysOf(r) == SysOf(w) && r.applied == w.applied;
    }
  }

  /** The accept timer is either left alone or notified. */
  lemma DispatchesAccept(w: World)
    requires Quiet(w)
    ensures var r := WithSys(w, DispatchTimers(SysOf(w), RULES));
            var mine := For(w.hub.timers.live, ACCEPT);
            && |w.queues| == |r.queues| == |CAPS| && r.hub.timers.now == w.hub.timers.now
            && r == w.(hub := w.hub.(timers := r.hub.timers), queues := r.queues)
            && ((For(r.hub.timers.live, ACCEPT) == mine && r.queues[ACCEPT] == w.queues[ACCEPT])
                || (|mine| == 1 && mine[0].count <= w.hub.timers.now
                    && For(r.hub.timers.live, ACCEPT) == [] && r.queues[ACCEPT] != []))
  {
    hide Waiting, Idle, Spaced, Sound, ToldEach, Fire;
    var t, r := w.hub.timers, WithSys(w, DispatchTimers(SysOf(w), RULES));
    var notes := For(Fire(t.live, t.next, t.now).notes, ACCEPT);
    AcceptIsSingle(w);
    DispatchEffect(SysOf(w), RULES, ACCEPT);
    ForFireSingle(t.live, t.next, t.now, ACCEPT);
    if notes != [] {
      assert notes[0] in notes;
    }
  }

  lemma AcceptIsSingle(w: World)
    requires Quiet(w)
    ensures Sane(w) && |For(w.hub.timers.live, ACCEPT)| <= 1 && OneShot(w.hub.timers.live, ACCEPT)
  {
  }

  lemma QuietAfter(w: World, r: World)
    requires Quiet(w) && Sane(r) && |w.queues| == |r.queues| == |CAPS| && r.hub.timers.now == w.hub.timers.now
    requires r == w.(hub := w.hub.(timers := r.hub.timers), queues := r.queues)
    requires var mine := For(w.hub.timers.live, ACCEPT);
             || (For(r.hub.timers.live, ACCEPT) == mine && r.queues[ACCEPT] == w.queues[ACCEPT])
             || (|mine| == 1 && mine[0].count <= w.hub.timers.now
                 && For(r.hub.timers.live, ACCEPT) == [] && r.queues[ACCEPT] != [])
    ensures Quiet(r)
  {
    hide Sane, Spaced, For;
  }

  lemma DispatchKeepsQuiet(w: World)
    requires Quiet(w)
    ensures Quiet(WithSys(w, DispatchTimers(SysOf(w), RULES)))
  {
    hide *;
    DispatchesAccept(w);
    AcceptIsSingle(w);
    DispatchKeepsSane(w);
    QuietAfter(w, WithSys(w, DispatchTimers(SysOf(w), RULES)));
  }

  /** What taking an item off a queue leaves for its handler. */
  lemma PopKeepsQuiet(w: World, h: Handle)
    requires Quiet(w) && h < |CAPS| && w.queues[h] != []
    ensures var r := w.(queues := Popped(w.queues, h));
            Sane(r) && (h != ACCEPT ==> Quiet(r))
    ensures h == ACCEPT ==> Quiet(Call(w.(queues := Popped(w.queues, h)), Notice(ACCEPT, 0)))
  {
    PopKeeps(SysOf(w), RULES, h);
    var r := w.(queues := Popped(w.queues, h));
    assert SysOf(r) == SysOf(w).(queues := r.queues);
    if h == ACCEPT {
      assert |w.queues[ACCEPT]| <= CAPS[ACCEPT] == 1;
      assert SysOf(Call(r, Notice(ACCEPT, 0))) == SysOf(r);
    }
  }

  /** The handler a round calls, in the state after the interrupts before the call. */
  ghost predicate Calls(order: seq<Handle>, w: World, e: Activity, h: Handle, w1: World)
    requires |w.queues| == |CAPS| && IsPermutation(order, |CAPS|)
  {
    e.Round? && Pick(order, w.queues) < |order| && h == order[Pick(order, w.queues)] && w1 == Around(w, e.isr)
  }

  /** No check shuts the valves while an accept notification is waiting. */
  ghost predicate CheckWaits(order: seq<Handle>, w: World, e: Activity)
    requires |w.queues| == |CAPS| && IsPermutation(order, |CAPS|)
  {
    forall w1 :: Calls(order, w, e, CHECK, w1) ==> w1.queues[ACCEPT] == [] || w1.hub.messages != 0
  }

  lemma StepKeepsQuiet(order: seq<Handle>, w: World, e: Activity)
    requires IsPermutation(order, |CAPS|) && Quiet(w) && CheckWaits(order, w, e)
    ensures Quiet(Step(order, w, e))
  {
    match e
    case Asleep(env) => AroundKeepsQuiet(w, env);
    case Round(isr, after) =>
      if Pick(order, w.queues) < |order| {
        var h, w1 := order[Pick(order, w.queues)], Around(w, isr);
        assert Calls(order, w, e, h, w1);
        RoundKeepsQuiet(w, isr, h, after);
      }
  }

  lemma RoundKeepsQuiet(w: World, isr: seq<EnvOp>, h: Handle, after: seq<EnvOp>)
    requires |w.queues| == |CAPS| && Quiet(w) && h < |CAPS| && Around(w, isr).queues[h] != []
    requires h == CHECK ==> Around(w, isr).queues[ACCEPT] == [] || Around(w, isr).hub.messages != 0
    ensures var w1 := Around(w, isr);
            Quiet(Around(Call(w1.(queues := Popped(w1.queues, h)), Notice(h, w1.queues[h][0])), after))
  {
    hide Quiet, Around, Call;
    var w1 := Around(w, isr);
    AroundKeepsQuiet(w, isr);
    PopKeepsQuiet(w1, h);
    var w2, call := w1.(queues := Popped(w1.queues, h)), Notice(h, w1.queues[h][0]);
    CallKeepsQuiet(w2, call);
    AroundKeepsQuiet(Call(w2, call), after);
  }

  lemma AheadWaits(order: seq<Handle>, w: World, e: Activity)
    requires IsPermutation(order, |CAPS|) && Ahead(order, ACCEPT, CHECK) && Quiet(w)
    ensures CheckWaits(order, w, e)
  {
    if e.Round? && Pick(order, w.queues) < |order| && order[Pick(order, w.queues)] == CHECK {
      PickBehind(order, w.queues, ACCEPT, CHECK);
      HappenAllKeeps(SysOf(w), RULES, e.isr);
      assert ACCEPT in RULES.own;
    }
  }

  lemma CallKeepsQuiet(w: World, call: Notice)
    requires call.handle != ACCEPT ==> Quiet(w)
    requires call.handle == ACCEPT ==> Quiet(Call(w, Notice(ACCEPT, 0)))
    requires call.handle == CHECK ==> |w.queues| == |CAPS| && (w.queues[ACCEPT] == [] || w.hub.messages != 0)
    ensures Quiet(Call(w, call))
  {
    hide Quiet;
    if call.handle == CHECK {
      CheckKeepsQuiet(w);
      assert Call(w, call) == Call(w, Notice(CHECK, 0));
    } else if call.handle == TRAFFIC {
      TrafficKeepsQuiet(w, call.arg);
    } else if call.handle == TIMER {
      DispatchKeepsQuiet(w);
    } else if call.handle == ACCEPT {
      assert Call(w, call) == Call(w, Notice(ACCEPT, 0));
    }
  }

  lemma StartIsQuiet(env: seq<EnvOp>)
    ensures Quiet(Start(env))
  {
    var w0 := Around(Boot(), env);
    assert Quiet(Boot());
    AroundKeepsQuiet(Boot(), env);
    var t, w := w0.hub.timers, Start(env);
    OwnArm(t, SysOf(w0), RULES, CHECK, t.now + FIRST_CHECK, CHECK_PERIOD, 0);
    assert SysOf(w) == SysOf(w0).(timers := w.hub.timers);
    BelongsLater(t, w.hub.timers, w.hub.accept, ACCEPT);
  }

  lemma {:induction false} RunsAreQuiet(order: seq<Handle>, env: seq<EnvOp>, events: seq<Activity>)
    requires IsPermutation(order, |CAPS|) && Ahead(order, ACCEPT, CHECK)
    ensures Quiet(Run(order, env, events))
  {
    if events == [] {
      StartIsQuiet(env);
    } else {
      RunsAreQuiet(order, env, events[..|events| - 1]);
      AheadWaits(order, Run(order, env, events[..|events| - 1]), events[|events| - 1]);
      StepKeepsQuiet(order, Run(order, env, events[..|events| - 1]), events[|events| - 1]);
    }
  }
}
