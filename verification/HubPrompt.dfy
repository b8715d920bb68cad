/**
 The hub's real-time guarantees when its handlers are called promptly: they hold for every outcome of
 the priority sort.
 */
module HubPrompt {
  import opened TimerModel
  import opened ReactorModel
  import opened Runtime
  import opened HubModel
  import opened HubRuns

  ghost predicate HasCheck(w: World) {
    var mine := For(w.hub.timers.live, CHECK);
    |w.queues| == |CAPS| && |mine| == 1 && mine[0].repeat == CHECK_PERIOD
  }

  /** The deadline of the check that is waiting, or else of the next one. */
  function Due(w: World): int
    requires HasCheck(w)
  {
    For(w.hub.timers.live, CHECK)[0].count - if w.queues[CHECK] != [] then CHECK_PERIOD else 0
  }

  /**
   No check is left more than checkLate ms past its deadline, and no accept notification more than
   acceptLate ms past its own.
   */
  ghost predicate Prompt(w: World, checkLate: nat, acceptLate: nat)
    requires HasCheck(w)
  {
    && w.hub.timers.now <= Due(w) + checkLate
    && (w.queues[ACCEPT] != [] && w.applied != [] ==> w.hub.timers.now <= LastAt(w) + QUIET_PERIOD + acceptLate)
  }

  /** So it is whenever a handler is called, and fewer than 65536 messages came since the last check. */
  ghost predicate CallsPromptly(order: seq<Handle>, w: World, e: Activity, checkLate: nat, acceptLate: nat)
    requires |w.queues| == |CAPS| && IsPermutation(order, |CAPS|)
  {
    forall h, w1 :: Calls(order, w, e, h, w1) ==>
      HasCheck(w1) && Prompt(w1, checkLate, acceptLate) && w1.since < 0x1_0000
  }

  ghost predicate PromptRun(order: seq<Handle>, env: seq<EnvOp>, events: seq<Activity>, checkLate: nat, acceptLate: nat)
    requires IsPermutation(order, |CAPS|)
  {
    events != [] ==>
      && PromptRun(order, env, events[..|events| - 1], checkLate, acceptLate)
      && CallsPromptly(order, Run(order, env, events[..|events| - 1]), events[|events| - 1], checkLate, acceptLate)
  }

  /** What the deadlines say about the last application and the last valid message; first is the first check's. */
  ghost predicate Tied(w: World, checkLate: nat, first: int) {
    && HasCheck(w) && first <= Due(w)
    && (w.queues[CHECK] != [] ==> Due(w) <= w.hub.timers.now)
    && (Due(w) <= w.hub.timers.now + CHECK_PERIOD || Due(w) == first)
    && (w.since == 0 && w.applied != [] ==> LastAt(w) + CHECK_PERIOD <= Due(w) + checkLate)
    && (w.since > 0 ==> Due(w) <= w.heard + CHECK_PERIOD || Due(w) == first)
    && (w.since == 0 && w.before > 0 ==> Due(w) <= w.heard + 2 * CHECK_PERIOD || Due(w) == first + CHECK_PERIOD)
    && (w.applied != [] ==> LastAt(w) <= w.hub.timers.now)
  }

  /** Only these matter, and a later clock does no harm. */
  lemma TiedAlike(w: World, r: World, checkLate: nat, first: int)
    requires Tied(w, checkLate, first) && |r.queues| == |w.queues| && w.hub.timers.now <= r.hub.timers.now
    requires For(r.hub.timers.live, CHECK) == For(w.hub.timers.live, CHECK) && r.queues[CHECK] == w.queues[CHECK]
    requires r.applied == w.applied && r.since == w.since && r.before == w.before && r.heard == w.heard
    ensures Tied(r, checkLate, first) && Due(r) == Due(w)
  {
  }

  lemma AroundKeepsTied(w: World, env: seq<EnvOp>, checkLate: nat, first: int)
    requires Sane(w) && Tied(w, checkLate, first)
    ensures Tied(Around(w, env), checkLate, first)
  {
    AroundKeepsSane(w, env);
    assert CHECK in RULES.own;
    TiedAlike(w, Around(w, env), checkLate, first);
  }

  /** A check, called at most checkLate ms late. */
  lemma CheckKeepsTied(w: World, rest: Queues, r: World, checkLate: nat, first: int)
    requires Tied(w, checkLate, first) && w.queues[CHECK] != [] && w.hub.timers.now <= Due(w) + checkLate
    requires |rest| == |CAPS| && rest[CHECK] == [] && r.queues == rest && r.hub.timers.now == w.hub.timers.now
    requires For(r.hub.timers.live, CHECK) == For(w.hub.timers.live, CHECK)
    requires r.since == 0 && r.before == w.since && r.heard == w.heard
    requires r.applied == w.applied || r.applied == w.applied + [Applied(w.hub.timers.now, false)]
    ensures Tied(r, checkLate, first)
  {
    hide For;
    assert Due(r) == Due(w) + CHECK_PERIOD;
  }

  lemma TrafficKeepsTied(w: World, r: World, checkLate: nat, first: int)
    requires Tied(w, checkLate, first) && r.queues == w.queues && r.hub.timers.now == w.hub.timers.now
    requires For(r.hub.timers.live, CHECK) == For(w.hub.timers.live, CHECK)
    requires r.since == w.since + 1 && r.before == w.before && r.heard == w.hub.timers.now
    requires r.applied == w.applied || r.applied == w.applied + [Applied(w.hub.timers.now, true)]
    ensures Tied(r, checkLate, first)
  {
    hide For;
    assert Due(r) == Due(w);
  }

  /** A dispatch that comes less than a period late notifies at most the check that is due. */
  lemma DispatchKeepsTied(w: World, checkLate: nat, first: int)
    requires Sane(w) && Tied(w, checkLate, first) && w.hub.timers.now < Due(w) + CHECK_PERIOD
    ensures Tied(WithSys(w, DispatchTimers(SysOf(w), RULES)), checkLate, first)
  {
    hide Fire, ToldEach, Base, Sound, For, PushedAll, Args;
    var r, f := WithSys(w, DispatchTimers(SysOf(w), RULES)), For(w.hub.timers.live, CHECK)[0];
    assert For(w.hub.timers.live, CHECK) == [f];
    DispatchEffect(SysOf(w), RULES, CHECK);
    if w.hub.timers.now < f.count {
      DispatchNotDue(SysOf(w), RULES, CHECK);
      TiedAlike(w, r, checkLate, first);
    } else {
      var f' := DispatchRepeating(SysOf(w), RULES, CHECK, f);
      assert Due(r) == f.count == Due(w);
    }
  }

  lemma PoppedCheck(w: World, h: Handle)
    requires Sane(w) && h < |CAPS| && w.queues[h] != []
    ensures var q := Popped(w.queues, h); |q| == |CAPS| && (h == CHECK ==> q[CHECK] == []) && (h != CHECK ==> q[CHECK] == w.queues[CHECK])
    ensures Sane(w.(queues := Popped(w.queues, h)))
  {
    PopKeeps(SysOf(w), RULES, h);
    assert SysOf(w.(queues := Popped(w.queues, h))) == SysOf(w).(queues := Popped(w.queues, h));
    assert |w.queues[CHECK]| <= CAPS[CHECK] == 1;
  }

  lemma CallCounts(w: World, call: Notice)
    ensures var r := Call(w, call);
            && (call.handle == CHECK ==>
                  && r.since == 0 && r.before == w.since && r.heard == w.heard
                  && (r.applied == w.applied || r.applied == w.applied + [Applied(w.hub.timers.now, false)]))
            && (call.handle == TRAFFIC ==>
                  && r.before == w.before
                  && ((r.since == w.since && r.heard == w.heard && r.applied == w.applied)
                      || (r.since == w.since + 1 && r.heard == w.hub.timers.now
                          && (r.applied == w.applied || r.applied == w.applied + [Applied(w.hub.timers.now, true)]))))
            && (call.handle != CHECK && call.handle != TRAFFIC ==>
                  r.applied == w.applied && r.since == w.since && r.before == w.before && r.heard == w.heard)
  {
    hide Process;
  }

  /** A handler called promptly, w being the state before its item is taken. */
  lemma CallKeepsTied(w: World, call: Notice, checkLate: nat, first: int)
    requires Sane(w) && Tied(w, checkLate, first) && call.handle < |CAPS| && w.queues[call.handle] != []
    requires w.hub.timers.now <= Due(w) + checkLate && checkLate < CHECK_PERIOD
    ensures var r := Call(w.(queues := Popped(w.queues, call.handle)), call); Sane(r) && Tied(r, checkLate, first)
  {
    hide Sane, Call, Tied, For, WithSys, DispatchTimers, SysOf;
    TiedHas(w, checkLate, first);
    var h := call.handle;
    var w2 := w.(queues := Popped(w.queues, h));
    PoppedCheck(w, h);
    CallCounts(w2, call);
    if h != CHECK {
      TiedAlike(w, w2, checkLate, first);
    }
    if h == TIMER {
      TimerCall(w2, call);
      DispatchKeepsSane(w2);
      DispatchKeepsTied(w2, checkLate, first);
    } else {
      var r := Call(w2, call);
      CallKeepsCheckTimer(w2, call);
      if h == CHECK {
        CheckKeepsTied(w, w2.queues, r, checkLate, first);
      } else if h == TRAFFIC && r.since == w.since + 1 {
        TrafficKeepsTied(w2, r, checkLate, first);
      } else {
        TiedAlike(w2, r, checkLate, first);
      }
    }
  }

  lemma TiedHas(w: World, checkLate: nat, first: int)
    requires Tied(w, checkLate, first)
    ensures HasCheck(w)
  {
  }

  /** One step of a prompt run. */
  lemma StepKeepsTied(order: seq<Handle>, w: World, e: Activity, checkLate: nat, acceptLate: nat, first: int)
    requires IsPermutation(order, |CAPS|) && Sane(w) && Tied(w, checkLate, first) && checkLate < CHECK_PERIOD
    requires CallsPromptly(order, w, e, checkLate, acceptLate)
    ensures Sane(Step(order, w, e)) && Tied(Step(order, w, e), checkLate, first)
  {
    hide Sane, Tied, Around, Call;
    TiedHas(w, checkLate, first);
    match e
    case Asleep(env) =>
      AroundKeepsSane(w, env);
      AroundKeepsTied(w, env, checkLate, first);
    case Round(isr, after) =>
      if Pick(order, w.queues) < |order| {
        var h, w1 := order[Pick(order, w.queues)], Around(w, isr);
        assert Calls(order, w, e, h, w1);
        AroundKeepsSane(w, isr);
        AroundKeepsTied(w, isr, checkLate, first);
        TiedHas(w1, checkLate, first);
        var w2, call := w1.(queues := Popped(w1.queues, h)), Notice(h, w1.queues[h][0]);
        CallKeepsTied(w1, call, checkLate, first);
        AroundKeepsSane(Call(w2, call), after);
        AroundKeepsTied(Call(w2, call), after, checkLate, first);
      }
  }

  /**
   When a check is called promptly, with an accept notification waiting promptly too, a message came
   since the check before: it does not shut the valves.
   */
  lemma PromptCheckWaits(order: seq<Handle>, w: World, e: Activity, checkLate: nat, acceptLate: nat, first: int)
    requires IsPermutation(order, |CAPS|) && Quiet(w) && Tied(w, checkLate, first) && Watched(w)
    requires CallsPromptly(order, w, e, checkLate, acceptLate) && checkLate + acceptLate < QUIET_PERIOD
    ensures CheckWaits(order, w, e)
  {
    if e.Round? && Pick(order, w.queues) < |order| && order[Pick(order, w.queues)] == CHECK {
      var w1 := Around(w, e.isr);
      assert Calls(order, w, e, CHECK, w1);
      AroundKeepsQuiet(w, e.isr);
      AroundKeepsTied(w, e.isr, checkLate, first);
      CheckFinds(w1, checkLate, acceptLate, first);
    }
  }

  lemma CheckFinds(w: World, checkLate: nat, acceptLate: nat, first: int)
    requires Quiet(w) && Tied(w, checkLate, first) && w.hub.messages == w.since % 0x1_0000 && w.since < 0x1_0000
    requires Prompt(w, checkLate, acceptLate) && checkLate + acceptLate < QUIET_PERIOD && w.queues[CHECK] != []
    ensures w.queues[ACCEPT] == [] || w.hub.messages != 0
  {
    hide For, Sane, Spaced;
  }

  /** The drivers' start-up leaves the application alone. */
  lemma BootIsCalm(env: seq<EnvOp>)
    ensures var w := Around(Boot(), env);
            && Sane(w) && |w.queues| == |CAPS| && For(w.hub.timers.live, CHECK) == [] && w.queues[CHECK] == []
            && w.applied == [] && w.since == 0 && w.before == 0
  {
    assert Sane(Boot()) && For(Boot().hub.timers.live, CHECK) == [] && Boot().queues[CHECK] == [];
    hide HappenAll, Base, For;
    AroundKeepsSane(Boot(), env);
    assert CHECK in RULES.own;
  }

  lemma StartIsTied(env: seq<EnvOp>, checkLate: nat) returns (first: int)
    ensures Tied(Start(env), checkLate, first) && first == Around(Boot(), env).hub.timers.now + FIRST_CHECK
  {
    hide Around, Sane, For, Insert, Sound;
    var w0, w := Around(Boot(), env), Start(env);
    BootIsCalm(env);
    var t := w0.hub.timers;
    first := t.now + FIRST_CHECK;
    CheckArmed(w0);
    assert w == w0.(hub := w0.hub.(timers := Arm(t, CHECK, first, CHECK_PERIOD, 0)));
  }

  lemma CheckArmed(w: World)
    requires Sane(w) && For(w.hub.timers.live, CHECK) == []
    ensures For(Arm(w.hub.timers, CHECK, w.hub.timers.now + FIRST_CHECK, CHECK_PERIOD, 0).live, CHECK)
         == [Future(CHECK, w.hub.timers.next, w.hub.timers.now + FIRST_CHECK, CHECK_PERIOD, 0)]
  {
    ForInsert(w.hub.timers.live, Future(CHECK, w.hub.timers.next, w.hub.timers.now + FIRST_CHECK, CHECK_PERIOD, 0), CHECK);
  }

  lemma {:induction false} PromptRunsAreTied(order: seq<Handle>, env: seq<EnvOp>, events: seq<Activity>,
                                            checkLate: nat, acceptLate: nat) returns (first: int)
    requires IsPermutation(order, |CAPS|) && PromptRun(order, env, events, checkLate, acceptLate)
    requires checkLate < CHECK_PERIOD
    ensures var w := Run(order, env, events); Sane(w) && Tied(w, checkLate, first)
    ensures first == Around(Boot(), env).hub.timers.now + FIRST_CHECK
  {
    if events == [] {
      first := StartIsTied(env, checkLate);
      StartIsQuiet(env);
    } else {
      var before, e := events[..|events| - 1], events[|events| - 1];
      first := PromptRunsAreTied(order, env, before, checkLate, acceptLate);
      StepKeepsTied(order, Run(order, env, before), e, checkLate, acceptLate, first);
    }
  }

  /**
   While check and accept calls together come less than the quiet period late, a change by traffic
   comes at least the quiet period after the application before it, whatever the sort made of the two
   equal priorities.
   */
  lemma {:induction false} SpacedWhilePrompt(order: seq<Handle>, env: seq<EnvOp>, events: seq<Activity>,
                                            checkLate: nat, acceptLate: nat)
    requires IsPermutation(order, |CAPS|) && PromptRun(order, env, events, checkLate, acceptLate)
    requires checkLate + acceptLate < QUIET_PERIOD
    ensures Quiet(Run(order, env, events)) && Spaced(Run(order, env, events).applied)
  {
    if events == [] {
      StartIsQuiet(env);
    } else {
      var before, e := events[..|events| - 1], events[|events| - 1];
      var w := Run(order, env, before);
      SpacedWhilePrompt(order, env, before, checkLate, acceptLate);
      var first := PromptRunsAreTied(order, env, before, checkLate, acceptLate);
      RunsKeepWatch(order, env, before);
      PromptCheckWaits(order, w, e, checkLate, acceptLate, first);
      StepKeepsQuiet(order, w, e);
    }
  }

  /**
   A valve is on for at most two check periods, and the lateness of a check, after the last valid
   message; up to the second check after start-up, until then.
   */
  lemma ValveGoesOffInTime(order: seq<Handle>, env: seq<EnvOp>, events: seq<Activity>, checkLate: nat, acceptLate: nat)
    requires IsPermutation(order, |CAPS|) && PromptRun(order, env, events, checkLate, acceptLate)
    requires checkLate < CHECK_PERIOD && HasCheck(Run(order, env, events)) && Prompt(Run(order, env, events), checkLate, acceptLate)
    ensures var w, began := Run(order, env, events), Around(Boot(), env).hub.timers.now;
            OnCount(w.hub.valves) > 0 ==>
              || w.hub.timers.now <= w.heard + 2 * CHECK_PERIOD + checkLate
              || w.hub.timers.now <= began + FIRST_CHECK + CHECK_PERIOD + checkLate
  {
    hide Run, For;
    var first := PromptRunsAreTied(order, env, events, checkLate, acceptLate);
    RunsKeepWatch(order, env, events);
    AtMostOneOn(Run(order, env, events).hub.current);
  }
}
