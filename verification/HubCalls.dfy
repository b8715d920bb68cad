/** What the bytes received make of the hub's outputs, valve by valve and byte by byte, in every run. */
module HubCalls {
  import opened TimerModel
  import opened ReactorModel
  import opened Runtime
  import opened HubModel
  import opened HubRuns
  import OpCodes

  /** The bytes the protocol knows: idle, the five valves' commands, and two reserved ones. */
  predicate InProtocol(byte: OpCodes.Byte) {
    byte in [0x4F, 0x71, 0x0A, 0x7A, 0x48, 0x86, 0xC9, 0xB0]
  }

  /** In every run each valve is on exactly while its own command, the byte that goes over the wire, is the current one. */
  lemma EachValveFollowsItsCommand(order: seq<Handle>, env: seq<EnvOp>, events: seq<Activity>)
    requires IsPermutation(order, |CAPS|)
    ensures var h := Run(order, env, events).hub;
            && (h.valves.push <==> h.current == 0x71)
            && (h.valves.pull <==> h.current == 0x0A)
            && (h.valves.toolSetter <==> h.current == 0x7A)
            && (h.valves.chuck <==> h.current == 0x86)
            && (h.valves.spindle <==> h.current == 0x48)
  {
    hide Run;
    RunsKeepWatch(order, env, events);
  }

  /** The accept timer of an application just made. */
  ghost predicate AcceptStarts(w: World) {
    exists f :: f in For(w.hub.timers.live, ACCEPT) && w.hub.accept == Armed(f.instance) && f.count == w.hub.timers.now + 1000
  }

  lemma ProcessStarts(w: World, h: Hub, cmd: OpCodes.Byte)
    requires Sane(w) && h.timers == w.hub.timers && h.accept == w.hub.accept
    ensures AcceptStarts(w.(hub := Process(h, cmd)))
  {
    hide Insert, Remove, Sound, Fits, For;
    var s, t := SysOf(w), CancelInstance(w.hub.timers, w.hub.accept);
    CancelVariable(s, RULES, w.hub.accept, ACCEPT);
    OwnArm(t, s.(timers := t), RULES, ACCEPT, t.now + QUIET_PERIOD, 0, 0);
    var f := Future(ACCEPT, t.next, t.now + QUIET_PERIOD, 0, 0);
    assert f in For(Process(h, cmd).timers.live, ACCEPT);
  }

  /**
   A byte the protocol knows counts as a message, and when it is not the current command and the hub is
   ready it is applied: its valve alone opens, and nothing more is accepted for a second. Any other
   byte, and any byte at another time, changes no output.
   */
  lemma TrafficIsApplied(w: World, arg: int)
    requires Sane(w)
    ensures var r, byte := Call(w, Notice(TRAFFIC, arg)), (arg % 256) as OpCodes.Byte;
            && r.since == w.since + (if InProtocol(byte) then 1 else 0)
            && r.hub.messages == (if InProtocol(byte) then (w.hub.messages + 1) % 65536 else w.hub.messages)
            && if InProtocol(byte) && byte != w.hub.current && w.hub.ready then
                 && r.hub.current == byte && !r.hub.ready && r.applied == w.applied + [Applied(w.hub.timers.now, true)]
                 && r.hub.valves == Valves(byte == OpCodes.BLAST_TOOLSETTER, byte == OpCodes.UNCLAMP_CHUCK,
                                           byte == OpCodes.BLAST_SPINDLE, byte == OpCodes.PUSH_DOOR, byte == OpCodes.PULL_DOOR)
                 && AcceptStarts(r)
               else
                 r.hub == w.hub.(messages := r.hub.messages) && r.applied == w.applied
  {
    hide Insert, Remove, Sound, Fits, For, AcceptStarts;
    var byte := ByteOf(arg);
    InProtocolIsValid(byte);
    if Changes(w.hub, byte) {
      var h := w.hub.(messages := (w.hub.messages + 1) % 0x1_0000, current := byte);
      ProcessStarts(w, h, byte);
      StartsAlike(w.(hub := Process(h, byte)), Call(w, Notice(TRAFFIC, arg)));
    }
  }

  lemma InProtocolIsValid(byte: OpCodes.Byte)
    ensures InProtocol(byte) <==> OpCodes.CheckValid(byte) != OpCodes.ERROR
  {
  }

  lemma StartsAlike(w: World, r: World)
    requires AcceptStarts(w) && r.hub.timers == w.hub.timers && r.hub.accept == w.hub.accept
    ensures AcceptStarts(r)
  {
  }

  /** The current command changes only when the traffic handler gets a known byte while ready, or to idle by a silent check. */
  lemma CommandChangesOnlySo(order: seq<Handle>, w: World, e: Activity)
    requires IsPermutation(order, |CAPS|) && Sane(w) && Watched(w)
    ensures |w.queues| == |CAPS|
    ensures var r := Step(order, w, e);
            r.hub.current != w.hub.current ==>
              && e.Round? && Pick(order, w.queues) < |order|
              && var h, w1 := order[Pick(order, w.queues)], Around(w, e.isr);
                 || (h == TRAFFIC && w.hub.ready && InProtocol(r.hub.current) && r.hub.current == ByteOf(w1.queues[TRAFFIC][0]))
                 || (h == CHECK && w.since % 65536 == 0 && r.hub.current == OpCodes.IDLE)
  {
    hide Around, For, Insert, Remove, Sound, Pick;
    if e.Round? && Pick(order, w.queues) < |order| {
      PickHas(order, w.queues);
      var h, w1 := order[Pick(order, w.queues)], Around(w, e.isr);
      if h == TRAFFIC {
        InProtocolIsValid(ByteOf(w1.queues[TRAFFIC][0]));
      }
    }
  }

  // ---------------------------------------------------------------------------------------------
  // The hub never stays deaf

  /** While no command is accepted, the end of that is armed at most a second ahead, or queued. */
  ghost predicate Hears(w: World) {
    && |w.queues| == |CAPS|
    && (!w.hub.ready ==>
          || w.queues[ACCEPT] != []
          || exists f :: f in For(w.hub.timers.live, ACCEPT) && f.count <= w.hub.timers.now + 1000)
    && OneShot(w.hub.timers.live, ACCEPT)
  }

  lemma AroundKeepsHearing(w: World, env: seq<EnvOp>)
    requires Sane(w) && Hears(w)
    ensures Hears(Around(w, env))
  {
    hide For, HappenAll, Base;
    AroundKeepsSane(w, env);
    assert ACCEPT in RULES.own;
    OneShotAlike(w.hub.timers.live, Around(w, env).hub.timers.live);
  }

  lemma OneShotAlike(live: seq<Future>, live': seq<Future>)
    requires OneShot(live, ACCEPT) && For(live', ACCEPT) == For(live, ACCEPT)
    ensures OneShot(live', ACCEPT)
  {
  }

  lemma DispatchKeepsHearing(w: World)
    requires Sane(w) && Hears(w)
    ensures Hears(WithSys(w, DispatchTimers(SysOf(w), RULES)))
  {
    hide For, Fire, ToldEach, Sound, PushedAll, Args;
    DispatchEffect(SysOf(w), RULES, ACCEPT);
    var t, b := w.hub.timers, Fire(w.hub.timers.live, w.hub.timers.next, w.hub.timers.now);
    var r := WithSys(w, DispatchTimers(SysOf(w), RULES));
    assert forall f :: f in For(t.live, ACCEPT) <==> f in For(b.notes, ACCEPT) || f in For(b.live, ACCEPT);
    if For(b.notes, ACCEPT) != [] || w.queues[ACCEPT] != [] {
      assert r.queues[ACCEPT] != [];
    }
  }

  lemma ProcessKeepsHearing(w: World, h: Hub, cmd: OpCodes.Byte, r: World)
    requires Sane(w) && Hears(w) && h.timers == w.hub.timers && h.accept == w.hub.accept
    requires r.hub.timers == Process(h, cmd).timers && r.queues == w.queues
    ensures Hears(r)
  {
    hide Insert, Remove, Sound, For;
    var s, t := SysOf(w), CancelInstance(w.hub.timers, w.hub.accept);
    CancelVariable(s, RULES, w.hub.accept, ACCEPT);
    OwnArm(t, s.(timers := t), RULES, ACCEPT, t.now + QUIET_PERIOD, 0, 0);
    var f := Future(ACCEPT, t.next, t.now + QUIET_PERIOD, 0, 0);
    assert f in For(r.hub.timers.live, ACCEPT);
  }

  lemma CallKeepsHearing(w: World, q: Queues, call: Notice)
    requires Sane(w) && Hears(w) && |q| == |CAPS| && Sane(w.(queues := q))
    requires q[ACCEPT] == w.queues[ACCEPT] || call.handle == ACCEPT
    ensures Hears(Call(w.(queues := q), call))
  {
    hide For, Base, Process, DispatchTimers;
    var v, byte := w.(queues := q), ByteOf(call.arg);
    if call.handle == TIMER {
      TimerCall(v, call);
      DispatchKeepsHearing(v);
    } else if call.handle == CHECK && v.hub.messages == 0 {
      ProcessKeepsHearing(v, v.hub, OpCodes.IDLE, Call(v, call));
    } else if call.handle == TRAFFIC && Changes(v.hub, byte) {
      var h := v.hub.(messages := (v.hub.messages + 1) % 0x1_0000, current := byte);
      ProcessKeepsHearing(v, h, byte, Call(v, call));
    }
  }

  lemma StepKeepsHearing(order: seq<Handle>, w: World, e: Activity)
    requires IsPermutation(order, |CAPS|) && Sane(w) && Hears(w)
    ensures Hears(Step(order, w, e))
  {
    hide Hears, Call, Around, Pick, For, Sound;
    match e
    case Asleep(env) => AroundKeepsHearing(w, env);
    case Round(isr, after) =>
      if Pick(order, w.queues) < |order| {
        PickHas(order, w.queues);
        var h, w1 := order[Pick(order, w.queues)], Around(w, isr);
        AroundKeepsSane(w, isr);
        AroundKeepsHearing(w, isr);
        PopKeeps(SysOf(w1), RULES, h);
        var q, call := Popped(w1.queues, h), Notice(h, w1.queues[h][0]);
        CallKeepsHearing(w1, q, call);
        CallStaysSane(w1.(queues := q), call);
        AroundKeepsHearing(Call(w1.(queues := q), call), after);
      }
  }

  lemma CallStaysSane(w: World, call: Notice)
    requires Sane(w)
    ensures Sane(Call(w, call))
  {
    hide Sane, DispatchTimers, Call;
    if call.handle == TIMER {
      TimerCall(w, call);
      DispatchKeepsSane(w);
    } else {
      CallKeepsCheckTimer(w, call);
    }
  }

  /**
   Whatever the sort made of the handlers' order, in every run a hub that is not ready has the end of
   that armed, at most 1000 ms ahead, or queued.
   */
  lemma {:induction false} NeverStaysDeaf(order: seq<Handle>, env: seq<EnvOp>, events: seq<Activity>)
    requires IsPermutation(order, |CAPS|)
    ensures Sane(Run(order, env, events)) && Hears(Run(order, env, events))
  {
    hide Sane, Hears, Step;
    if events == [] {
      StartHears(env);
    } else {
      var w, e := Run(order, env, events[..|events| - 1]), events[|events| - 1];
      NeverStaysDeaf(order, env, events[..|events| - 1]);
      var first := CheckAlwaysArmed(order, env, events);
      StepKeepsHearing(order, w, e);
    }
  }

  lemma StartHears(env: seq<EnvOp>)
    ensures Sane(Start(env)) && Hears(Start(env))
  {
    hide HappenAll, Insert, For, Base;
    StartTicks(env);
    BootHears();
    AroundKeepsHearing(Boot(), env);
    AroundKeepsSane(Boot(), env);
    var w := Around(Boot(), env);
    ArmsCheck(w.hub.timers.live, Future(CHECK, w.hub.timers.next, w.hub.timers.now + FIRST_CHECK, CHECK_PERIOD, 0));
  }

  lemma BootHears()
    ensures Sane(Boot()) && Hears(Boot())
  {
  }

  lemma ArmsCheck(live: seq<Future>, f: Future)
    requires f.reactor == CHECK
    ensures For(Insert(live, f), ACCEPT) == For(live, ACCEPT)
  {
    ForInsert(live, f, ACCEPT);
  }
}
