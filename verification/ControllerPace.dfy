/** Continuations of the controller's runs, and which of them its loop can take in real time. */
module ControllerPace {
  import opened TimerModel
  import opened ReactorModel
  import opened Runtime
  import opened ControllerModel
  import opened ControllerRuns
  import opened Pins

  function RunFrom(order: seq<Handle>, w: World, events: seq<Activity>): (r: World)
    requires |w.ctl.rows| == |ROWS| && |w.queues| == |CAPS| && IsPermutation(order, |CAPS|)
    ensures |r.ctl.rows| == |ROWS| && |r.queues| == |CAPS|
  {
    if events == [] then w else Step(order, RunFrom(order, w, events[..|events| - 1]), events[|events| - 1])
  }

  /** A run is a continuation of its start. */
  lemma {:induction false} RunIsFromStart(order: seq<Handle>, env: seq<EnvOp>, events: seq<Activity>)
    requires IsPermutation(order, |CAPS|)
    ensures |Start(env).queues| == |CAPS| && |Start(env).ctl.rows| == |ROWS|
    ensures Run(order, env, events) == RunFrom(order, Start(env), events)
  {
    assert Run(order, env, []) == Start(env);
    if events != [] {
      RunIsFromStart(order, env, events[..|events| - 1]);
    }
  }

  /** The handler a round calls. */
  ghost predicate Calls(order: seq<Handle>, w: World, e: Activity, h: Handle)
    requires |w.queues| == |CAPS| && IsPermutation(order, |CAPS|)
  {
    e.Round? && Pick(order, w.queues) < |order| && order[Pick(order, w.queues)] == h
  }

  lemma MidIs(w: World, held: nat)
    requires Mid(w, held)
    ensures |w.queues| == |CAPS| && |w.ctl.rows| == |ROWS| && Base(SysOf(w), RULES)
  {
  }

  lemma {:induction false} RunFromKeepsInv(order: seq<Handle>, w: World, events: seq<Activity>)
    requires IsSchedule(order, PRIORITIES) && Inv(w)
    ensures |w.queues| == |CAPS| && |w.ctl.rows| == |ROWS| && Inv(RunFrom(order, w, events))
  {
    hide Mid, Guarded;
    MidIs(w, 0);
    if events != [] {
      RunFromKeepsInv(order, w, events[..|events| - 1]);
      StepKeeps(order, RunFrom(order, w, events[..|events| - 1]), events[|events| - 1]);
    }
  }

  // ---------------------------------------------------------------------------------------------
  // Steps the loop can take

  /** The hardware watchdog (WDTO_1S), reset before every handler call. */
  const WATCHDOG: nat := 1000

  /** The milliseconds since the last handler call began, with waited of them gone at the start. */
  function SinceCall(waited: nat, events: seq<Activity>): nat {
    if events == [] then waited
    else
      match events[|events| - 1]
      case Asleep(env) => SinceCall(waited, events[..|events| - 1]) + TickCount(env)
      case Round(_, _, mid, after) => TickCount(mid) + TickCount(after)
  }

  /**
   The loop sleeps only with nothing queued, and the next tick wakes it; a round calls a handler; and
   the watchdog does not expire in between.
   */
  ghost predicate CanTake(order: seq<Handle>, w: World, waited: nat, e: Activity)
    requires |w.queues| == |CAPS| && IsPermutation(order, |CAPS|)
  {
    match e
    case Asleep(env) => Pick(order, w.queues) == |order| && TickCount(env) <= 1 && waited + TickCount(env) < WATCHDOG
    case Round(isr, _, mid, after) =>
      && Pick(order, w.queues) < |order|
      && waited + TickCount(isr) < WATCHDOG && TickCount(mid) + TickCount(after) < WATCHDOG
  }

  ghost predicate PacedFrom(order: seq<Handle>, w: World, waited: nat, events: seq<Activity>)
    requires |w.ctl.rows| == |ROWS| && |w.queues| == |CAPS| && IsPermutation(order, |CAPS|)
  {
    events != [] ==>
      var before := events[..|events| - 1];
      && PacedFrom(order, w, waited, before)
      && CanTake(order, RunFrom(order, w, before), SinceCall(waited, before), events[|events| - 1])
  }

  /** A run from start-up that the loop can take. */
  ghost predicate Paced(order: seq<Handle>, env: seq<EnvOp>, events: seq<Activity>)
    requires IsPermutation(order, |CAPS|)
  {
    var w := Start(env);
    |w.ctl.rows| == |ROWS| && |w.queues| == |CAPS| && PacedFrom(order, w, 0, events)
  }

  /** A continuation taken apart. */
  lemma {:induction false} RunJoins(order: seq<Handle>, w: World, waited: nat, first: seq<Activity>, rest: seq<Activity>)
    requires IsPermutation(order, |CAPS|) && |w.queues| == |CAPS| && |w.ctl.rows| == |ROWS|
    ensures RunFrom(order, w, first + rest) == RunFrom(order, RunFrom(order, w, first), rest)
    ensures SinceCall(waited, first + rest) == SinceCall(SinceCall(waited, first), rest)
    ensures PacedFrom(order, w, waited, first + rest)
       <==> PacedFrom(order, w, waited, first) && PacedFrom(order, RunFrom(order, w, first), SinceCall(waited, first), rest)
  {
    hide Step, CanTake;
    if rest == [] {
      assert first + rest == first;
    } else {
      var n := |rest| - 1;
      assert (first + rest)[..|first| + n] == first + rest[..n];
      RunJoins(order, w, waited, first, rest[..n]);
    }
  }

  lemma RunSplits(order: seq<Handle>, w: World, waited: nat, e: Activity, rest: seq<Activity>)
    requires IsPermutation(order, |CAPS|) && |w.queues| == |CAPS| && |w.ctl.rows| == |ROWS|
    ensures RunFrom(order, w, [e] + rest) == RunFrom(order, Step(order, w, e), rest)
    ensures SinceCall(waited, [e] + rest) == SinceCall(SinceCall(waited, [e]), rest)
    ensures PacedFrom(order, w, waited, [e] + rest)
       <==> CanTake(order, w, waited, e) && PacedFrom(order, Step(order, w, e), SinceCall(waited, [e]), rest)
  {
    hide Step, CanTake;
    RunJoins(order, w, waited, [e], rest);
    assert [e][..0] == [];
  }

  // ---------------------------------------------------------------------------------------------
  // Calls with nothing going on around them

  lemma AroundNothing(w: World)
    ensures Around(w, []) == w
  {
  }

  lemma TimerCallIs(w: World, call: Notice)
    requires call.handle == TIMER && |w.ctl.rows| == |ROWS|
    ensures Call(w, call, false, []) == WithSys(w, DispatchTimers(SysOf(w), RULES))
  {
  }

  /** With nothing going on around it, no other handler notifies anyone or lets time pass. */
  lemma CallQuiet(w: World, call: Notice)
    requires call.handle != TIMER && |w.ctl.rows| == |ROWS|
    ensures var r := Call(w, call, false, []); r.queues == w.queues && r.ctl.timers.now == w.ctl.timers.now
  {
    hide ProcessDoor, InputChange, Around, GoodRead, CommsError, ArmSend;
    if call.handle == COMMAND {
      AroundNothing(w);
      AroundNothing(ProcessError(w));
      SendTakesNoTime(w);
    } else if call.handle == INPUT {
      InputTakesNoTime(w.ctl, PinOf(call.arg), ValueOf(call.arg));
    } else if call.handle == READ || call.handle == COMMS_ERROR {
      SendTakesNoTime(w);
    } else if call.handle == SENSOR {
      ProcessQuiet(w, SensorEvent(PinOf(call.arg), ValueOf(call.arg)).1);
    } else if call.handle == DOOR {
      ProcessQuiet(w, if ValueOf(call.arg) then Open else Close);
    } else if call.handle == MOVE_TIMEOUT {
      ProcessQuiet(w, Timeout);
    }
  }

  lemma SendTakesNoTime(w: World)
    ensures ArmSend(w.ctl).timers.now == w.ctl.timers.now && ProcessError(w).ctl.timers == w.ctl.timers
    ensures GoodRead(w.ctl).timers == w.ctl.timers && ProcessError(w).queues == w.queues
  {
    hide Insert;
  }

  lemma InputTakesNoTime(c: Ctl, pin: int, value: bool)
    requires |c.rows| == |ROWS|
    ensures InputChange(c, pin, value).timers.now == c.timers.now
  {
    hide Insert, Remove, FirstActive;
  }

  lemma EnterTakesNoTime(c: Ctl, ev: DoorEvent)
    requires |c.rows| == |ROWS|
    ensures Enter(c, ev).timers.now == c.timers.now
  {
    hide InputChange;
    var c1 := c.(door := Transition(c.door, ev).1);
    InputTakesNoTime(c1, DOOR_UP, true);
    InputTakesNoTime(c1, DOOR_DOWN, true);
    InputTakesNoTime(c1, DOOR_UP, false);
    InputTakesNoTime(c1, DOOR_DOWN, false);
  }

  lemma ProcessQuiet(w: World, ev: DoorEvent)
    requires |w.ctl.rows| == |ROWS|
    ensures var r := ProcessDoor(w, ev, []); r.queues == w.queues && r.ctl.timers.now == w.ctl.timers.now
  {
    hide Enter, Around, Insert, Remove;
    EnterTakesNoTime(w.ctl, ev);
    AroundNothing(w.(ctl := Enter(w.ctl, ev)));
  }

  lemma TimerPicked(order: seq<Handle>, queues: Queues)
    requires IsSchedule(order, PRIORITIES) && |queues| == |CAPS| && queues[TIMER] != []
    ensures Pick(order, queues) < |order| && order[Pick(order, queues)] == TIMER
  {
    forall g | 0 <= g < |queues| && g != TIMER
      ensures Ahead(order, TIMER, g)
    {
      HigherIsAhead(order, PRIORITIES, TIMER, g);
    }
    PickLeader(order, queues, TIMER);
  }

  /** Nothing but the timer handler's call has to wait for anything: a round on its own brings the loop nearer to its sleep. */
  lemma RoundDrains(order: seq<Handle>, w: World)
    requires IsSchedule(order, PRIORITIES) && Inv(w) && |w.queues| == |CAPS| && |w.ctl.rows| == |ROWS|
    requires Pick(order, w.queues) < |order|
    ensures var r := Step(order, w, Round([], false, [], []));
            && |r.queues| == |CAPS| && r.ctl.timers.now == w.ctl.timers.now
            && (|r.queues[TIMER]| < |w.queues[TIMER]|
                || (|r.queues[TIMER]| == |w.queues[TIMER]| && Total(r.queues) < Total(w.queues)))
  {
    hide Mid, Guarded, Pick, Total, Call, DispatchTimers;
    PickHas(order, w.queues);
    var h := order[Pick(order, w.queues)];
    MidIs(w, 0);
    AroundNothing(w);
    TotalPopped(w.queues, h);
    var v, call := w.(queues := Popped(w.queues, h)), Notice(h, w.queues[h][0]);
    AroundNothing(Call(v, call, false, []));
    if h == TIMER {
      PopKeeps(SysOf(w), RULES, h);
      assert SysOf(v) == SysOf(w).(queues := v.queues);
      TimerCallIs(v, call);
      DispatchLeavesTimer(v);
    } else {
      CallQuiet(v, call);
    }
  }

  lemma DispatchLeavesTimer(w: World)
    requires Base(SysOf(w), RULES)
    ensures |w.queues| == |CAPS|
    ensures var r := DispatchTimers(SysOf(w), RULES);
            |r.queues| == |CAPS| && r.queues[TIMER] == w.queues[TIMER] && r.timers.now == w.ctl.timers.now
  {
    hide Fire, ToldEach, Sound;
    NoTimersFor(SysOf(w), RULES, TIMER);
    DispatchNotDue(SysOf(w), RULES, TIMER);
  }

  /** Left alone, the loop runs until it can sleep, in no time. */
  lemma {:induction false} DrainIdle(order: seq<Handle>, w: World) returns (events: seq<Activity>)
    requires IsSchedule(order, PRIORITIES) && Inv(w)
    ensures |w.queues| == |CAPS| && |w.ctl.rows| == |ROWS|
    ensures forall waited: nat :: waited < WATCHDOG ==>
              PacedFrom(order, w, waited, events) && SinceCall(waited, events) <= waited
    ensures var r := RunFrom(order, w, events);
            Inv(r) && r.ctl.timers.now == w.ctl.timers.now && Pick(order, r.queues) == |order|
    decreases if |w.queues| == |CAPS| then |w.queues[TIMER]| else 0, Total(w.queues)
  {
    hide Mid, Guarded, Step, RunFrom, PacedFrom, SinceCall, Total, Pick, CanTake;
    MidIs(w, 0);
    if Pick(order, w.queues) == |order| {
      events := [];
      NoSteps(order, w);
    } else {
      PickBound(order, w.queues);
      var e := Round([], false, [], []);
      RoundDrains(order, w);
      StepKeeps(order, w, e);
      var r := Step(order, w, e);
      var rest := DrainIdle(order, r);
      events := [e] + rest;
      forall waited: nat | waited < WATCHDOG
        ensures PacedFrom(order, w, waited, events) && SinceCall(waited, events) <= waited
      {
        RunSplits(order, w, waited, e, rest);
        CanCall(order, w, waited);
      }
      RunSplits(order, w, 0, e, rest);
    }
  }

  lemma PickBound(order: seq<Handle>, queues: Queues)
    requires IsPermutation(order, |queues|)
    ensures Pick(order, queues) <= |order|
  {
  }

  lemma NoSteps(order: seq<Handle>, w: World)
    requires |w.ctl.rows| == |ROWS| && |w.queues| == |CAPS| && IsPermutation(order, |CAPS|)
    ensures RunFrom(order, w, []) == w
    ensures forall waited: nat :: PacedFrom(order, w, waited, []) && SinceCall(waited, []) == waited
  {
  }

  lemma CanCall(order: seq<Handle>, w: World, waited: nat)
    requires |w.queues| == |CAPS| && IsPermutation(order, |CAPS|) && waited < WATCHDOG && Pick(order, w.queues) < |order|
    ensures CanTake(order, w, waited, Round([], false, [], [])) && SinceCall(waited, [Round([], false, [], [])]) == 0
  {
  }

  /** The tick that wakes the loop, and the state the timer handler is called in. */
  lemma Wakes(order: seq<Handle>, w: World, waited: nat)
    requires IsSchedule(order, PRIORITIES) && Inv(w) && |w.queues| == |CAPS| && |w.ctl.rows| == |ROWS|
    requires Pick(order, w.queues) == |order| && waited + 1 < WATCHDOG
    ensures var r := Step(order, w, Asleep([Tick]));
            && CanTake(order, w, waited, Asleep([Tick])) && SinceCall(waited, [Asleep([Tick])]) == waited + 1
            && Inv(r) && |r.queues| == |CAPS| && |r.ctl.rows| == |ROWS| && r.queues == w.queues[TIMER := [0]]
            && r == w.(ctl := w.ctl.(timers := w.ctl.timers.(now := w.ctl.timers.now + 1)), queues := r.queues)
            && Pick(order, r.queues) < |order| && order[Pick(order, r.queues)] == TIMER
  {
    hide Mid, Guarded;
    assert TickCount([Tick]) == 1 + TickCount([Tick][1..]) == 1;
    assert [Asleep([Tick])][..0] == [];
    assert Ticks(1) == [Tick] by {
      assert Ticks(1) == [Tick] + Ticks(0);
    }
    NothingQueued(order, w.queues, TIMER);
    TicksWake(SysOf(w), RULES, 1);
    StepKeeps(order, w, Asleep([Tick]));
    TimerPicked(order, w.queues[TIMER := [0]]);
  }

  lemma NothingQueued(order: seq<Handle>, queues: Queues, h: Handle)
    requires IsPermutation(order, |queues|) && h < |queues| && Pick(order, queues) == |order|
    ensures queues[h] == []
  {
    assert h in order;
  }
}
