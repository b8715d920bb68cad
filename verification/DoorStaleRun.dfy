/**
 Runs of the controller, made of steps its loop can take in real time, in which a timeout that the
 state machine has reset takes effect all the same. The sensors and the command input are sampled every
 5 ms, and report their changes from the sampling handler's call.
 */
module DoorStaleRun {
  import opened TimerModel
  import opened ReactorModel
  import opened Runtime
  import opened ControllerModel
  import opened ControllerRuns
  import opened ControllerPace
  import opened DoorTimeouts
  import opened DoorResets
  import opened Pins

  const COMMAND_PIN: nat := 5

  const IS_DOWN: int := PinArg(DOOR_DOWN, true)
  const MOVING_UP: int := PinArg(DOOR_DOWN, false)
  const IS_UP: int := PinArg(DOOR_UP, true)
  const OPEN: int := PinArg(COMMAND_PIN, true)
  const CLOSE: int := PinArg(COMMAND_PIN, false)

  const SAMPLE_PERIOD: nat := 5

  /** digital_input_init arms the sampling; no other driver has a timer here. */
  const START: seq<EnvOp> := [ForeignArm(SAMPLE, 0, SAMPLE_PERIOD, 0)]

  // ---------------------------------------------------------------------------------------------
  // The states of such a run

  function NextSample(now: nat): nat {
    if now == 0 then 0 else now / SAMPLE_PERIOD * SAMPLE_PERIOD + SAMPLE_PERIOD
  }

  predicate Driven(g: Handle) {
    g < |CAPS| && g != COMMAND && g != MOVE_TIMEOUT && g != GRACE_OVER && g != SAMPLE
  }

  ghost predicate Sampled(live: seq<Future>, at: nat) {
    var mine := For(live, SAMPLE);
    |mine| == 1 && mine[0].repeat == SAMPLE_PERIOD && mine[0].count == at
  }

  /** Nothing is live but the application's timers and the sampling. */
  ghost predicate Timed(w: World, sample: nat) {
    && Inv(w) && |w.queues| == |CAPS| && |w.ctl.rows| == |ROWS|
    && Sampled(w.ctl.timers.live, sample)
    && forall g: Handle :: Driven(g) ==> For(w.ctl.timers.live, g) == []
  }

  ghost predicate OnlyQueued(w: World, hs: set<Handle>) {
    |w.queues| == |CAPS| && forall h: Handle :: h < |CAPS| && h !in hs ==> w.queues[h] == []
  }

  ghost predicate Idle(w: World) {
    Timed(w, NextSample(w.ctl.timers.now)) && OnlyQueued(w, {})
  }

  ghost predicate At(order: seq<Handle>, events: seq<Activity>, waited: nat, w: World)
    requires IsPermutation(order, |CAPS|)
  {
    w == Run(order, START, events) && Paced(order, START, events) && waited == SinceCall(0, events)
  }

  /** The door's own state and timers are as before. */
  ghost predicate SameDoor(w: World, r: World) {
    && r.ctl.door == w.ctl.door && r.ctl.movement == w.ctl.movement
    && For(r.ctl.timers.live, MOVE_TIMEOUT) == For(w.ctl.timers.live, MOVE_TIMEOUT)
  }

  /** No movement timer falls due before the time. */
  ghost predicate NoneBy(w: World, time: nat) {
    forall f :: f in For(w.ctl.timers.live, MOVE_TIMEOUT) ==> time < f.count
  }

  // ---------------------------------------------------------------------------------------------
  // Single steps

  lemma Extends(order: seq<Handle>, events: seq<Activity>, waited: nat, w: World, e: Activity) returns (more: seq<Activity>)
    requires IsPermutation(order, |CAPS|) && At(order, events, waited, w)
    requires |w.queues| == |CAPS| && |w.ctl.rows| == |ROWS| && CanTake(order, w, waited, e)
    ensures more == events + [e] && At(order, more, SinceCall(waited, [e]), Step(order, w, e))
  {
    hide Step, CanTake;
    more := events + [e];
    assert more[..|events|] == events && [e][..0] == [];
    RunIsFromStart(order, START, events);
  }

  lemma NoPick(order: seq<Handle>, queues: Queues)
    requires IsPermutation(order, |CAPS|) && |queues| == |CAPS| && forall h :: 0 <= h < |CAPS| ==> queues[h] == []
    ensures Pick(order, queues) == |order|
  {
    hide IsPermutation;
    PickBound(order, queues);
    if Pick(order, queues) < |order| {
      PickHas(order, queues);
    }
  }

  lemma Takes(order: seq<Handle>, events: seq<Activity>, waited: nat, w: World, h: Handle, after: seq<EnvOp>)
    returns (more: seq<Activity>, r: World)
    requires IsSchedule(order, PRIORITIES) && At(order, events, waited, w) && waited < WATCHDOG && TickCount(after) == 0
    requires Inv(w) && |w.queues| == |CAPS| && |w.ctl.rows| == |ROWS| && h < |CAPS| && w.queues[h] != []
    requires forall g :: 0 <= g < |CAPS| && w.queues[g] != [] && g != h ==> Ahead(order, h, g)
    ensures more == events + [Round([], false, [], after)]
    ensures At(order, more, 0, r) && Inv(r) && Calls(order, w, Round([], false, [], after), h)
    ensures r == Around(Call(w.(queues := Popped(w.queues, h)), Notice(h, w.queues[h][0]), false, []), after)
  {
    hide Mid, Guarded, Call, Around, At;
    var e := Round([], false, [], after);
    PickLeader(order, w.queues, h);
    more := Extends(order, events, waited, w, e);
    r := Step(order, w, e);
    StepKeeps(order, w, e);
    AroundNothing(w);
  }

  /** The picked handler has a higher priority than the others that are queued. */
  lemma TakesHigher(order: seq<Handle>, events: seq<Activity>, waited: nat, w: World, h: Handle, hs: set<Handle>, after: seq<EnvOp>)
    returns (more: seq<Activity>, r: World)
    requires IsSchedule(order, PRIORITIES) && At(order, events, waited, w) && waited < WATCHDOG && TickCount(after) == 0
    requires Inv(w) && |w.queues| == |CAPS| && |w.ctl.rows| == |ROWS| && h < |CAPS| && w.queues[h] != []
    requires OnlyQueued(w, hs) && forall g :: g in hs && g != h ==> g < |CAPS| && PRIORITIES[g] < PRIORITIES[h]
    ensures more == events + [Round([], false, [], after)]
    ensures At(order, more, 0, r) && Inv(r) && Calls(order, w, Round([], false, [], after), h)
    ensures r == Around(Call(w.(queues := Popped(w.queues, h)), Notice(h, w.queues[h][0]), false, []), after)
  {
    hide Mid, Guarded, Call, Around, At, Calls;
    forall g | 0 <= g < |CAPS| && w.queues[g] != [] && g != h
      ensures Ahead(order, h, g)
    {
      HigherIsAhead(order, PRIORITIES, h, g);
    }
    more, r := Takes(order, events, waited, w, h, after);
  }

  /** Only one item is queued, so that nothing is left once it is taken. */
  lemma Emptied(w: World, h: Handle)
    requires Inv(w) && |w.queues| == |CAPS| && h < |CAPS| && (CAPS[h] == 1 || h == COMMAND) && w.queues[h] != []
    ensures Popped(w.queues, h) == w.queues[h := []]
  {
    hide Limited, Arbitrated, Counted, Graced, Guarded, Sound;
    assert Fits(SysOf(w).queues, RULES.caps);
    assert |w.queues[h]| <= CAPS[h];
    assert |w.queues[h]| == 1;
    assert w.queues[h][1..] == [];
  }

  // ---------------------------------------------------------------------------------------------
  // What the handlers leave alone

  /** Only timers of the transmit handler differ. */
  ghost predicate SendsAlone(w: World, r: World) {
    && r.queues == w.queues && r.ctl.timers.now == w.ctl.timers.now && r.ctl.movement == w.ctl.movement
    && forall g: Handle :: g != COMMAND ==> For(r.ctl.timers.live, g) == For(w.ctl.timers.live, g)
  }

  lemma SendLeaves(w: World)
    requires Mid(w, 1)
    ensures |w.ctl.rows| == |ROWS|
    ensures var r := Call(w, Notice(COMMAND, 0), false, []); SendsAlone(w, r) && r.ctl.door == w.ctl.door
  {
    hide Chain, Arbitrated, Counted, Graced, Sound, For, Insert, Limited;
    MidIs(w, 1);
    AroundNothing(w);
    var t := w.ctl.timers;
    OwnArm(t, SysOf(w), RULES, COMMAND, t.now + SEND_PERIOD, 0, 0);
  }

  lemma InputLeaves(w: World, pin: int, value: bool)
    requires Base(SysOf(w), RULES) && Belongs(w.ctl.timers, w.ctl.transmit, COMMAND) && |w.ctl.rows| == |ROWS|
    ensures SendsAlone(w, w.(ctl := InputChange(w.ctl, pin, value)))
  {
    hide For, Insert, Remove, Trigger, Sound, Belongs, FirstActive;
    if 0 <= pin < |ROWS| {
      var c := w.ctl.(rows := w.ctl.rows[pin := value]);
      var cmd := FirstActive(c.rows, ROWS);
      if c.current != cmd {
        TriggerLeaves(w.(ctl := c.(current := cmd)));
      }
    }
  }

  lemma TriggerLeaves(w: World)
    requires Base(SysOf(w), RULES) && Belongs(w.ctl.timers, w.ctl.transmit, COMMAND)
    ensures SendsAlone(w, w.(ctl := Trigger(w.ctl)))
  {
    hide Sound, For, Insert, Remove, Belongs;
    TriggerIs(w);
    var t := CancelInstance(w.ctl.timers, w.ctl.transmit);
    CancelVariable(SysOf(w), RULES, w.ctl.transmit, COMMAND);
    OwnArm(t, SysOf(w).(timers := t), RULES, COMMAND, t.now + 1, 0, 0);
  }

  lemma EnterLeaves(w: World, ev: DoorEvent)
    requires Mid(w, 0)
    ensures |w.ctl.rows| == |ROWS|
    ensures SendsAlone(w, w.(ctl := Enter(w.ctl, ev)))
  {
    hide Chain, Arbitrated, Counted, Graced, Limited, InputChange, For, Base, Belongs;
    BelongsTransmit(w);
    MidIs(w, 0);
    var v := w.(ctl := w.ctl.(door := Transition(w.ctl.door, ev).1));
    assert SysOf(v) == SysOf(w);
    InputLeaves(v, DOOR_UP, true);
    InputLeaves(v, DOOR_DOWN, true);
    InputLeaves(v, DOOR_UP, false);
    InputLeaves(v, DOOR_DOWN, false);
  }

  /** What a door event does to the timers, if there is no movement timer to be cancelled. */
  lemma EventLeaves(w: World, ev: DoorEvent)
    requires Mid(w, 0) && w.queues[COMMAND] == []
    requires Moves(w.ctl.door) && ev != Timeout ==> For(w.ctl.timers.live, MOVE_TIMEOUT) == []
    ensures |w.ctl.rows| == |ROWS|
    ensures var r, (known, d) := Processed(w, ev), Transition(w.ctl.door, ev);
            && r.queues == w.queues && r.ctl.timers.now == w.ctl.timers.now && r.ctl.door == d
            && (forall g: Handle :: g != COMMAND && g != MOVE_TIMEOUT ==> For(r.ctl.timers.live, g) == For(w.ctl.timers.live, g))
            && (if known && Moves(d) then
                  Adds(w, r, w.ctl.timers.now + if Moves(w.ctl.door) then COMPLETE_TIMEOUT else MOVING_TIMEOUT)
                else
                  SameDoor(w, r.(ctl := r.ctl.(door := w.ctl.door))))
  {
    hide Mid, Enter, For, CancelMovement, ArmMovement;
    MidIs(w, 0);
    var v, d := w.(ctl := Enter(w.ctl, ev)), Transition(w.ctl.door, ev).1;
    ProcessedIs(w, ev);
    EnterKeeps(w, ev);
    EnterLeaves(w, ev);
    if Transition(w.ctl.door, ev).0 {
      if Moves(w.ctl.door) && ev != Timeout {
        CancelsNone(v);
      }
      if Moves(d) && Moves(w.ctl.door) {
        ArmsOne(v.(ctl := CancelMovement(v.ctl)), COMPLETE_TIMEOUT);
      } else if Moves(d) {
        ArmsOne(v, MOVING_TIMEOUT);
      }
    }
  }

  /** One movement timer more, named by the variable. */
  ghost predicate Adds(w: World, r: World, count: nat) {
    exists f :: NewTimer(w, r, f) && f.count == count
  }

  ghost predicate NewTimer(w: World, r: World, f: Future) {
    && r.ctl.movement == Armed(f.instance) && f.repeat == 0
    && (forall g :: g in For(w.ctl.timers.live, MOVE_TIMEOUT) ==> g.instance != f.instance)
    && (forall g :: g in For(r.ctl.timers.live, MOVE_TIMEOUT) <==> g in For(w.ctl.timers.live, MOVE_TIMEOUT) || g == f)
    && (For(w.ctl.timers.live, MOVE_TIMEOUT) == [] ==> For(r.ctl.timers.live, MOVE_TIMEOUT) == [f])
  }

  lemma ArmsOne(w: World, delay: nat)
    requires Mid(w, 0)
    ensures var r := w.(ctl := ArmMovement(w.ctl, delay));
            && Adds(w, r, w.ctl.timers.now + delay) && r.ctl.timers.now == w.ctl.timers.now && r.ctl.door == w.ctl.door
            && forall g: Handle :: g != MOVE_TIMEOUT ==> For(r.ctl.timers.live, g) == For(w.ctl.timers.live, g)
  {
    hide Chain, Arbitrated, Counted, Graced, Limited, Insert, For, Belongs, Sound;
    MidIs(w, 0);
    InstancesGiven(w);
    var t := w.ctl.timers;
    OwnArm(t, SysOf(w), RULES, MOVE_TIMEOUT, t.now + delay, 0, 0);
    assert NewTimer(w, w.(ctl := ArmMovement(w.ctl, delay)), Future(MOVE_TIMEOUT, t.next, t.now + delay, 0, 0));
  }

  lemma CancelsNone(w: World)
    requires Mid(w, 0) && For(w.ctl.timers.live, MOVE_TIMEOUT) == []
    ensures var r := w.(ctl := CancelMovement(w.ctl));
            && Mid(r, 0) && r.ctl.timers.now == w.ctl.timers.now && r.ctl == w.ctl.(timers := r.ctl.timers)
            && forall g: Handle :: For(r.ctl.timers.live, g) == For(w.ctl.timers.live, g)
  {
    hide Chain, Arbitrated, Counted, Graced, Remove, For, Belongs, Sound;
    MidIs(w, 0);
    CancelMovementKeeps(w);
    MidLimited(w);
    CancelVariable(SysOf(w), RULES, w.ctl.movement, MOVE_TIMEOUT);
  }

  // ---------------------------------------------------------------------------------------------
  // The timer handler's call

  function Dispatched(w: World): World {
    WithSys(w, DispatchTimers(SysOf(w), RULES))
  }

  /** The drivers have nothing due, and the grace period is not over. */
  lemma DispatchRests(w: World)
    requires Base(SysOf(w), RULES) && Graced(w) && |w.queues| == |CAPS| && w.ctl.timers.now < GRACE_PERIOD
    requires forall g: Handle :: Driven(g) ==> For(w.ctl.timers.live, g) == []
    ensures var r := Dispatched(w);
            && r.ctl == w.ctl.(timers := r.ctl.timers) && r.ctl.timers.now == w.ctl.timers.now && |r.queues| == |CAPS|
            && r.queues[GRACE_OVER] == w.queues[GRACE_OVER]
            && forall g: Handle :: Driven(g) ==> r.queues[g] == w.queues[g] && For(r.ctl.timers.live, g) == []
  {
    hide Fire, ToldEach, Sound, For;
    forall g: Handle | Driven(g)
      ensures |Dispatched(w).queues| == |CAPS| && Dispatched(w).queues[g] == w.queues[g]
      ensures For(Dispatched(w).ctl.timers.live, g) == []
    {
      DispatchNotDue(SysOf(w), RULES, g);
    }
    DispatchNotDue(SysOf(w), RULES, GRACE_OVER);
  }

  /** Sampling goes on. */
  lemma DispatchSamples(w: World, sample: nat)
    requires Base(SysOf(w), RULES) && |w.queues| == |CAPS| && w.queues[SAMPLE] == []
    requires Sampled(w.ctl.timers.live, sample) && w.ctl.timers.now < sample + SAMPLE_PERIOD
    ensures var r := Dispatched(w);
            && |r.queues| == |CAPS|
            && (if sample <= w.ctl.timers.now then Sampled(r.ctl.timers.live, sample + SAMPLE_PERIOD) && r.queues[SAMPLE] != []
                else Sampled(r.ctl.timers.live, sample) && r.queues[SAMPLE] == [])
  {
    hide Fire, ToldEach, Sound, For;
    var f := For(w.ctl.timers.live, SAMPLE)[0];
    assert For(w.ctl.timers.live, SAMPLE) == [f];
    if sample <= w.ctl.timers.now {
      var f' := DispatchRepeating(SysOf(w), RULES, SAMPLE, f);
    } else {
      DispatchNotDue(SysOf(w), RULES, SAMPLE);
    }
  }

  /** The movement timer is notified when it is due. */
  lemma DispatchTimesOut(w: World)
    requires Base(SysOf(w), RULES) && OneShot(w.ctl.timers.live, MOVE_TIMEOUT)
    requires |w.queues| == |CAPS| && w.queues[MOVE_TIMEOUT] == []
    ensures var r, mine, now := Dispatched(w), For(w.ctl.timers.live, MOVE_TIMEOUT), w.ctl.timers.now;
            && |r.queues| == |CAPS|
            && (NoneBy(w, now) ==> For(r.ctl.timers.live, MOVE_TIMEOUT) == mine && r.queues[MOVE_TIMEOUT] == [])
            && (|mine| == 1 && !NoneBy(w, now) ==> For(r.ctl.timers.live, MOVE_TIMEOUT) == [] && r.queues[MOVE_TIMEOUT] != [])
  {
    hide Fire, ToldEach, Sound, For;
    if NoneBy(w, w.ctl.timers.now) {
      DispatchNotDue(SysOf(w), RULES, MOVE_TIMEOUT);
    } else if |For(w.ctl.timers.live, MOVE_TIMEOUT)| == 1 {
      DispatchEffect(SysOf(w), RULES, MOVE_TIMEOUT);
      ForFireSingle(w.ctl.timers.live, w.ctl.timers.next, w.ctl.timers.now, MOVE_TIMEOUT);
    }
  }

  // ---------------------------------------------------------------------------------------------
  // A millisecond

  /** The timer handler's call finds what is due. */
  lemma TimerCall(w: World, sample: nat)
    requires Timed(w, sample) && OnlyQueued(w, {TIMER}) && w.queues[TIMER] != []
    requires w.ctl.timers.now < GRACE_PERIOD && w.ctl.timers.now < sample + SAMPLE_PERIOD
    ensures var v := w.(queues := Popped(w.queues, TIMER));
            var r := Around(Call(v, Notice(TIMER, w.queues[TIMER][0]), false, []), []);
            var mine, now := For(w.ctl.timers.live, MOVE_TIMEOUT), w.ctl.timers.now;
            && r.ctl == w.ctl.(timers := r.ctl.timers) && r.ctl.timers.now == now && OnlyQueued(r, {COMMAND, SAMPLE, MOVE_TIMEOUT})
            && (forall g: Handle :: Driven(g) ==> For(r.ctl.timers.live, g) == [])
            && Sampled(r.ctl.timers.live, if sample <= now then sample + SAMPLE_PERIOD else sample)
            && (r.queues[SAMPLE] != [] <==> sample <= now)
            && (NoneBy(w, now) ==> For(r.ctl.timers.live, MOVE_TIMEOUT) == mine && r.queues[MOVE_TIMEOUT] == [])
            && (|mine| == 1 && !NoneBy(w, now) ==> For(r.ctl.timers.live, MOVE_TIMEOUT) == [] && r.queues[MOVE_TIMEOUT] != [])
  {
    hide Mid, Guarded, Call, Around, For, DispatchTimers, Dispatched;
    Emptied(w, TIMER);
    MidIs(w, 0);
    PopKeeps(SysOf(w), RULES, TIMER);
    var v := w.(queues := Popped(w.queues, TIMER));
    assert SysOf(v) == SysOf(w).(queues := v.queues);
    MidTimes(w, v);
    TimerCallIs(v, Notice(TIMER, w.queues[TIMER][0]));
    AroundNothing(Dispatched(v));
    DispatchRests(v);
    DispatchSamples(v, sample);
    DispatchTimesOut(v);
    DispatchedIs(v);
  }

  lemma DispatchedIs(w: World)
    ensures Dispatched(w) == WithSys(w, DispatchTimers(SysOf(w), RULES))
  {
  }

  lemma MidTimes(w: World, v: World)
    requires Mid(w, 0) && v.ctl == w.ctl && |w.queues| == |v.queues| == |CAPS|
    requires w.queues[GRACE_OVER] == [] == v.queues[GRACE_OVER]
    ensures Graced(v) && OneShot(v.ctl.timers.live, MOVE_TIMEOUT)
  {
  }

  /** The tick wakes the loop; the timer handler and a transmission that is due are called. */
  lemma Millisecond(order: seq<Handle>, events: seq<Activity>, w: World) returns (more: seq<Activity>, r: World)
    requires IsSchedule(order, PRIORITIES) && At(order, events, 0, w) && Idle(w) && w.ctl.timers.now + 1 < GRACE_PERIOD
    ensures At(order, more, 0, r) && Timed(r, NextSample(r.ctl.timers.now)) && OnlyQueued(r, {SAMPLE, MOVE_TIMEOUT})
    ensures r.ctl.timers.now == w.ctl.timers.now + 1 && r.ctl.door == w.ctl.door && r.ctl.movement == w.ctl.movement
    ensures r.queues[SAMPLE] != [] <==> NextSample(w.ctl.timers.now) <= r.ctl.timers.now
    ensures var mine, left := For(w.ctl.timers.live, MOVE_TIMEOUT), For(r.ctl.timers.live, MOVE_TIMEOUT);
            && (NoneBy(w, w.ctl.timers.now + 1) ==> left == mine && r.queues[MOVE_TIMEOUT] == [])
            && (|mine| == 1 && !NoneBy(w, w.ctl.timers.now + 1) ==> left == [] && r.queues[MOVE_TIMEOUT] != [])
  {
    hide Mid, Guarded, Call, Around, For, Step, CanTake, At, Calls;
    NoPick(order, w.queues);
    Wakes(order, w, 0);
    var w1, sample := Step(order, w, Asleep([Tick])), NextSample(w.ctl.timers.now);
    more := Extends(order, events, 0, w, Asleep([Tick]));
    more, r := TakesHigher(order, more, 1, w1, TIMER, {TIMER}, []);
    TimerCall(w1, sample);
    if r.queues[COMMAND] != [] {
      var v := r;
      more, r := TakesHigher(order, more, 0, v, COMMAND, {COMMAND, SAMPLE, MOVE_TIMEOUT}, []);
      SendCall(v);
    }
  }

  lemma SendCall(w: World)
    requires Inv(w) && |w.queues| == |CAPS| && |w.ctl.rows| == |ROWS| && w.queues[COMMAND] != []
    ensures var v := w.(queues := Popped(w.queues, COMMAND));
            var r := Around(Call(v, Notice(COMMAND, w.queues[COMMAND][0]), false, []), []);
            SendsAlone(v, r) && r.ctl.door == v.ctl.door && v.queues == w.queues[COMMAND := []]
  {
    hide Mid, Guarded, For, Around;
    Emptied(w, COMMAND);
    PopKeepsMid(w, COMMAND);
    var v := w.(queues := Popped(w.queues, COMMAND));
    SendLeaves(v);
    AroundNothing(Call(v, Notice(COMMAND, w.queues[COMMAND][0]), false, []));
  }

  /** The sampling handler's call, with the changes it reports. */
  lemma Sampling(order: seq<Handle>, events: seq<Activity>, w: World, sample: nat, after: seq<EnvOp>)
    returns (more: seq<Activity>, r: World)
    requires IsSchedule(order, PRIORITIES) && At(order, events, 0, w) && Timed(w, sample) && TickCount(after) == 0
    requires OnlyQueued(w, {SAMPLE, MOVE_TIMEOUT}) && w.queues[SAMPLE] != []
    ensures At(order, more, 0, r) && Inv(r) && r == Around(w.(queues := w.queues[SAMPLE := []]), after)
  {
    hide Mid, Guarded, Around, For, At, Calls;
    more, r := TakesHigher(order, events, 0, w, SAMPLE, {SAMPLE, MOVE_TIMEOUT}, after);
    Emptied(w, SAMPLE);
  }

  /** Nothing happens in a millisecond. */
  lemma QuietMillisecond(order: seq<Handle>, events: seq<Activity>, w: World) returns (more: seq<Activity>, r: World)
    requires IsSchedule(order, PRIORITIES) && At(order, events, 0, w) && Idle(w)
    requires w.ctl.timers.now + 1 < GRACE_PERIOD && NoneBy(w, w.ctl.timers.now + 1)
    ensures At(order, more, 0, r) && Idle(r) && SameDoor(w, r) && r.ctl.timers.now == w.ctl.timers.now + 1
  {
    hide Mid, Guarded, Around, For, At;
    more, r := Millisecond(order, events, w);
    if r.queues[SAMPLE] != [] {
      var v := r;
      more, r := Sampling(order, more, v, NextSample(v.ctl.timers.now), []);
      AroundNothing(v.(queues := v.queues[SAMPLE := []]));
    }
  }

  lemma {:induction false} QuietSpan(order: seq<Handle>, events: seq<Activity>, w: World, until: nat)
    returns (more: seq<Activity>, r: World)
    requires IsSchedule(order, PRIORITIES) && At(order, events, 0, w) && Idle(w)
    requires w.ctl.timers.now <= until < GRACE_PERIOD && NoneBy(w, until)
    ensures At(order, more, 0, r) && Idle(r) && SameDoor(w, r) && r.ctl.timers.now == until
    decreases until - w.ctl.timers.now
  {
    hide Idle, For, At;
    more, r := events, w;
    if w.ctl.timers.now < until {
      more, r := QuietMillisecond(order, events, w);
      more, r := QuietSpan(order, more, r, until);
    }
  }

  /** At the end of a quiet span the sampling handler reports changes; a movement timer may be due then. */
  lemma Reports(order: seq<Handle>, events: seq<Activity>, w: World, at: nat, after: seq<EnvOp>)
    returns (more: seq<Activity>, v: World, r: World)
    requires IsSchedule(order, PRIORITIES) && At(order, events, 0, w) && Idle(w) && TickCount(after) == 0
    requires w.ctl.timers.now < at < GRACE_PERIOD && at % SAMPLE_PERIOD == 0 && NoneBy(w, at - 1)
    ensures At(order, more, 0, r) && Inv(r) && r == Around(v, after)
    ensures Timed(v, NextSample(at)) && OnlyQueued(v, {MOVE_TIMEOUT}) && v.ctl.timers.now == at
    ensures v.ctl.door == w.ctl.door && v.ctl.movement == w.ctl.movement
    ensures NoneBy(w, at) ==> SameDoor(w, v) && v.queues[MOVE_TIMEOUT] == []
    ensures |For(w.ctl.timers.live, MOVE_TIMEOUT)| == 1 && !NoneBy(w, at) ==>
              For(v.ctl.timers.live, MOVE_TIMEOUT) == [] && v.queues[MOVE_TIMEOUT] != []
  {
    hide Mid, Guarded, Around, For, At;
    var u;
    more, u := QuietSpan(order, events, w, at - 1);
    more, u := Millisecond(order, more, u);
    v := u.(queues := u.queues[SAMPLE := []]);
    Emptied(u, SAMPLE);
    more, r := Sampling(order, more, u, NextSample(at), after);
    PopKeepsMid(u, SAMPLE);
  }

  // ---------------------------------------------------------------------------------------------
  // Door events

  lemma Raising(w: World, h: Handle, x: int)
    requires Inv(w) && |w.queues| == |CAPS| && (h == SENSOR || h == DOOR)
    ensures TickCount([Raise(Notice(h, x))]) == 0
    ensures Around(w, [Raise(Notice(h, x))]) == w.(queues := w.queues[h := [x]])
  {
    hide Limited, Chain, Arbitrated, Counted, Graced, Guarded, Sound;
    assert |w.queues[h]| <= CAPS[h] == 1;
    RaisedSingle(SysOf(w), RULES, h, x);
    assert [Raise(Notice(h, x))][1..] == [];
  }

  /** The event that a call of a sensor's, the command input's or the timeout's handler processes. */
  function EventOf(h: Handle, arg: int): DoorEvent {
    if h == SENSOR then SensorEvent(PinOf(arg), ValueOf(arg)).1
    else if h == DOOR then if ValueOf(arg) then Open else Close
    else Timeout
  }

  predicate ForDoor(h: Handle, arg: int) {
    h == DOOR || h == MOVE_TIMEOUT || (h == SENSOR && SensorEvent(PinOf(arg), ValueOf(arg)).0)
  }

  /** The call of one of the door's handlers, when no movement timer has to be cancelled. */
  lemma Event(order: seq<Handle>, events: seq<Activity>, w: World, sample: nat, h: Handle, hs: set<Handle>)
    returns (more: seq<Activity>, r: World)
    requires IsSchedule(order, PRIORITIES) && At(order, events, 0, w) && Timed(w, sample)
    requires h in {SENSOR, DOOR, MOVE_TIMEOUT} && w.queues[h] != [] && ForDoor(h, w.queues[h][0])
    requires OnlyQueued(w, hs + {h}) && forall g :: g in hs && g != h ==> g < |CAPS| && Ahead(order, h, g)
    requires COMMAND !in hs
    requires Moves(w.ctl.door) && h != MOVE_TIMEOUT ==> For(w.ctl.timers.live, MOVE_TIMEOUT) == []
    ensures At(order, more, 0, r) && Timed(r, sample) && r.queues == w.queues[h := []]
    ensures var (known, d) := Transition(w.ctl.door, EventOf(h, w.queues[h][0]));
            && r.ctl.door == d && r.ctl.timers.now == w.ctl.timers.now
            && (if known && Moves(d) then
                  Adds(w, r, w.ctl.timers.now + if Moves(w.ctl.door) then COMPLETE_TIMEOUT else MOVING_TIMEOUT)
                else
                  SameDoor(w, r.(ctl := r.ctl.(door := w.ctl.door))))
    ensures events < more && |more| == |events| + 1
  {
    hide Mid, Guarded, Call, Around, For, At, Calls, ProcessDoor, Adds;
    more, r := Takes(order, events, 0, w, h, []);
    Emptied(w, h);
    PopKeepsMid(w, h);
    var v := w.(queues := w.queues[h := []]);
    var ev := EventOf(h, w.queues[h][0]);
    DoorCall(v, h, w.queues[h][0]);
    AroundNothing(Processed(v, ev));
    EventLeaves(v, ev);
    AddsToo(w, v, r);
  }

  lemma DoorCall(w: World, h: Handle, arg: int)
    requires |w.ctl.rows| == |ROWS| && h in {SENSOR, DOOR, MOVE_TIMEOUT} && ForDoor(h, arg)
    ensures Call(w, Notice(h, arg), false, []) == Processed(w, EventOf(h, arg))
  {
  }

  lemma AddsToo(w: World, v: World, r: World)
    requires v.ctl == w.ctl
    ensures forall count :: Adds(v, r, count) ==> Adds(w, r, count)
  {
    forall count | Adds(v, r, count)
      ensures Adds(w, r, count)
    {
      var f :| NewTimer(v, r, f) && f.count == count;
      assert NewTimer(w, r, f);
    }
  }

  // ---------------------------------------------------------------------------------------------
  // The runs

  lemma Boots(order: seq<Handle>) returns (events: seq<Activity>, w: World)
    requires IsPermutation(order, |CAPS|)
    ensures At(order, events, 0, w) && Idle(w)
    ensures w.ctl.timers.now == 0 && w.ctl.door == Unknown && For(w.ctl.timers.live, MOVE_TIMEOUT) == []
  {
    hide Mid, Guarded, For, Insert;
    events, w := [], Start(START);
    StartKeeps(START);
    RunIsFromStart(order, START, []);
    var f, c, g := Future(SAMPLE, 0, 0, SAMPLE_PERIOD, 0), Future(COMMAND, 1, 1, 0, 0), Future(GRACE_OVER, 2, GRACE_PERIOD, 0, 0);
    SamplingArmed();
    StartedIs(Around(Boot(), START));
    var live := [f];
    forall h: Handle | h != COMMAND && h != GRACE_OVER
      ensures For(w.ctl.timers.live, h) == For([f], h)
    {
      ForInsert([f], c, h);
      ForInsert(Insert([f], c), g, h);
    }
    ForOne(f);
  }

  lemma ForOne(f: Future)
    ensures For([f], f.reactor) == [f] && forall h: Handle :: h != f.reactor ==> For([f], h) == []
  {
    assert [f][1..] == [];
  }

  lemma SamplingArmed()
    ensures var w := Around(Boot(), START);
            && w.ctl == Boot().ctl.(timers := Timers(0, [Future(SAMPLE, 0, 0, SAMPLE_PERIOD, 0)], 1))
            && w.queues == Boot().queues
  {
    var s := SysOf(Boot());
    assert Insert([], Future(SAMPLE, 0, 0, SAMPLE_PERIOD, 0)) == [Future(SAMPLE, 0, 0, SAMPLE_PERIOD, 0)];
    assert HappenAll(Happen(s, RULES, START[0]), RULES, START[1..]) == Happen(s, RULES, START[0]);
  }

  lemma StartedIs(w: World)
    requires w.ctl.transmit == None
    ensures var r, t := Started(w), w.ctl.timers;
            && r.queues == w.queues && r.ctl.door == w.ctl.door && r.ctl.timers.now == t.now
            && r.ctl.timers.live == Insert(Insert(t.live, Future(COMMAND, t.next, t.now + 1, 0, 0)),
                                           Future(GRACE_OVER, t.next + 1, t.now + GRACE_PERIOD, 0, 0))
  {
    hide Insert;
  }

  lemma LowestLast(order: seq<Handle>)
    requires IsSchedule(order, PRIORITIES)
    ensures Ahead(order, SENSOR, MOVE_TIMEOUT) && Ahead(order, DOOR, MOVE_TIMEOUT)
  {
    HigherIsAhead(order, PRIORITIES, SENSOR, MOVE_TIMEOUT);
    HigherIsAhead(order, PRIORITIES, DOOR, MOVE_TIMEOUT);
  }

  /** A change of the one input, reported at the given time, is processed at once. */
  lemma Change(order: seq<Handle>, events: seq<Activity>, w: World, at: nat, h: Handle, x: int)
    returns (more: seq<Activity>, r: World)
    requires IsSchedule(order, PRIORITIES) && At(order, events, 0, w) && Idle(w)
    requires w.ctl.timers.now < at < GRACE_PERIOD && at % SAMPLE_PERIOD == 0 && NoneBy(w, at)
    requires h in {SENSOR, DOOR} && ForDoor(h, x)
    requires Moves(w.ctl.door) ==> For(w.ctl.timers.live, MOVE_TIMEOUT) == []
    ensures At(order, more, 0, r) && Idle(r) && r.ctl.timers.now == at
    ensures var (known, d) := Transition(w.ctl.door, EventOf(h, x));
            && r.ctl.door == d
            && (if known && Moves(d) then Adds(w, r, at + if Moves(w.ctl.door) then COMPLETE_TIMEOUT else MOVING_TIMEOUT)
                else SameDoor(w, r.(ctl := r.ctl.(door := w.ctl.door))))
  {
    hide Inv, For, At, Adds, Around;
    var v, u;
    TimedInv(w, NextSample(w.ctl.timers.now));
    NoRaiseTicks(h, x);
    more, v, u := Reports(order, events, w, at, [Raise(Notice(h, x))]);
    TimedInv(v, NextSample(at));
    Raising(v, h, x);
    more, r := Event(order, more, u, NextSample(at), h, {});
    AddsAgain(w, u, r);
  }

  lemma NoRaiseTicks(h: Handle, x: int)
    ensures TickCount([Raise(Notice(h, x))]) == 0
  {
    assert [Raise(Notice(h, x))][1..] == [];
  }

  lemma TimedInv(w: World, sample: nat)
    requires Timed(w, sample)
    ensures Inv(w) && |w.queues| == |CAPS|
  {
  }

  lemma AddsAgain(w: World, v: World, r: World)
    requires SameDoor(w, v)
    ensures forall count :: Adds(v, r, count) ==> Adds(w, r, count)
  {
    forall count | Adds(v, r, count)
      ensures Adds(w, r, count)
    {
      var f :| NewTimer(v, r, f) && f.count == count;
      assert NewTimer(w, r, f);
    }
  }

  const SHUT_AT: nat := 500      // when the door is seen to be down, and the later changes
  const OPEN_AT: nat := 1000
  const DUE_AT: nat := 4000
  const UP_AT: nat := 4100
  const CLOSE_AT: nat := 4200
  const DOWN_AT: nat := 4300

  /** The door has begun to open. */
  lemma BeginsToOpen(order: seq<Handle>) returns (events: seq<Activity>, w: World)
    requires IsSchedule(order, PRIORITIES)
    ensures At(order, events, 0, w) && Idle(w) && w.ctl.timers.now == OPEN_AT && w.ctl.door == Opening
    ensures |For(w.ctl.timers.live, MOVE_TIMEOUT)| == 1 && For(w.ctl.timers.live, MOVE_TIMEOUT)[0].count == DUE_AT
  {
    hide Idle, For, At;
    events, w := Boots(order);
    events, w := Change(order, events, w, SHUT_AT, SENSOR, IS_DOWN);
    events, w := Change(order, events, w, OPEN_AT, DOOR, OPEN);
  }

  /** Its time is up when the sampling handler reports changes; the timeout waits behind them. */
  lemma Overdue(order: seq<Handle>, after: seq<EnvOp>) returns (events: seq<Activity>, v: World, r: World)
    requires IsSchedule(order, PRIORITIES) && TickCount(after) == 0
    ensures At(order, events, 0, r) && Inv(r) && r == Around(v, after)
    ensures Timed(v, NextSample(DUE_AT)) && OnlyQueued(v, {MOVE_TIMEOUT}) && v.ctl.timers.now == DUE_AT
    ensures v.ctl.door == Opening && For(v.ctl.timers.live, MOVE_TIMEOUT) == [] && v.queues[MOVE_TIMEOUT] != []
  {
    hide Idle, For, At, Inv, Around, Timed;
    var w;
    events, w := BeginsToOpen(order);
    events, v, r := Reports(order, events, w, DUE_AT, after);
  }

  lemma AddsFull(w: World, r: World, delay: nat)
    requires Adds(w, r, r.ctl.timers.now + delay)
    ensures FullTime(r.ctl, delay)
  {
    hide For;
  }

  lemma StillFull(w: World, r: World, delay: nat)
    requires FullTime(w.ctl, delay) && SameDoor(w, r.(ctl := r.ctl.(door := w.ctl.door))) && r.ctl.timers.now == w.ctl.timers.now
    ensures FullTime(r.ctl, delay)
  {
    hide For;
  }

  /** The sensor shows the door moving in the millisecond in which its time is up. */
  lemma StaleSteps(order: seq<Handle>) returns (events: seq<Activity>, v: World, more: seq<Activity>, r: World)
    requires IsSchedule(order, PRIORITIES)
    ensures At(order, events, 0, v) && At(order, more, 0, r) && |more| == |events| + 1 && events < more
    ensures v.ctl.door == Opening && FullTime(v.ctl, COMPLETE_TIMEOUT)
    ensures Idle(r) && r.ctl.timers.now == DUE_AT && r.ctl.door == Unknown && FullTime(r.ctl, COMPLETE_TIMEOUT)
    ensures |For(r.ctl.timers.live, MOVE_TIMEOUT)| == 1
    ensures For(r.ctl.timers.live, MOVE_TIMEOUT)[0].count == DUE_AT + COMPLETE_TIMEOUT
  {
    hide Inv, For, At, Around, Adds, FullTime;
    var u;
    NoRaiseTicks(SENSOR, MOVING_UP);
    LowestLast(order);
    events, u, v := Overdue(order, [Raise(Notice(SENSOR, MOVING_UP))]);
    TimedInv(u, NextSample(DUE_AT));
    Raising(u, SENSOR, MOVING_UP);
    u := v;
    events, v := Event(order, events, u, NextSample(DUE_AT), SENSOR, {MOVE_TIMEOUT});
    AddsFull(u, v, COMPLETE_TIMEOUT);
    AddsOne(u, v, DUE_AT + COMPLETE_TIMEOUT);
    more, r := Event(order, events, v, NextSample(DUE_AT), MOVE_TIMEOUT, {});
    StillFull(v, r, COMPLETE_TIMEOUT);
  }

  lemma AddsOne(w: World, r: World, count: nat)
    requires Adds(w, r, count) && For(w.ctl.timers.live, MOVE_TIMEOUT) == []
    ensures |For(r.ctl.timers.live, MOVE_TIMEOUT)| == 1 && For(r.ctl.timers.live, MOVE_TIMEOUT)[0].count == count
    ensures r.ctl.movement == Armed(For(r.ctl.timers.live, MOVE_TIMEOUT)[0].instance)
  {
    hide For;
  }

  lemma RowsRest(order: seq<Handle>, events: seq<Activity>, w: World, sample: nat)
    requires IsPermutation(order, |CAPS|) && At(order, events, 0, w) && Timed(w, sample) && !Moves(w.ctl.door)
    ensures Paced(order, START, events) && w == Run(order, START, events)
    ensures |w.ctl.rows| == |ROWS| && !w.ctl.rows[DOOR_UP] && !w.ctl.rows[DOOR_DOWN]
  {
  }

  /**
   Whatever the outcome of the sort, there is a run that the loop can take whose last round ends an
   opening although its timer has just been restarted and has its whole 8 s to run.
   */
  lemma StaleRun(order: seq<Handle>) returns (events: seq<Activity>)
    requires IsSchedule(order, PRIORITIES)
    ensures events != [] && Paced(order, START, events)
    ensures var w := Run(order, START, events[..|events| - 1]); w.ctl.door == Opening && FullTime(w.ctl, COMPLETE_TIMEOUT)
    ensures var w := Run(order, START, events); w.ctl.door == Unknown && !w.ctl.rows[DOOR_UP] && FullTime(w.ctl, COMPLETE_TIMEOUT)
  {
    hide Inv, For, Paced, FullTime, Run;
    var before, v, r;
    before, v, events, r := StaleSteps(order);
    assert events[..|before|] == before;
    RowsRest(order, events, r, NextSample(DUE_AT));
  }

  /**
   If the sort puts the sensors' handler in front of the command input's, the timeout of the opening
   can end the closing after it, which has just started and has its whole 3 s to run.
   */
  lemma ClosingCutShort(order: seq<Handle>) returns (events: seq<Activity>)
    requires IsSchedule(order, PRIORITIES) && Ahead(order, SENSOR, DOOR)
    ensures events != [] && Paced(order, START, events)
    ensures var w := Run(order, START, events[..|events| - 1]); w.ctl.door == Closing && JustStarted(w.ctl)
    ensures var w := Run(order, START, events); w.ctl.door == Unknown && !w.ctl.rows[DOOR_DOWN] && JustStarted(w.ctl)
  {
    hide Inv, For, Paced, FullTime, Run, Around, Adds, Timed, NoneBy, OnlyQueued;
    var before, u, v, r;
    before, u, v := ClosingBegins(order);
    AddsFull(u, v, MOVING_TIMEOUT);
    events, r := Event(order, before, v, NextSample(DUE_AT), MOVE_TIMEOUT, {});
    StillFull(v, r, MOVING_TIMEOUT);
    assert events[..|before|] == before;
    RowsRest(order, events, r, NextSample(DUE_AT));
  }

  lemma ClosingBegins(order: seq<Handle>) returns (events: seq<Activity>, u: World, v: World)
    requires IsSchedule(order, PRIORITIES) && Ahead(order, SENSOR, DOOR)
    ensures At(order, events, 0, v) && Timed(v, NextSample(DUE_AT)) && OnlyQueued(v, {} + {MOVE_TIMEOUT})
    ensures v.queues[MOVE_TIMEOUT] != [] && v.ctl.door == Closing && Adds(u, v, v.ctl.timers.now + MOVING_TIMEOUT)
  {
    hide Inv, For, Paced, FullTime, Run, Around, Adds;
    var both := [Raise(Notice(SENSOR, IS_UP)), Raise(Notice(DOOR, CLOSE))];
    LowestLast(order);
    RaisesNoTicks(SENSOR, IS_UP, DOOR, CLOSE);
    events, u, v := Overdue(order, both);
    TimedInv(u, NextSample(DUE_AT));
    RaisingBoth(u, IS_UP, CLOSE);
    u := v;
    events, v := Event(order, events, u, NextSample(DUE_AT), SENSOR, {DOOR, MOVE_TIMEOUT});
    u := v;
    events, v := Event(order, events, u, NextSample(DUE_AT), DOOR, {MOVE_TIMEOUT});
  }

  lemma RaisesNoTicks(h: Handle, x: int, g: Handle, y: int)
    ensures TickCount([Raise(Notice(h, x)), Raise(Notice(g, y))]) == 0
  {
    NoRaiseTicks(g, y);
    assert [Raise(Notice(h, x)), Raise(Notice(g, y))][1..] == [Raise(Notice(g, y))];
  }

  lemma RaisingBoth(w: World, x: int, y: int)
    requires Inv(w) && |w.queues| == |CAPS|
    ensures Around(w, [Raise(Notice(SENSOR, x)), Raise(Notice(DOOR, y))]) == w.(queues := w.queues[SENSOR := [x]][DOOR := [y]])
  {
    hide Mid, Guarded;
    Raising(w, SENSOR, x);
    var v := w.(queues := w.queues[SENSOR := [x]]);
    MidIs(w, 0);
    AroundKeeps(w, [Raise(Notice(SENSOR, x))], 0);
    Raising(v, DOOR, y);
    BothAround(w, Raise(Notice(SENSOR, x)), Raise(Notice(DOOR, y)));
  }

  lemma BothAround(w: World, a: EnvOp, b: EnvOp)
    ensures Around(w, [a, b]) == Around(Around(w, [a]), [b])
  {
    hide Happen;
    var s := SysOf(w);
    assert HappenAll(s, RULES, [a]) == HappenAll(Happen(s, RULES, a), RULES, [a][1..]) == Happen(s, RULES, a);
    assert [a, b][1..] == [b];
    assert SysOf(WithSys(w, Happen(s, RULES, a))) == Happen(s, RULES, a);
  }

  /**
   Whatever the outcome of the sort, a run that the loop can take leads to a reset that finds no timeout
   queued and is not honoured all the same: a timer that outlived its own movement is live still.
   */
  lemma OrphanRun(order: seq<Handle>) returns (events: seq<Activity>)
    requires IsSchedule(order, PRIORITIES)
    ensures Paced(order, START, events)
    ensures var w, e := Run(order, START, events), Round([], false, [], []);
            && CanTake(order, w, SinceCall(0, events), e) && Resets(order, w, e)
            && w.queues[MOVE_TIMEOUT] == [] && w.ctl.door == Closing && Step(order, w, e).ctl.door == Closed
            && !Honoured(order, Step(order, w, e), 0, w.ctl.timers.next)
  {
    hide Inv, For, Paced, Run, Around, FullTime, At, Step, Calls, CanTake, OnlyItsOwn, Honoured;
    var before, v, w;
    before, v, events, w := StaleSteps(order);
    var orphan := For(w.ctl.timers.live, MOVE_TIMEOUT)[0];
    events, w := Change(order, events, w, UP_AT, SENSOR, IS_UP);
    v := w;
    events, w := Change(order, events, w, CLOSE_AT, DOOR, CLOSE);
    TwoTimers(v, w, orphan);
    v := w;
    NoRaiseTicks(SENSOR, IS_DOWN);
    var u;
    events, u, w := Reports(order, events, v, DOWN_AT, [Raise(Notice(SENSOR, IS_DOWN))]);
    TimedInv(u, NextSample(DOWN_AT));
    Raising(u, SENSOR, IS_DOWN);
    SensorResets(order, events, u, w);
    var e := Round([], false, [], []);
    OrphanLeft(w, orphan);
    ResetHonouredIff(order, w, e);
  }

  /** A movement that begins while an older timer is live leaves that one to itself. */
  lemma TwoTimers(w: World, r: World, orphan: Future)
    requires Adds(w, r, CLOSE_AT + MOVING_TIMEOUT) && For(w.ctl.timers.live, MOVE_TIMEOUT) == [orphan] && DOWN_AT < orphan.count
    ensures NoneBy(r, DOWN_AT) && orphan in For(r.ctl.timers.live, MOVE_TIMEOUT) && r.ctl.movement != Armed(orphan.instance)
  {
    hide For;
    assert orphan in For(w.ctl.timers.live, MOVE_TIMEOUT);
  }

  lemma OrphanLeft(w: World, orphan: Future)
    requires |w.queues| == |CAPS| && orphan in For(w.ctl.timers.live, MOVE_TIMEOUT) && w.ctl.movement != Armed(orphan.instance)
    ensures !OnlyItsOwn(w)
  {
  }

  /** Down is reported while closing, with nothing else queued. */
  lemma SensorResets(order: seq<Handle>, events: seq<Activity>, v: World, w: World)
    requires IsSchedule(order, PRIORITIES) && At(order, events, 0, w) && Timed(v, NextSample(DOWN_AT)) && OnlyQueued(v, {})
    requires w == v.(queues := v.queues[SENSOR := [IS_DOWN]]) && v.ctl.door == Closing && Inv(w)
    ensures Paced(order, START, events) && w == Run(order, START, events) && |w.queues| == |CAPS| && |w.ctl.rows| == |ROWS|
    ensures var e := Round([], false, [], []);
            && CanTake(order, w, SinceCall(0, events), e) && Resets(order, w, e) && Step(order, w, e).ctl.door == Closed
  {
    hide Mid, Guarded, For, Paced, Run, Around, ProcessDoor;
    PickLeader(order, w.queues, SENSOR);
    AroundNothing(w);
    CanCall(order, w, 0);
    PopKeepsMid(w, SENSOR);
    var u := w.(queues := Popped(w.queues, SENSOR));
    DoorCall(u, SENSOR, IS_DOWN);
    EnterKeeps(u, IsDown);
    ProcessedIs(u, IsDown);
    AroundNothing(Processed(u, IsDown));
  }
}
