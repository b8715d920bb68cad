/**
 What each of the controller's handlers makes of what it is told: pin by pin for the inputs and the
 door's sensors, and what it counts and sends.
 */
module ControllerCalls {
  import opened TimerModel
  import opened ReactorModel
  import opened Runtime
  import opened ControllerModel
  import opened ControllerRuns
  import opened ControllerPace
  import opened DoorTimeouts
  import opened DoorResets
  import opened Pins

  // ---------------------------------------------------------------------------------------------
  // The door

  /** The door as its sensors and the command input tell: a high sensor is an arrival, a timeout an end unknown. */
  function DoorAfter(door: Door, h: Handle, arg: int): Door {
    if h == SENSOR && arg == PinArg(DOOR_DOWN, true) then (if door == Closing || door == Unknown then Closed else door)
    else if h == SENSOR && arg == PinArg(DOOR_UP, true) then (if door == Opening || door == Unknown then Opened else door)
    else if h == DOOR && ValueOf(arg) then (if door == Closed then Opening else door)
    else if h == DOOR then (if door == Opened then Closing else door)
    else if h == MOVE_TIMEOUT then (if door == Opening || door == Closing then Unknown else door)
    else door
  }

  /** The calls that show a movement under way: the sensor it leaves behind goes low. */
  predicate ShowsMoving(door: Door, h: Handle, arg: int) {
    h == SENSOR && ((door == Closing && arg == PinArg(DOOR_UP, false)) || (door == Opening && arg == PinArg(DOOR_DOWN, false)))
  }

  lemma ProcessDoorMoves(w: World, ev: DoorEvent, mid: seq<EnvOp>)
    requires Mid(w, 0) && w.queues[COMMAND] == []
    ensures |w.ctl.rows| == |ROWS|
    ensures var r, (known, d) := ProcessDoor(w, ev, mid), Transition(w.ctl.door, ev);
            && r.ctl.door == d
            && (known && Moves(d) ==> FullTime(r.ctl, if Moves(w.ctl.door) then 8000 else 3000))
  {
    hide Mid, Enter, Around, FullTime, ArmMovement, CancelMovement;
    MidIs(w, 0);
    var v := w.(ctl := Enter(w.ctl, ev));
    EnterKeeps(w, ev);
    AroundKeeps(v, mid, 0);
    var u := Around(v, mid);
    if Transition(w.ctl.door, ev).0 && Moves(Transition(w.ctl.door, ev).1) {
      CancelMovementKeeps(u);
      if Moves(w.ctl.door) {
        ArmsFull(u.(ctl := CancelMovement(u.ctl)), 8000);
      } else {
        ArmsFull(u, 3000);
      }
    }
    SettleDoor(w.ctl.door, ev, u.ctl);
  }

  lemma SettleDoor(before: Door, ev: DoorEvent, c: Ctl)
    ensures Settle(before, ev, c).door == c.door
  {
  }

  lemma ArmsFull(w: World, delay: nat)
    requires Mid(w, 0)
    ensures FullTime(ArmMovement(w.ctl, delay), delay)
  {
    hide Chain, Limited, Arbitrated, Counted, Graced, For, Insert, Sound, Fits;
    var t := w.ctl.timers;
    OwnArm(t, SysOf(w), RULES, MOVE_TIMEOUT, t.now + delay, 0, 0);
    var f := Future(MOVE_TIMEOUT, t.next, t.now + delay, 0, 0);
    assert f in For(ArmMovement(w.ctl, delay).timers.live, MOVE_TIMEOUT);
  }

  /**
   What a handler call makes of the door. While it closes, the up sensor going low leaves it closing, with
   a new limit of 8 s, and likewise the down sensor while it opens; a movement starts with 3 s.
   */
  lemma CallMovesDoor(w: World, call: Notice, busy: bool, mid: seq<EnvOp>)
    requires call.handle < |CAPS| && Mid(w, if call.handle == COMMAND then 1 else 0)
    requires PRIORITIES[call.handle] < PRIORITIES[COMMAND] ==> |w.queues| == |CAPS| && w.queues[COMMAND] == []
    ensures |w.ctl.rows| == |ROWS|
    ensures var r, h := Call(w, call, busy, mid), call.handle;
            && r.ctl.door == DoorAfter(w.ctl.door, h, call.arg)
            && (ShowsMoving(w.ctl.door, h, call.arg) ==> r.ctl.door == w.ctl.door && FullTime(r.ctl, 8000))
            && (r.ctl.door != w.ctl.door && (r.ctl.door == Opening || r.ctl.door == Closing) ==> FullTime(r.ctl, 3000))
  {
    hide Mid, ProcessDoor, FullTime, ProcessSend;
    var h := call.handle;
    MidIs(w, if h == COMMAND then 1 else 0);
    if h == SENSOR {
      var (known, ev) := SensorEvent(PinOf(call.arg), ValueOf(call.arg));
      ProcessDoorMoves(w, ev, mid);
    } else if h == DOOR {
      ProcessDoorMoves(w, if ValueOf(call.arg) then Open else Close, mid);
    } else if h == MOVE_TIMEOUT {
      ProcessDoorMoves(w, Timeout, mid);
    } else if h == COMMAND {
      SendLeavesDoor(w, busy, mid);
    } else if h == INPUT {
      InputLeavesDoor(w.ctl, PinOf(call.arg), ValueOf(call.arg));
    }
  }

  lemma SendLeavesDoor(w: World, busy: bool, mid: seq<EnvOp>)
    ensures ProcessSend(w, busy, mid).ctl.door == w.ctl.door
  {
    hide Around, Insert;
  }

  lemma InputLeavesDoor(c: Ctl, pin: int, value: bool)
    requires |c.rows| == |ROWS|
    ensures InputChange(c, pin, value).door == c.door
  {
    hide Insert, Remove, FirstActive;
  }

  // ---------------------------------------------------------------------------------------------
  // Rounds

  /** The handler a round calls, and what with. */
  function CalledWith(order: seq<Handle>, w: World, e: Activity): (n: Notice)
    requires IsPermutation(order, |CAPS|) && |w.queues| == |CAPS| && e.Round? && Pick(order, w.queues) < |order|
    ensures n.handle < |CAPS|
  {
    var h := order[Pick(order, w.queues)];
    Notice(h, Around(w, e.isr).queues[h][0])
  }

  ghost predicate Busy(order: seq<Handle>, w: World, e: Activity)
    requires IsPermutation(order, |CAPS|) && |w.queues| == |CAPS|
  {
    e.Round? && Pick(order, w.queues) < |order|
  }

  /** The state the handler is called in, and what the round is made of. */
  lemma RoundCalls(order: seq<Handle>, w: World, e: Activity) returns (v: World)
    requires IsSchedule(order, PRIORITIES) && Inv(w) && |w.queues| == |CAPS| && |w.ctl.rows| == |ROWS| && Busy(order, w, e)
    ensures var call, w1 := CalledWith(order, w, e), Around(w, e.isr);
            && v == w1.(queues := Popped(w1.queues, call.handle))
            && Mid(v, if call.handle == COMMAND then 1 else 0) && |v.queues| == |CAPS| && |v.ctl.rows| == |ROWS|
            && (PRIORITIES[call.handle] < PRIORITIES[COMMAND] ==> v.queues[COMMAND] == [])
            && v.ctl == w.ctl.(timers := v.ctl.timers) && v.log == w.log
            && For(v.ctl.timers.live, COMMAND) == For(w.ctl.timers.live, COMMAND)
            && For(v.ctl.timers.live, GRACE_OVER) == For(w.ctl.timers.live, GRACE_OVER)
            && v.queues[GRACE_OVER] == (if call.handle == GRACE_OVER then w.queues[GRACE_OVER][1..] else w.queues[GRACE_OVER])
            && w.ctl.timers.now <= v.ctl.timers.now
            && Step(order, w, e) == Around(Call(v, call, e.busy, e.mid), e.after)
            && Inv(Call(v, call, e.busy, e.mid))
    ensures CalledWith(order, w, e).handle == GRACE_OVER ==> w.queues[GRACE_OVER] != []
  {
    hide Mid, Guarded, For, Call, Pick, HappenAll;
    PickHas(order, w.queues);
    var h, w1 := order[Pick(order, w.queues)], Around(w, e.isr);
    MidIs(w, 0);
    HappenAllKeeps(SysOf(w), RULES, e.isr);
    AroundKeeps(w, e.isr, 0);
    MidIs(w1, 0);
    assert COMMAND in RULES.own && GRACE_OVER in RULES.own;
    if PRIORITIES[h] < PRIORITIES[COMMAND] {
      PickIsHighest(order, PRIORITIES, w.queues, COMMAND);
    }
    PopMoves(w1, h);
    v := w1.(queues := Popped(w1.queues, h));
    TakenKeeps(w1, CalledWith(order, w, e), e.busy, e.mid);
    MidIs(v, if h == COMMAND then 1 else 0);
  }

  lemma AroundLeaves(w: World, env: seq<EnvOp>, held: nat)
    requires Mid(w, held)
    ensures |w.queues| == |CAPS| && |Around(w, env).queues| == |CAPS|
    ensures var r := Around(w, env);
            && Mid(r, held) && r.ctl == w.ctl.(timers := r.ctl.timers) && r.log == w.log && w.ctl.timers.now <= r.ctl.timers.now
            && For(r.ctl.timers.live, COMMAND) == For(w.ctl.timers.live, COMMAND)
            && For(r.ctl.timers.live, GRACE_OVER) == For(w.ctl.timers.live, GRACE_OVER)
            && r.queues[GRACE_OVER] == w.queues[GRACE_OVER]
  {
    hide Chain, Arbitrated, Counted, Graced, HappenAll, For, Sound;
    MidIs(w, held);
    HappenAllKeeps(SysOf(w), RULES, env);
    AroundKeeps(w, env, held);
    assert COMMAND in RULES.own && GRACE_OVER in RULES.own;
  }

  /** Between two rounds of a run the door moves exactly as what the round's handler was told says. */
  lemma StepMovesDoor(order: seq<Handle>, w: World, e: Activity)
    requires IsSchedule(order, PRIORITIES) && Inv(w) && |w.queues| == |CAPS| && |w.ctl.rows| == |ROWS|
    ensures Step(order, w, e).ctl.door
         == if !Busy(order, w, e) then w.ctl.door
            else DoorAfter(w.ctl.door, CalledWith(order, w, e).handle, CalledWith(order, w, e).arg)
  {
    hide Mid, Guarded, Call, Around, DoorAfter, For, Pick;
    if Busy(order, w, e) {
      var v := RoundCalls(order, w, e);
      CallMovesDoor(v, CalledWith(order, w, e), e.busy, e.mid);
      AroundLeaves(Call(v, CalledWith(order, w, e), e.busy, e.mid), e.after, 0);
    }
  }

  /** The door becomes closed only when the down sensor is reported high, and opened only when the up sensor is. */
  lemma ArrivesOnlyAtItsSensor(order: seq<Handle>, w: World, e: Activity)
    requires IsSchedule(order, PRIORITIES) && Inv(w) && |w.queues| == |CAPS| && |w.ctl.rows| == |ROWS|
    ensures var d := Step(order, w, e).ctl.door;
            && (d == Closed && w.ctl.door != Closed ==>
                  Busy(order, w, e) && CalledWith(order, w, e) == Notice(SENSOR, PinArg(DOOR_DOWN, true)))
            && (d == Opened && w.ctl.door != Opened ==>
                  Busy(order, w, e) && CalledWith(order, w, e) == Notice(SENSOR, PinArg(DOOR_UP, true)))
  {
    hide Mid, Guarded, Step, Pick, For;
    StepMovesDoor(order, w, e);
  }

  // ---------------------------------------------------------------------------------------------
  // The inputs

  /** A row of the inputs: the chuck and the two blasts. */
  predicate InputRow(pin: nat) {
    pin < 3
  }

  lemma InputSetsRow(c: Ctl, pin: int, value: bool, p: nat)
    requires |c.rows| == |ROWS| && p < |ROWS|
    ensures var r := InputChange(c, pin, value); r.rows[p] == if pin == p then value else c.rows[p]
  {
    hide Insert, Remove, FirstActive, Trigger;
  }

  lemma EnterLeavesInputs(c: Ctl, ev: DoorEvent, p: nat)
    requires |c.rows| == |ROWS| && InputRow(p)
    ensures Enter(c, ev).rows[p] == c.rows[p]
  {
    hide InputChange;
    var c1 := c.(door := Transition(c.door, ev).1);
    InputSetsRow(c1, DOOR_UP, true, p);
    InputSetsRow(c1, DOOR_DOWN, true, p);
    InputSetsRow(c1, DOOR_UP, false, p);
    InputSetsRow(c1, DOOR_DOWN, false, p);
  }

  lemma ProcessLeavesInputs(w: World, ev: DoorEvent, mid: seq<EnvOp>, p: nat)
    requires |w.ctl.rows| == |ROWS| && InputRow(p)
    ensures ProcessDoor(w, ev, mid).ctl.rows[p] == w.ctl.rows[p]
  {
    hide Enter, HappenAll, Settle;
    EnterLeavesInputs(w.ctl, ev, p);
  }

  lemma CallSetsRow(w: World, call: Notice, busy: bool, mid: seq<EnvOp>, p: nat)
    requires |w.ctl.rows| == |ROWS| && InputRow(p)
    ensures Call(w, call, busy, mid).ctl.rows[p]
         == if call == Notice(INPUT, PinArg(p, true)) then true else if call == Notice(INPUT, PinArg(p, false)) then false
            else w.ctl.rows[p]
  {
    hide ProcessDoor, ProcessSend, InputChange;
    var h := call.handle;
    if h == SENSOR {
      ProcessLeavesInputs(w, SensorEvent(PinOf(call.arg), ValueOf(call.arg)).1, mid, p);
    } else if h == DOOR {
      ProcessLeavesInputs(w, if ValueOf(call.arg) then Open else Close, mid, p);
    } else if h == MOVE_TIMEOUT {
      ProcessLeavesInputs(w, Timeout, mid, p);
    } else if h == INPUT {
      InputSetsRow(w.ctl, PinOf(call.arg), ValueOf(call.arg), p);
    }
  }

  /** Between two rounds of a run an input's row is the value last reported for its own pin. */
  lemma StepSetsRow(order: seq<Handle>, w: World, e: Activity, p: nat)
    requires IsSchedule(order, PRIORITIES) && Inv(w) && |w.queues| == |CAPS| && |w.ctl.rows| == |ROWS| && InputRow(p)
    ensures Step(order, w, e).ctl.rows[p]
         == if Busy(order, w, e) && CalledWith(order, w, e) == Notice(INPUT, PinArg(p, true)) then true
            else if Busy(order, w, e) && CalledWith(order, w, e) == Notice(INPUT, PinArg(p, false)) then false
            else w.ctl.rows[p]
  {
    hide Mid, Guarded, Call, Around, For, Pick;
    if Busy(order, w, e) {
      var v := RoundCalls(order, w, e);
      CallSetsRow(v, CalledWith(order, w, e), e.busy, e.mid, p);
      AroundLeaves(Call(v, CalledWith(order, w, e), e.busy, e.mid), e.after, 0);
    }
  }

  // ---------------------------------------------------------------------------------------------
  // Errors and the grace period

  /** What a call adds to the errors counted. */
  function Counts(c: Ctl, call: Notice, busy: bool): seq<int> {
    if call.handle == COMMS_ERROR || (call.handle == COMMAND && busy && !c.stop) then [if c.grace then 0 else 2]
    else if call.handle == READ then [-1]
    else []
  }

  lemma CallCounts(w: World, call: Notice, busy: bool, mid: seq<EnvOp>)
    requires |w.ctl.rows| == |ROWS|
    ensures var r := Call(w, call, busy, mid);
            && r.log == w.log + Counts(w.ctl, call, busy)
            && r.ctl.grace == (w.ctl.grace && call.handle != GRACE_OVER)
  {
    hide HappenAll, Enter, Settle, Insert, InputChange, DispatchTimers;
    if call.handle == INPUT {
      InputLeavesGrace(w.ctl, PinOf(call.arg), ValueOf(call.arg));
    } else if call.handle == SENSOR {
      EnterLeavesGrace(w.ctl, SensorEvent(PinOf(call.arg), ValueOf(call.arg)).1);
    } else if call.handle == DOOR {
      EnterLeavesGrace(w.ctl, if ValueOf(call.arg) then Open else Close);
    } else if call.handle == MOVE_TIMEOUT {
      EnterLeavesGrace(w.ctl, Timeout);
    }
  }

  lemma InputLeavesGrace(c: Ctl, pin: int, value: bool)
    requires |c.rows| == |ROWS|
    ensures InputChange(c, pin, value).grace == c.grace
  {
    hide Insert, Remove, FirstActive;
  }

  lemma EnterLeavesGrace(c: Ctl, ev: DoorEvent)
    requires |c.rows| == |ROWS|
    ensures Enter(c, ev).grace == c.grace
  {
    hide InputChange;
    var c1 := c.(door := Transition(c.door, ev).1);
    InputLeavesGrace(c1, DOOR_UP, true);
    InputLeavesGrace(c1, DOOR_DOWN, true);
    InputLeavesGrace(c1, DOOR_UP, false);
    InputLeavesGrace(c1, DOOR_DOWN, false);
  }

  /**
   Between two rounds of a run the error log grows by what was told: two for an error or a busy bus
   once the grace period is over, minus one for a good reply. Only its timeout ends the grace period.
   */
  lemma StepCounts(order: seq<Handle>, w: World, e: Activity)
    requires IsSchedule(order, PRIORITIES) && Inv(w) && |w.queues| == |CAPS| && |w.ctl.rows| == |ROWS|
    ensures var r := Step(order, w, e);
            && r.log == w.log + (if Busy(order, w, e) then Counts(w.ctl, CalledWith(order, w, e), e.busy) else [])
            && r.ctl.grace == (w.ctl.grace && !(Busy(order, w, e) && CalledWith(order, w, e).handle == GRACE_OVER))
  {
    hide Mid, Guarded, Call, Around, For, Pick;
    if Busy(order, w, e) {
      var v := RoundCalls(order, w, e);
      CallCounts(v, CalledWith(order, w, e), e.busy, e.mid);
      AroundLeaves(Call(v, CalledWith(order, w, e), e.busy, e.mid), e.after, 0);
    }
  }

  /** While errors are forgiven the end of that is armed for the given time, or queued. */
  ghost predicate Forgiving(w: World, end: nat)
    requires |w.queues| == |CAPS|
  {
    w.ctl.grace ==>
      || w.queues[GRACE_OVER] != []
      || exists f :: For(w.ctl.timers.live, GRACE_OVER) == [f] && f.repeat == 0 && f.count == end
  }

  // ---------------------------------------------------------------------------------------------
  // Transmissions, and the end of the grace period

  /** The grace period's timer is left alone, and any transmission armed is due within 100 ms. */
  ghost predicate Sends(w: World, r: World) {
    && |w.queues| == |r.queues| == |CAPS| && w.ctl.timers.now <= r.ctl.timers.now
    && For(r.ctl.timers.live, GRACE_OVER) == For(w.ctl.timers.live, GRACE_OVER)
    && r.queues[GRACE_OVER] == w.queues[GRACE_OVER]
    && forall f :: f in For(r.ctl.timers.live, COMMAND) ==>
         f in For(w.ctl.timers.live, COMMAND) || f.count <= r.ctl.timers.now + 100
  }

  lemma SendsTwice(w: World, v: World, r: World)
    requires Sends(w, v) && Sends(v, r)
    ensures Sends(w, r)
  {
  }

  lemma SameTimersSend(w: World, r: World)
    requires |w.queues| == |CAPS| && r.queues == w.queues && r.ctl.timers == w.ctl.timers
    ensures Sends(w, r)
  {
  }

  lemma AroundSends(w: World, env: seq<EnvOp>, held: nat)
    requires Mid(w, held)
    ensures Sends(w, Around(w, env))
  {
    hide Mid, Around;
    AroundLeaves(w, env, held);
  }

  /** The one transmission pending, at the given time. */
  ghost predicate SendsAt(c: Ctl, time: nat) {
    exists f :: For(c.timers.live, COMMAND) == [f] && f.count == time
  }

  /** What became of the pending transmission: a new command goes out a millisecond later, the same one when it would have. */
  ghost predicate SendsNews(w: World, r: World) {
    if r.ctl.current != w.ctl.current then SendsAt(r.ctl, w.ctl.timers.now + 1)
    else For(r.ctl.timers.live, COMMAND) == For(w.ctl.timers.live, COMMAND)
  }

  lemma TriggerSends(w: World)
    requires Base(SysOf(w), RULES) && |w.queues| == |CAPS| && Chain(w, 0) && w.queues[COMMAND] == []
    ensures var r := w.(ctl := Trigger(w.ctl));
            Sends(w, r) && SendsAt(r.ctl, w.ctl.timers.now + 1) && r.ctl.current == w.ctl.current
  {
    hide Sound, For, Insert, Remove, Belongs;
    ChainIsArmed(w);
    TriggerIs(w);
    Restarted(SysOf(w), RULES, w.ctl.transmit, COMMAND, w.ctl.timers.now + 1);
  }

  lemma InputSends(w: World, pin: int, value: bool)
    requires Base(SysOf(w), RULES) && |w.queues| == |CAPS| && Chain(w, 0) && w.queues[COMMAND] == []
    requires |w.ctl.rows| == |ROWS|
    ensures var r := w.(ctl := InputChange(w.ctl, pin, value));
            Sends(w, r) && SendsNews(w, r)
  {
    hide Base, Sound, For, Trigger, FirstActive, Belongs, Sends, SendsAt;
    SameTimersSend(w, w.(ctl := w.ctl.(rows := InputChange(w.ctl, pin, value).rows)));
    SameTimersSend(w, w);
    if 0 <= pin < |ROWS| {
      var c := w.ctl.(rows := w.ctl.rows[pin := value]);
      var cmd := FirstActive(c.rows, ROWS);
      if c.current != cmd {
        var v := w.(ctl := c.(current := cmd));
        assert SysOf(v) == SysOf(w);
        TriggerSends(v);
        SameTimersSend(w, v);
        SendsTwice(w, v, v.(ctl := Trigger(v.ctl)));
      }
    }
  }

  lemma EnterSends(w: World, ev: DoorEvent)
    requires Mid(w, 0) && w.queues[COMMAND] == []
    ensures |w.ctl.rows| == |ROWS|
    ensures var r := w.(ctl := Enter(w.ctl, ev));
            Sends(w, r) && SendsNews(w, r)
  {
    hide Base, Chain, Arbitrated, Counted, Graced, Limited, InputChange, For, Sends, SendsAt;
    MidIs(w, 0);
    MidChain(w);
    var v := w.(ctl := w.ctl.(door := Transition(w.ctl.door, ev).1));
    assert SysOf(v) == SysOf(w);
    ChainAlike(w, v);
    SameTimersSend(w, v);
    SameTimersSend(w, w);
    InputSends(v, DOOR_UP, true);
    InputSends(v, DOOR_DOWN, true);
    InputSends(v, DOOR_UP, false);
    InputSends(v, DOOR_DOWN, false);
    SendsTwice(w, v, v.(ctl := InputChange(v.ctl, DOOR_UP, true)));
    SendsTwice(w, v, v.(ctl := InputChange(v.ctl, DOOR_DOWN, true)));
    SendsTwice(w, v, v.(ctl := InputChange(v.ctl, DOOR_UP, false)));
    SendsTwice(w, v, v.(ctl := InputChange(v.ctl, DOOR_DOWN, false)));
  }

  lemma MidChain(w: World)
    requires Mid(w, 0)
    ensures |w.queues| == |CAPS| && Chain(w, 0)
  {
  }

  lemma ChainAlike(w: World, v: World)
    requires |w.queues| == |CAPS| && Chain(w, 0) && v.queues == w.queues
    requires v.ctl.timers == w.ctl.timers && v.ctl.transmit == w.ctl.transmit && v.ctl.stop == w.ctl.stop
    ensures Chain(v, 0)
  {
  }

  /** The movement's timers are not the transmissions'. */
  lemma SettleSends(before: Door, ev: DoorEvent, w: World)
    requires Mid(w, 0)
    ensures var r := w.(ctl := Settle(before, ev, w.ctl));
            && Sends(w, r) && r.ctl.current == w.ctl.current
            && For(r.ctl.timers.live, COMMAND) == For(w.ctl.timers.live, COMMAND)
  {
    hide Mid, For, ArmMovement, CancelMovement;
    MidIs(w, 0);
    var (known, d) := Transition(before, ev);
    ArmLeaves(w, MOVING_TIMEOUT);
    CancelLeaves(w);
    var v := w.(ctl := CancelMovement(w.ctl));
    ArmLeaves(v, COMPLETE_TIMEOUT);
  }

  lemma ArmLeaves(w: World, delay: nat)
    requires Mid(w, 0)
    ensures var r := ArmMovement(w.ctl, delay);
            && r.timers.now == w.ctl.timers.now && r.current == w.ctl.current
            && forall g: Handle :: g != MOVE_TIMEOUT ==> For(r.timers.live, g) == For(w.ctl.timers.live, g)
  {
    hide Chain, Limited, Arbitrated, Counted, Graced, For, Insert, Sound, Fits;
    OwnArm(w.ctl.timers, SysOf(w), RULES, MOVE_TIMEOUT, w.ctl.timers.now + delay, 0, 0);
  }

  lemma CancelLeaves(w: World)
    requires Mid(w, 0)
    ensures var r := CancelMovement(w.ctl);
            && Mid(w.(ctl := r), 0) && r.timers.now == w.ctl.timers.now && r.current == w.ctl.current
            && forall g: Handle :: g != MOVE_TIMEOUT ==> For(r.timers.live, g) == For(w.ctl.timers.live, g)
  {
    hide Chain, Arbitrated, Counted, Graced, Remove, For, Belongs, Sound;
    CancelMovementKeeps(w);
    MidLimited(w);
    CancelVariable(SysOf(w), RULES, w.ctl.movement, MOVE_TIMEOUT);
  }

  lemma ProcessSends(w: World, ev: DoorEvent, mid: seq<EnvOp>)
    requires Mid(w, 0) && w.queues[COMMAND] == []
    ensures |w.ctl.rows| == |ROWS|
    ensures var r := ProcessDoor(w, ev, mid);
            Sends(w, r) && SendsNews(w, r)
  {
    hide Mid, Enter, Around, Settle, For, Sends;
    MidIs(w, 0);
    var v := w.(ctl := Enter(w.ctl, ev));
    EnterKeeps(w, ev);
    EnterSends(w, ev);
    AroundSends(v, mid, 0);
    AroundLeaves(v, mid, 0);
    var u := Around(v, mid);
    SettleSends(w.ctl.door, ev, u);
    var r := u.(ctl := Settle(w.ctl.door, ev, u.ctl));
    SendsTwice(w, v, u);
    SendsTwice(w, u, r);
  }

  /** A transmission is followed by the next 100 ms later, whether the bus was busy or not, until the stop. */
  lemma TransmissionRepeats(w: World, busy: bool, mid: seq<EnvOp>)
    requires Mid(w, 1)
    ensures var r := ProcessSend(w, busy, mid);
            Sends(w, r) && (if w.ctl.stop then r == w else SendsAt(r.ctl, r.ctl.timers.now + 100))
  {
    hide Chain, Limited, Arbitrated, Counted, Graced, For, Insert, Sound, Around, CommsError, Belongs, Sends;
    MidIs(w, 1);
    SameTimersSend(w, w);
    if !w.ctl.stop {
      var v := if busy then ProcessError(w) else w;
      if busy {
        ProcessErrorKeeps(w, 1);
      }
      SameTimersSend(w, v);
      AroundSends(v, mid, 1);
      AroundLeaves(v, mid, 1);
      SendsNext(Around(v, mid));
      SendsTwice(w, v, Around(v, mid));
      SendsTwice(w, Around(v, mid), ProcessSend(w, busy, mid));
    }
  }

  lemma SendsNext(w: World)
    requires Mid(w, 1)
    ensures var r := w.(ctl := ArmSend(w.ctl)); Sends(w, r) && SendsAt(r.ctl, r.ctl.timers.now + 100)
  {
    hide Limited, Arbitrated, Counted, Graced, For, Insert, Sound, Belongs;
    MidIs(w, 1);
    OwnArm(w.ctl.timers, SysOf(w), RULES, COMMAND, w.ctl.timers.now + 100, 0, 0);
  }

  /** What any call but the timer handler's does. */
  lemma CallSends(w: World, call: Notice, busy: bool, mid: seq<EnvOp>)
    requires call.handle < |CAPS| && call.handle != TIMER && Mid(w, if call.handle == COMMAND then 1 else 0)
    requires PRIORITIES[call.handle] < PRIORITIES[COMMAND] ==> |w.queues| == |CAPS| && w.queues[COMMAND] == []
    ensures |w.ctl.rows| == |ROWS|
    ensures var r := Call(w, call, busy, mid);
            && Sends(w, r)
            && (if call.handle == COMMAND && !w.ctl.stop then r.ctl.current == w.ctl.current && SendsAt(r.ctl, r.ctl.timers.now + 100)
                else SendsNews(w, r))
  {
    hide Mid, ProcessDoor, ProcessSend, InputChange, CommsError, GoodRead, For, Sends, SendsAt;
    var h := call.handle;
    MidIs(w, if h == COMMAND then 1 else 0);
    SameTimersSend(w, w);
    if h == COMMAND {
      TransmissionRepeats(w, busy, mid);
      SendKeepsCommand(w, busy, mid);
    } else if h == SENSOR {
      ProcessSends(w, SensorEvent(PinOf(call.arg), ValueOf(call.arg)).1, mid);
    } else if h == DOOR {
      ProcessSends(w, if ValueOf(call.arg) then Open else Close, mid);
    } else if h == MOVE_TIMEOUT {
      ProcessSends(w, Timeout, mid);
    } else if h == INPUT {
      MidChain(w);
      InputSends(w, PinOf(call.arg), ValueOf(call.arg));
    } else {
      ErrorsSendNothing(w);
      SameTimersSend(w, Call(w, call, busy, mid));
    }
  }

  lemma SendKeepsCommand(w: World, busy: bool, mid: seq<EnvOp>)
    ensures ProcessSend(w, busy, mid).ctl.current == w.ctl.current
  {
    hide HappenAll, Insert;
  }

  lemma ErrorsSendNothing(w: World)
    ensures ProcessError(w).queues == w.queues && ProcessError(w).ctl.timers == w.ctl.timers
    ensures ProcessError(w).ctl.current == w.ctl.current
    ensures GoodRead(w.ctl).timers == w.ctl.timers && GoodRead(w.ctl).current == w.ctl.current
  {
  }

  // ---------------------------------------------------------------------------------------------
  // Over runs

  /** No transmission is armed further ahead than 100 ms. */
  ghost predicate OnTime(w: World) {
    forall f :: f in For(w.ctl.timers.live, COMMAND) ==> f.count <= w.ctl.timers.now + 100
  }

  lemma SendsKeepsOnTime(w: World, r: World, end: nat)
    requires Sends(w, r) && OnTime(w) && Forgiving(w, end) && (r.ctl.grace ==> w.ctl.grace)
    ensures OnTime(r) && Forgiving(r, end)
  {
  }

  lemma DispatchKeepsOnTime(w: World, end: nat)
    requires Mid(w, 0) && |w.queues| == |CAPS| && OnTime(w) && Forgiving(w, end)
    ensures var r := WithSys(w, DispatchTimers(SysOf(w), RULES)); |r.queues| == |CAPS| && OnTime(r) && Forgiving(r, end)
  {
    hide Chain, Limited, Arbitrated, Counted, Graced, Guarded, For, Fire, ToldEach, Sound, PushedAll, Args;
    var t, b := w.ctl.timers, Fire(w.ctl.timers.live, w.ctl.timers.next, w.ctl.timers.now);
    MidChain(w);
    ChainOnce(w);
    DispatchEffect(SysOf(w), RULES, COMMAND);
    assert forall f :: f in For(b.live, COMMAND) ==> f in For(t.live, COMMAND);
    DispatchEffect(SysOf(w), RULES, GRACE_OVER);
    if f :| For(t.live, GRACE_OVER) == [f] && f.repeat == 0 && f.count == end {
      ForFireSingle(t.live, t.next, t.now, GRACE_OVER);
    }
  }

  lemma ChainOnce(w: World)
    requires |w.queues| == |CAPS| && Chain(w, 0)
    ensures OneShot(w.ctl.timers.live, COMMAND)
  {
  }

  lemma TakenOnTime(w: World, v: World, end: nat)
    requires |w.queues| == |v.queues| == |CAPS| && OnTime(w) && Forgiving(w, end) && w.ctl.timers.now <= v.ctl.timers.now
    requires v.ctl.grace == w.ctl.grace && For(v.ctl.timers.live, COMMAND) == For(w.ctl.timers.live, COMMAND)
    requires For(v.ctl.timers.live, GRACE_OVER) == For(w.ctl.timers.live, GRACE_OVER)
    ensures OnTime(v) && (v.queues[GRACE_OVER] == w.queues[GRACE_OVER] ==> Forgiving(v, end))
  {
    hide For;
  }

  lemma DispatchIsCall(w: World, call: Notice, busy: bool, mid: seq<EnvOp>)
    requires call.handle == TIMER && |w.ctl.rows| == |ROWS|
    ensures Call(w, call, busy, mid) == WithSys(w, DispatchTimers(SysOf(w), RULES))
  {
    hide DispatchTimers;
  }

  lemma GraceEnds(w: World, call: Notice, busy: bool, mid: seq<EnvOp>, end: nat)
    requires call.handle == GRACE_OVER && |w.ctl.rows| == |ROWS| && |w.queues| == |CAPS| && OnTime(w)
    ensures var r := Call(w, call, busy, mid); |r.queues| == |CAPS| && OnTime(r) && Forgiving(r, end)
  {
    hide For;
  }

  lemma StepKeepsOnTime(order: seq<Handle>, w: World, e: Activity, end: nat)
    requires IsSchedule(order, PRIORITIES) && Inv(w) && |w.queues| == |CAPS| && |w.ctl.rows| == |ROWS|
    requires OnTime(w) && Forgiving(w, end)
    ensures |Step(order, w, e).queues| == |CAPS| && OnTime(Step(order, w, e)) && Forgiving(Step(order, w, e), end)
  {
    hide Mid, Guarded, Call, Around, For, Pick, OnTime, Forgiving, Sends, SendsAt;
    if Busy(order, w, e) {
      var v := RoundCalls(order, w, e);
      var call := CalledWith(order, w, e);
      var r := Call(v, call, e.busy, e.mid);
      TakenOnTime(w, v, end);
      CallCounts(v, call, e.busy, e.mid);
      if call.handle == TIMER {
        DispatchKeepsOnTime(v, end);
        DispatchIsCall(v, call, e.busy, e.mid);
      } else if call.handle == GRACE_OVER {
        GraceEnds(v, call, e.busy, e.mid, end);
      } else {
        CallSends(v, call, e.busy, e.mid);
        SendsKeepsOnTime(v, r, end);
      }
      MidIs(r, 0);
      AroundSends(r, e.after, 0);
      AroundLeaves(r, e.after, 0);
      SendsKeepsOnTime(r, Around(r, e.after), end);
    } else if e.Asleep? {
      AroundSends(w, e.env, 0);
      AroundLeaves(w, e.env, 0);
      SendsKeepsOnTime(w, Around(w, e.env), end);
    }
  }

  lemma StartOnTime(env: seq<EnvOp>) returns (end: nat)
    ensures |Start(env).queues| == |CAPS| && OnTime(Start(env)) && Forgiving(Start(env), end)
    ensures end == Around(Boot(), env).ctl.timers.now + 5000
  {
    hide HappenAll, For, Insert, Base, Counted, Arbitrated;
    var w := Around(Boot(), env);
    end := w.ctl.timers.now + 5000;
    BootIsSound();
    RestKept(Boot(), env);
    RestingQueues(w);
    var t := w.ctl.timers;
    var c, g := Future(COMMAND, t.next, t.now + 1, 0, 0), Future(GRACE_OVER, t.next + 1, t.now + 5000, 0, 0);
    ForInsert(t.live, c, COMMAND);
    ForInsert(t.live, c, GRACE_OVER);
    ForInsert(Insert(t.live, c), g, COMMAND);
    ForInsert(Insert(t.live, c), g, GRACE_OVER);
    assert Start(env).ctl.timers.live == Insert(Insert(t.live, c), g);
    InsertOne(c);
    InsertOne(g);
  }

  lemma RestingQueues(w: World)
    requires Resting(w)
    ensures |w.queues| == |CAPS| && For(w.ctl.timers.live, GRACE_OVER) == []
  {
  }

  lemma InsertOne(e: Future)
    ensures Insert([], e) == [e]
  {
  }

  /**
   In every run a transmission is pending until the stop, at most 100 ms ahead, and the grace period's end
   stays armed for 5 s after start-up, or queued, until it has been called.
   */
  lemma {:induction false} SendsOnTime(order: seq<Handle>, env: seq<EnvOp>, events: seq<Activity>)
    requires IsSchedule(order, PRIORITIES)
    ensures var w := Run(order, env, events);
            && Inv(w) && |w.queues| == |CAPS| && OnTime(w)
            && (!w.ctl.stop ==> w.queues[COMMAND] != [] || For(w.ctl.timers.live, COMMAND) != [])
            && Forgiving(w, Around(Boot(), env).ctl.timers.now + 5000)
  {
    hide Mid, Guarded, Step, OnTime, Forgiving, For;
    RunsKeepInv(order, env, events);
    if events == [] {
      var end := StartOnTime(env);
    } else {
      var before := events[..|events| - 1];
      SendsOnTime(order, env, before);
      StepKeepsOnTime(order, Run(order, env, before), events[|events| - 1], Around(Boot(), env).ctl.timers.now + 5000);
    }
    if !Run(order, env, events).ctl.stop {
      SomePending(Run(order, env, events));
    }
  }

  lemma SomePending(w: World)
    requires Inv(w) && |w.queues| == |CAPS| && !w.ctl.stop
    ensures w.queues[COMMAND] != [] || For(w.ctl.timers.live, COMMAND) != []
  {
  }
}
