/**
 What a reset of the movement timer is worth. README.md line 59 of the repository asks that an expiry
 of an ongoing timer then does nothing; this module says exactly when that is so.
 */
module DoorResets {
  import opened TimerModel
  import opened RingQueues
  import opened ReactorModel
  import opened Runtime
  import opened ControllerModel
  import opened ControllerRuns
  import opened ControllerPace
  import opened Pins

  // ---------------------------------------------------------------------------------------------
  // Expiries and deliveries of movement timeouts in a continuation

  /** The movement timers that a step's dispatch notifies. */
  ghost function Expiries(order: seq<Handle>, w: World, e: Activity): seq<Future>
    requires |w.queues| == |CAPS| && IsPermutation(order, |CAPS|)
  {
    if !Calls(order, w, e, TIMER) then []
    else
      var t := Around(w, e.isr).ctl.timers;
      For(Fire(t.live, t.next, t.now).notes, MOVE_TIMEOUT)
  }

  ghost function Expired(order: seq<Handle>, w: World, events: seq<Activity>): seq<Future>
    requires |w.ctl.rows| == |ROWS| && |w.queues| == |CAPS| && IsPermutation(order, |CAPS|)
  {
    if events == [] then []
    else
      var before := events[..|events| - 1];
      Expired(order, w, before) + Expiries(order, RunFrom(order, w, before), events[|events| - 1])
  }

  /** How often the state machine is given a timeout. */
  ghost function Delivered(order: seq<Handle>, w: World, events: seq<Activity>): nat
    requires |w.ctl.rows| == |ROWS| && |w.queues| == |CAPS| && IsPermutation(order, |CAPS|)
  {
    if events == [] then 0
    else
      var before := events[..|events| - 1];
      Delivered(order, w, before) + if Calls(order, RunFrom(order, w, before), events[|events| - 1], MOVE_TIMEOUT) then 1 else 0
  }

  // ---------------------------------------------------------------------------------------------
  // What one call does to the movement timeouts

  /**
   Any timer added has a new instance, and one that the variable does not name stays, and stays
   unnamed; the queue is as before.
   */
  ghost predicate MovesOn(w: World, r: World) {
    && |w.queues| == |r.queues| == |CAPS| && r.queues[MOVE_TIMEOUT] == w.queues[MOVE_TIMEOUT]
    && w.ctl.timers.next <= r.ctl.timers.next
    && (r.ctl.movement == w.ctl.movement || (r.ctl.movement.Armed? && w.ctl.timers.next <= r.ctl.movement.id))
    && (forall f :: f in For(r.ctl.timers.live, MOVE_TIMEOUT) ==>
          f in For(w.ctl.timers.live, MOVE_TIMEOUT) || w.ctl.timers.next <= f.instance)
    && (forall f :: f in For(w.ctl.timers.live, MOVE_TIMEOUT) && w.ctl.movement != Armed(f.instance) ==>
          f in For(r.ctl.timers.live, MOVE_TIMEOUT))
  }

  /** No timer is added. */
  ghost predicate Spared(w: World, r: World) {
    && |w.queues| == |r.queues| == |CAPS| && r.queues[MOVE_TIMEOUT] == w.queues[MOVE_TIMEOUT]
    && w.ctl.timers.next <= r.ctl.timers.next && r.ctl.movement == w.ctl.movement
    && For(r.ctl.timers.live, MOVE_TIMEOUT) == For(w.ctl.timers.live, MOVE_TIMEOUT)
  }

  lemma SparedMovesOn(w: World, r: World)
    requires Spared(w, r)
    ensures MovesOn(w, r)
  {
  }

  lemma SparedThen(w: World, v: World, r: World)
    requires Spared(w, v) && MovesOn(v, r)
    ensures MovesOn(w, r)
  {
  }

  /** Instances of live timers were given out, so a new one is not among them. */
  lemma InstancesGiven(w: World)
    requires Mid(w, 0) || Mid(w, 1)
    ensures forall f :: f in For(w.ctl.timers.live, MOVE_TIMEOUT) ==> f.instance < w.ctl.timers.next
  {
    hide Chain, Arbitrated, Counted, Graced;
    ForMembers(w.ctl.timers.live, MOVE_TIMEOUT);
    forall f | f in w.ctl.timers.live
      ensures f.instance < w.ctl.timers.next
    {
      var k :| 0 <= k < |w.ctl.timers.live| && w.ctl.timers.live[k] == f;
    }
  }

  lemma AroundSpares(w: World, env: seq<EnvOp>, held: nat)
    requires Mid(w, held)
    ensures Spared(w, Around(w, env)) && Mid(Around(w, env), held)
    ensures Around(w, env).ctl.door == w.ctl.door && |w.ctl.rows| == |Around(w, env).ctl.rows| == |ROWS|
  {
    hide Chain, Arbitrated, Counted, Graced, HappenAll, For, Sound;
    MidIs(w, held);
    HappenAllKeeps(SysOf(w), RULES, env);
    AroundKeeps(w, env, held);
    assert MOVE_TIMEOUT in RULES.own;
  }

  lemma SendSpares(w: World)
    requires Mid(w, 1)
    ensures Spared(w, w.(ctl := ArmSend(w.ctl)))
  {
    hide Chain, Arbitrated, Counted, Graced, Sound, For, Insert;
    var t := w.ctl.timers;
    OwnArm(t, SysOf(w), RULES, COMMAND, t.now + SEND_PERIOD, 0, 0);
  }

  lemma TriggerSpares(w: World)
    requires Base(SysOf(w), RULES) && Belongs(w.ctl.timers, w.ctl.transmit, COMMAND)
    ensures Spared(w, w.(ctl := Trigger(w.ctl)))
  {
    hide Sound, For, Insert, Remove;
    TriggerIs(w);
    var t := CancelInstance(w.ctl.timers, w.ctl.transmit);
    CancelVariable(SysOf(w), RULES, w.ctl.transmit, COMMAND);
    OwnArm(t, SysOf(w).(timers := t), RULES, COMMAND, t.now + 1, 0, 0);
  }

  lemma InputSpares(w: World, pin: int, value: bool)
    requires Base(SysOf(w), RULES) && Belongs(w.ctl.timers, w.ctl.transmit, COMMAND) && |w.ctl.rows| == |ROWS|
    ensures Spared(w, w.(ctl := InputChange(w.ctl, pin, value)))
  {
    hide For, Insert, Remove, Trigger, Sound;
    if 0 <= pin < |ROWS| {
      var c := w.ctl.(rows := w.ctl.rows[pin := value]);
      var cmd := FirstActive(c.rows, ROWS);
      if c.current != cmd {
        var v := w.(ctl := c.(current := cmd));
        assert SysOf(v) == SysOf(w);
        TriggerSpares(v);
      }
    }
  }

  lemma EnterSpares(w: World, ev: DoorEvent)
    requires Mid(w, 0)
    ensures Spared(w, w.(ctl := Enter(w.ctl, ev)))
  {
    hide Chain, Arbitrated, Counted, Graced, Limited, InputChange, For, Base, Belongs;
    BelongsTransmit(w);
    var d := Transition(w.ctl.door, ev).1;
    var v := w.(ctl := w.ctl.(door := d));
    assert SysOf(v) == SysOf(w);
    MidIs(w, 0);
    InputSpares(v, DOOR_UP, true);
    InputSpares(v, DOOR_DOWN, true);
    InputSpares(v, DOOR_UP, false);
    InputSpares(v, DOOR_DOWN, false);
  }

  lemma BelongsTransmit(w: World)
    requires Mid(w, 0)
    ensures Belongs(w.ctl.timers, w.ctl.transmit, COMMAND)
  {
  }

  /** What is added is due later. */
  ghost predicate NewAhead(w: World, r: World) {
    forall f :: f in For(r.ctl.timers.live, MOVE_TIMEOUT) ==>
      f in For(w.ctl.timers.live, MOVE_TIMEOUT) || (w.ctl.timers.next <= f.instance && r.ctl.timers.now < f.count)
  }

  lemma ArmMoves(w: World, delay: nat)
    requires Mid(w, 0) && 0 < delay
    ensures var r := w.(ctl := ArmMovement(w.ctl, delay)); MovesOn(w, r) && NewAhead(w, r)
  {
    hide Chain, Arbitrated, Counted, Graced, Limited, Insert, For, Belongs, Sound;
    MidIs(w, 0);
    var t := w.ctl.timers;
    OwnArm(t, SysOf(w), RULES, MOVE_TIMEOUT, t.now + delay, 0, 0);
  }

  lemma CancelMoves(w: World)
    requires Mid(w, 0)
    ensures var r := w.(ctl := CancelMovement(w.ctl));
            && Mid(r, 0) && MovesOn(w, r) && r.ctl.timers.next == w.ctl.timers.next && r.ctl.movement == w.ctl.movement
            && r.ctl.timers.now == w.ctl.timers.now
            && forall f :: f in For(r.ctl.timers.live, MOVE_TIMEOUT) <==>
                           f in For(w.ctl.timers.live, MOVE_TIMEOUT) && w.ctl.movement != Armed(f.instance)
  {
    hide Chain, Arbitrated, Counted, Graced, Remove, For, Belongs, Sound;
    MidIs(w, 0);
    CancelMovementKeeps(w);
    MidLimited(w);
    CancelVariable(SysOf(w), RULES, w.ctl.movement, MOVE_TIMEOUT);
  }

  lemma MidLimited(w: World)
    requires Mid(w, 0)
    ensures Belongs(w.ctl.timers, w.ctl.movement, MOVE_TIMEOUT) && OneShot(w.ctl.timers.live, MOVE_TIMEOUT)
  {
  }

  lemma CancelThenArm(w: World, v: World, r: World)
    requires MovesOn(w, v) && v.ctl.timers.next == w.ctl.timers.next && v.ctl.movement == w.ctl.movement
    requires forall f :: f in For(v.ctl.timers.live, MOVE_TIMEOUT) ==>
               f in For(w.ctl.timers.live, MOVE_TIMEOUT) && w.ctl.movement != Armed(f.instance)
    requires MovesOn(v, r) && NewAhead(v, r)
    ensures MovesOn(w, r) && NewAhead(w, r)
  {
  }

  lemma SettleMoves(before: Door, ev: DoorEvent, w: World)
    requires Mid(w, 0)
    ensures var r := w.(ctl := Settle(before, ev, w.ctl)); MovesOn(w, r) && NewAhead(w, r)
  {
    hide Mid, MovesOn, NewAhead, For, ArmMovement, CancelMovement;
    var (known, d) := Transition(before, ev);
    StaysPut(w);
    if known && Moves(d) && !Moves(before) {
      ArmMoves(w, MOVING_TIMEOUT);
    } else if known && Moves(d) {
      CancelMoves(w);
      var v := w.(ctl := CancelMovement(w.ctl));
      ArmMoves(v, COMPLETE_TIMEOUT);
      CancelThenArm(w, v, v.(ctl := ArmMovement(v.ctl, COMPLETE_TIMEOUT)));
    } else if known && Moves(before) && ev != Timeout {
      CancelMoves(w);
      CancelsAhead(w);
    }
  }

  lemma StaysPut(w: World)
    requires Mid(w, 0)
    ensures MovesOn(w, w) && NewAhead(w, w)
  {
  }

  lemma CancelsAhead(w: World)
    requires Mid(w, 0)
    ensures NewAhead(w, w.(ctl := CancelMovement(w.ctl)))
  {
    hide Mid, For, CancelMovement;
    CancelMoves(w);
  }

  lemma SparedThenAhead(w: World, v: World, r: World)
    requires Spared(w, v) && NewAhead(v, r)
    ensures NewAhead(w, r)
  {
  }

  lemma ProcessMoves(w: World, ev: DoorEvent, mid: seq<EnvOp>)
    requires Mid(w, 0) && w.queues[COMMAND] == []
    ensures var r := ProcessDoor(w, ev, mid); MovesOn(w, r) && NewAhead(w, r)
  {
    hide Mid, MovesOn, NewAhead, Spared, For, Enter, Around, Settle;
    MidIs(w, 0);
    var v := w.(ctl := Enter(w.ctl, ev));
    EnterKeeps(w, ev);
    EnterSpares(w, ev);
    AroundSpares(v, mid, 0);
    var u := Around(v, mid);
    SettleMoves(w.ctl.door, ev, u);
    var r := u.(ctl := Settle(w.ctl.door, ev, u.ctl));
    SparedThen(v, u, r);
    SparedThen(w, v, r);
    SparedThenAhead(v, u, r);
    SparedThenAhead(w, v, r);
  }

  lemma SparedAhead(w: World, r: World)
    requires Spared(w, r)
    ensures NewAhead(w, r)
  {
  }

  lemma SameTimersSpared(w: World, r: World)
    requires |w.queues| == |CAPS| && r.queues == w.queues && r.ctl.timers == w.ctl.timers && r.ctl.movement == w.ctl.movement
    ensures Spared(w, r)
  {
  }

  lemma SpareTwice(w: World, v: World, r: World)
    requires Spared(w, v) && Spared(v, r)
    ensures Spared(w, r)
  {
  }

  lemma SendCallSpares(w: World, busy: bool, mid: seq<EnvOp>)
    requires Mid(w, 1)
    ensures Spared(w, ProcessSend(w, busy, mid))
  {
    hide Mid, Spared, For, Around, ArmSend, CommsError;
    MidIs(w, 1);
    SameTimersSpared(w, w);
    if !w.ctl.stop {
      var v := if busy then ProcessError(w) else w;
      ErrorSpares(w);
      if busy {
        ProcessErrorKeeps(w, 1);
      }
      AroundSpares(v, mid, 1);
      SendSpares(Around(v, mid));
      SpareTwice(w, v, Around(v, mid));
      SpareTwice(w, Around(v, mid), Around(v, mid).(ctl := ArmSend(Around(v, mid).ctl)));
    }
  }

  lemma ErrorSpares(w: World)
    requires |w.queues| == |CAPS|
    ensures Spared(w, ProcessError(w)) && Spared(w, w.(ctl := GoodRead(w.ctl), log := w.log + [-1]))
  {
  }

  /** Every call but that of the timer handler. */
  lemma CallMoves(w: World, call: Notice, busy: bool, mid: seq<EnvOp>)
    requires call.handle < |CAPS| && call.handle != TIMER && Mid(w, if call.handle == COMMAND then 1 else 0)
    requires PRIORITIES[call.handle] < PRIORITIES[COMMAND] ==> |w.queues| == |CAPS| && w.queues[COMMAND] == []
    ensures var r := Call(w, call, busy, mid); MovesOn(w, r) && NewAhead(w, r)
  {
    hide Mid, MovesOn, NewAhead, Spared, For, ProcessDoor, ProcessSend, InputChange, GoodRead, CommsError;
    MidIs(w, if call.handle == COMMAND then 1 else 0);
    var h, r := call.handle, Call(w, call, busy, mid);
    SameTimersSpared(w, w);
    if h == SENSOR || h == DOOR || h == MOVE_TIMEOUT {
      var (known, ev) := SensorEvent(PinOf(call.arg), ValueOf(call.arg));
      ProcessMoves(w, if h == DOOR then if ValueOf(call.arg) then Open else Close else if h == SENSOR then ev else Timeout, mid);
    } else if h == COMMAND {
      SendCallSpares(w, busy, mid);
    } else if h == INPUT {
      BelongsTransmit(w);
      InputSpares(w, PinOf(call.arg), ValueOf(call.arg));
    } else if h == READ || h == COMMS_ERROR {
      ErrorSpares(w);
    } else if h == GRACE_OVER {
      SameTimersSpared(w, r);
    }
    if !(h == SENSOR || h == DOOR || h == MOVE_TIMEOUT) {
      SparedMovesOn(w, r);
      SparedAhead(w, r);
    } else {
      SparedMovesOn(w, w);
      SparedAhead(w, w);
    }
  }

  // ---------------------------------------------------------------------------------------------
  // What one step does

  /**
   From w to r the timers x expired, and a timeout was delivered or not. Timers added are new; those
   the variable does not name leave the list only by expiring; and what is queued was queued before or
   has expired now.
   */
  ghost predicate Moved(w: World, r: World, x: seq<Future>, delivered: bool) {
    && |w.queues| == |r.queues| == |CAPS| && w.ctl.timers.next <= r.ctl.timers.next
    && (r.ctl.movement == w.ctl.movement || (r.ctl.movement.Armed? && w.ctl.timers.next <= r.ctl.movement.id))
    && (forall f :: f in For(r.ctl.timers.live, MOVE_TIMEOUT) ==>
          f in For(w.ctl.timers.live, MOVE_TIMEOUT) || w.ctl.timers.next <= f.instance)
    && (forall f :: f in x ==> f in For(w.ctl.timers.live, MOVE_TIMEOUT))
    && (forall f :: f in For(w.ctl.timers.live, MOVE_TIMEOUT) && w.ctl.movement != Armed(f.instance) ==>
          f in For(r.ctl.timers.live, MOVE_TIMEOUT) || f in x)
    && |r.queues[MOVE_TIMEOUT]| + (if delivered then 1 else 0) <= |w.queues[MOVE_TIMEOUT]| + |x|
    && (w.queues[MOVE_TIMEOUT] != [] && !delivered ==> r.queues[MOVE_TIMEOUT] != [])
  }

  lemma SparedMoved(w: World, r: World)
    requires Spared(w, r)
    ensures Moved(w, r, [], false)
  {
  }

  lemma MovesOnMoved(w: World, r: World)
    requires MovesOn(w, r)
    ensures Moved(w, r, [], false)
  {
  }

  lemma SparedThenMoved(w: World, v: World, r: World, x: seq<Future>, delivered: bool)
    requires Spared(w, v) && Moved(v, r, x, delivered)
    ensures Moved(w, r, x, delivered)
  {
  }

  lemma MovedThenSpared(w: World, v: World, r: World, x: seq<Future>, delivered: bool)
    requires Moved(w, v, x, delivered) && Spared(v, r)
    ensures Moved(w, r, x, delivered)
  {
  }

  /** A dispatch expires exactly what is due. */
  lemma DispatchMoves(w: World)
    requires Mid(w, 0)
    ensures var r, t := WithSys(w, DispatchTimers(SysOf(w), RULES)), w.ctl.timers;
            var x := For(Fire(t.live, t.next, t.now).notes, MOVE_TIMEOUT);
            && Moved(w, r, x, false) && r.queues[TIMER] == w.queues[TIMER]
            && r.ctl.timers.now == w.ctl.timers.now && r.ctl == w.ctl.(timers := r.ctl.timers)
            && (forall f :: f in x ==> f.count <= w.ctl.timers.now)
            && (forall f :: f in For(t.live, MOVE_TIMEOUT) && f.count <= t.now ==> f in x)
            && (forall f :: f in For(r.ctl.timers.live, MOVE_TIMEOUT) ==> f in For(t.live, MOVE_TIMEOUT) && t.now < f.count)
  {
    hide Mid, Fire, For, DispatchTimers, PushedAll, Args;
    var s, t := SysOf(w), w.ctl.timers;
    DispatchFacts(w);
    PushedAllGrows(s.queues[MOVE_TIMEOUT], CAPS[MOVE_TIMEOUT], Args(For(Fire(t.live, t.next, t.now).notes, MOVE_TIMEOUT)));
  }

  lemma DispatchFacts(w: World)
    requires Mid(w, 0)
    ensures |w.queues| == |CAPS| && |w.queues[MOVE_TIMEOUT]| <= CAPS[MOVE_TIMEOUT]
    ensures var t, r := w.ctl.timers, DispatchTimers(SysOf(w), RULES);
            var b := Fire(t.live, t.next, t.now);
            && |r.queues| == |CAPS| && r.queues[TIMER] == w.queues[TIMER] && r.timers == Timers(t.now, b.live, b.next)
            && r.queues[MOVE_TIMEOUT] == PushedAll(w.queues[MOVE_TIMEOUT], CAPS[MOVE_TIMEOUT], Args(For(b.notes, MOVE_TIMEOUT)))
            && For(t.live, MOVE_TIMEOUT) == For(b.notes, MOVE_TIMEOUT) + For(b.live, MOVE_TIMEOUT)
            && t.next <= b.next && (forall f :: f in For(b.live, MOVE_TIMEOUT) ==> t.now < f.count)
            && (forall f :: f in For(b.notes, MOVE_TIMEOUT) ==> f.count <= t.now)
  {
    hide Chain, Arbitrated, Counted, Graced, ToldEach, Belongs, Insert, Fire, For, Sound;
    MidIs(w, 0);
    MidLimited(w);
    DispatchEffect(SysOf(w), RULES, MOVE_TIMEOUT);
    DispatchSplits(w);
    NoTimersFor(SysOf(w), RULES, TIMER);
    DispatchNotDue(SysOf(w), RULES, TIMER);
  }

  lemma DispatchSplits(w: World)
    requires Base(SysOf(w), RULES) && OneShot(w.ctl.timers.live, MOVE_TIMEOUT)
    ensures var t := w.ctl.timers;
            var b := Fire(t.live, t.next, t.now);
            && For(t.live, MOVE_TIMEOUT) == For(b.notes, MOVE_TIMEOUT) + For(b.live, MOVE_TIMEOUT)
            && t.next <= b.next && forall f :: f in For(b.live, MOVE_TIMEOUT) ==> t.now < f.count
  {
    var t := w.ctl.timers;
    var b := Fire(t.live, t.next, t.now);
    ForFire(t.live, t.next, t.now, MOVE_TIMEOUT);
    FireSound(t.live, t.next, t.now);
    ForMembers(b.live, MOVE_TIMEOUT);
  }

  lemma {:induction false} PushedAllGrows(q: seq<int>, cap: nat, args: seq<int>)
    requires 1 <= cap && |q| <= cap
    ensures |PushedAll(q, cap, args)| <= |q| + |args|
    decreases |args|
  {
    if args != [] {
      PushedAllGrows(PushedRing(q, cap, args[0]), cap, args[1..]);
    }
  }

  /** Taking an item off its queue. */
  lemma PopMoves(w: World, h: Handle)
    requires Inv(w) && h < |CAPS| && w.queues[h] != []
    ensures var r := w.(queues := Popped(w.queues, h));
            && |r.queues| == |w.queues| == |CAPS| && r.ctl == w.ctl
            && (h != MOVE_TIMEOUT ==> Spared(w, r))
            && (h == MOVE_TIMEOUT ==> |r.queues[h]| + 1 == |w.queues[h]|)
            && Mid(r, if h == COMMAND then 1 else 0) && (h == COMMAND ==> r.queues[COMMAND] == [])
  {
    PopKeepsMid(w, h);
  }

  lemma DeliveryMoves(w: World, v: World, r: World)
    requires |w.queues| == |v.queues| == |CAPS| && v.ctl == w.ctl && |v.queues[MOVE_TIMEOUT]| + 1 == |w.queues[MOVE_TIMEOUT]|
    requires MovesOn(v, r)
    ensures Moved(w, r, [], true)
  {
  }

  /** A handler's call, from the state in which it is chosen. */
  lemma TakenMoves(w: World, call: Notice, busy: bool, mid: seq<EnvOp>)
    requires Inv(w) && call.handle < |CAPS| && w.queues[call.handle] != []
    requires PRIORITIES[call.handle] < PRIORITIES[COMMAND] ==> w.queues[COMMAND] == []
    ensures var v := w.(queues := Popped(w.queues, call.handle));
            var x := if call.handle == TIMER
                     then For(Fire(w.ctl.timers.live, w.ctl.timers.next, w.ctl.timers.now).notes, MOVE_TIMEOUT) else [];
            Moved(w, Call(v, call, busy, mid), x, call.handle == MOVE_TIMEOUT)
  {
    hide Mid, Guarded, Moved, MovesOn, Spared, NewAhead, For, Fire, DispatchTimers, Enter, Settle, ProcessDoor, ProcessSend, InputChange;
    var h := call.handle;
    MidIs(w, 0);
    PopMoves(w, h);
    var v := w.(queues := Popped(w.queues, h));
    MidIs(v, if h == COMMAND then 1 else 0);
    if h == TIMER {
      DispatchMoves(v);
      SparedThenMoved(w, v, Call(v, call, busy, mid),
                      For(Fire(w.ctl.timers.live, w.ctl.timers.next, w.ctl.timers.now).notes, MOVE_TIMEOUT), false);
    } else {
      CallMoves(v, call, busy, mid);
      var r := Call(v, call, busy, mid);
      if h == MOVE_TIMEOUT {
        DeliveryMoves(w, v, r);
      } else {
        MovesOnMoved(v, r);
        SparedThenMoved(w, v, r, [], false);
      }
    }
  }

  lemma StepMoves(order: seq<Handle>, w: World, e: Activity)
    requires IsSchedule(order, PRIORITIES) && Inv(w)
    ensures |w.queues| == |CAPS| && |w.ctl.rows| == |ROWS|
    ensures Moved(w, Step(order, w, e), Expiries(order, w, e), Calls(order, w, e, MOVE_TIMEOUT))
  {
    hide Mid, Guarded, Moved, Spared, For, Fire, Call, Around;
    MidIs(w, 0);
    match e
    case Asleep(env) =>
      AroundSpares(w, env, 0);
      SparedMoved(w, Around(w, env));
    case Round(isr, busy, mid, after) =>
      if Pick(order, w.queues) < |order| {
        RoundMoves(order, w, isr, busy, mid, after);
      } else {
        SameTimersSpared(w, w);
        SparedMoved(w, w);
      }
  }

  lemma RoundMoves(order: seq<Handle>, w: World, isr: seq<EnvOp>, busy: bool, mid: seq<EnvOp>, after: seq<EnvOp>)
    requires IsSchedule(order, PRIORITIES) && Inv(w) && |w.queues| == |CAPS| && |w.ctl.rows| == |ROWS|
    requires Pick(order, w.queues) < |order|
    ensures var e := Round(isr, busy, mid, after);
            Moved(w, Step(order, w, e), Expiries(order, w, e), Calls(order, w, e, MOVE_TIMEOUT))
  {
    hide Mid, Guarded, Moved, Spared, For, Fire, Call, Around, Pick;
    PickHas(order, w.queues);
    var h, w1 := order[Pick(order, w.queues)], Around(w, isr);
    AroundKeeps(w, isr, 0);
    AroundSpares(w, isr, 0);
    MidIs(w1, 0);
    assert COMMAND in RULES.own;
    if PRIORITIES[h] < PRIORITIES[COMMAND] {
      PickIsHighest(order, PRIORITIES, w.queues, COMMAND);
    }
    var call, x := Notice(h, w1.queues[h][0]), Expiries(order, w, Round(isr, busy, mid, after));
    var v := Call(w1.(queues := Popped(w1.queues, h)), call, busy, mid);
    TakenMoves(w1, call, busy, mid);
    TakenKeeps(w1, call, busy, mid);
    SparedThenMoved(w, w1, v, x, h == MOVE_TIMEOUT);
    AroundSpares(v, after, 0);
    MovedThenSpared(w, v, Around(v, after), x, h == MOVE_TIMEOUT);
  }

  lemma TakenKeeps(w: World, call: Notice, busy: bool, mid: seq<EnvOp>)
    requires Inv(w) && call.handle < |CAPS| && w.queues[call.handle] != [] && call.arg == w.queues[call.handle][0]
    requires PRIORITIES[call.handle] < PRIORITIES[COMMAND] ==> w.queues[COMMAND] == []
    ensures |w.ctl.rows| == |ROWS| && Inv(Call(w.(queues := Popped(w.queues, call.handle)), call, busy, mid))
  {
    assert call.arg in w.queues[call.handle];
    hide Chain, Limited, Arbitrated, Counted, Call, For, Sound;
    PopKeepsMid(w, call.handle);
    CallKeeps(w.(queues := Popped(w.queues, call.handle)), call, busy, mid);
  }

  // ---------------------------------------------------------------------------------------------
  // What is pending at a reset stays so

  /** A live timer that the variable does not name cannot be stopped: in every continuation it is live still or has expired. */
  lemma {:induction false} OrphanRemains(order: seq<Handle>, w: World, events: seq<Activity>, f: Future)
    requires IsSchedule(order, PRIORITIES) && Inv(w)
    requires f in For(w.ctl.timers.live, MOVE_TIMEOUT) && w.ctl.movement != Armed(f.instance)
    ensures |w.queues| == |CAPS| && |w.ctl.rows| == |ROWS|
    ensures var r := RunFrom(order, w, events);
            && (f in For(r.ctl.timers.live, MOVE_TIMEOUT) || f in Expired(order, w, events))
            && r.ctl.movement != Armed(f.instance) && f.instance < r.ctl.timers.next
  {
    hide Mid, Guarded, For, Expiries, Step;
    MidIs(w, 0);
    InstancesGiven(w);
    if events != [] {
      var before, e := events[..|events| - 1], events[|events| - 1];
      OrphanRemains(order, w, before, f);
      RunFromKeepsInv(order, w, before);
      StepMoves(order, RunFrom(order, w, before), e);
    }
  }

  /** A queued timeout stays queued until one is delivered. */
  lemma {:induction false} QueuedRemains(order: seq<Handle>, w: World, events: seq<Activity>)
    requires IsSchedule(order, PRIORITIES) && Inv(w) && w.queues[MOVE_TIMEOUT] != []
    ensures |w.queues| == |CAPS| && |w.ctl.rows| == |ROWS|
    ensures RunFrom(order, w, events).queues[MOVE_TIMEOUT] != [] || Delivered(order, w, events) > 0
  {
    hide Mid, Guarded, For, Expiries, Step, Calls;
    MidIs(w, 0);
    if events != [] {
      var before, e := events[..|events| - 1], events[|events| - 1];
      QueuedRemains(order, w, before);
      RunFromKeepsInv(order, w, before);
      StepMoves(order, RunFrom(order, w, before), e);
    }
  }

  /**
   From a state with nothing pending but what was armed from limit on, only such timers expire, and
   each is delivered at most once.
   */
  lemma {:induction false} OnlyNewExpire(order: seq<Handle>, w: World, events: seq<Activity>, limit: nat)
    requires IsSchedule(order, PRIORITIES) && Inv(w) && w.queues[MOVE_TIMEOUT] == [] && limit <= w.ctl.timers.next
    requires forall f :: f in For(w.ctl.timers.live, MOVE_TIMEOUT) ==> limit <= f.instance
    ensures |w.queues| == |CAPS| && |w.ctl.rows| == |ROWS|
    ensures var r, x := RunFrom(order, w, events), Expired(order, w, events);
            && (forall f :: f in x ==> limit <= f.instance) && limit <= r.ctl.timers.next
            && (forall f :: f in For(r.ctl.timers.live, MOVE_TIMEOUT) ==> limit <= f.instance)
            && Delivered(order, w, events) + |r.queues[MOVE_TIMEOUT]| <= |x|
  {
    hide Mid, Guarded, For, Expiries, Step, Calls;
    MidIs(w, 0);
    if events != [] {
      var before, e := events[..|events| - 1], events[|events| - 1];
      OnlyNewExpire(order, w, before, limit);
      RunFromKeepsInv(order, w, before);
      StepMoves(order, RunFrom(order, w, before), e);
    }
  }

  // ---------------------------------------------------------------------------------------------
  // Resets

  /**
   A round whose handler resets the movement timer: a sensor ends the movement, or shows it under way.
   What surrounds the handler afterwards is left to the continuation, which the watchdog lets begin.
   */
  ghost predicate Resets(order: seq<Handle>, w: World, e: Activity)
    requires |w.queues| == |CAPS| && IsPermutation(order, |CAPS|)
  {
    && Calls(order, w, e, SENSOR) && e.after == [] && TickCount(e.mid) + 1 < WATCHDOG
    && var arg := Around(w, e.isr).queues[SENSOR][0];
       var (known, ev) := SensorEvent(PinOf(arg), ValueOf(arg));
       known && Moves(w.ctl.door) && Transition(w.ctl.door, ev).0
  }

  /** Nothing of a movement is pending but the timer that the variable names. */
  ghost predicate OnlyItsOwn(w: World)
    requires |w.queues| == |CAPS|
  {
    && w.queues[MOVE_TIMEOUT] == []
    && forall f :: f in For(w.ctl.timers.live, MOVE_TIMEOUT) ==> w.ctl.movement == Armed(f.instance)
  }

  /**
   In every continuation that the loop can take no movement timer armed before the instance expires any
   more, and every timeout given to the state machine answers to the expiry of a timer armed from it on.
   */
  ghost predicate Honoured(order: seq<Handle>, w: World, waited: nat, instance: nat)
    requires |w.ctl.rows| == |ROWS| && |w.queues| == |CAPS| && IsPermutation(order, |CAPS|)
  {
    forall events :: PacedFrom(order, w, waited, events) ==>
      && (forall f :: f in Expired(order, w, events) ==> instance <= f.instance)
      && Delivered(order, w, events) <= |Expired(order, w, events)|
  }

  /** What the reset leaves. */
  lemma ResetLeaves(order: seq<Handle>, w: World, e: Activity)
    requires IsSchedule(order, PRIORITIES) && Inv(w) && |w.queues| == |CAPS| && |w.ctl.rows| == |ROWS| && Resets(order, w, e)
    ensures var r := Step(order, w, e);
            && Inv(r) && |r.queues| == |CAPS| && |r.ctl.rows| == |ROWS|
            && r.queues[MOVE_TIMEOUT] == w.queues[MOVE_TIMEOUT] && w.ctl.timers.next <= r.ctl.timers.next
            && (forall f :: f in For(r.ctl.timers.live, MOVE_TIMEOUT) ==>
                  || (f in For(w.ctl.timers.live, MOVE_TIMEOUT) && w.ctl.movement != Armed(f.instance))
                  || (w.ctl.timers.next <= f.instance && r.ctl.timers.now < f.count))
            && (forall f :: f in For(w.ctl.timers.live, MOVE_TIMEOUT) && w.ctl.movement != Armed(f.instance) ==>
                  f in For(r.ctl.timers.live, MOVE_TIMEOUT) && r.ctl.movement != Armed(f.instance))
  {
    hide Mid, Guarded, For, Around, ProcessDoor, Pick;
    PickHas(order, w.queues);
    StepKeeps(order, w, e);
    var w1 := Around(w, e.isr);
    AroundKeeps(w, e.isr, 0);
    AroundSpares(w, e.isr, 0);
    MidIs(w1, 0);
    MidIs(Step(order, w, e), 0);
    assert COMMAND in RULES.own && PRIORITIES[SENSOR] < PRIORITIES[COMMAND];
    PickIsHighest(order, PRIORITIES, w.queues, COMMAND);
    PopMoves(w1, SENSOR);
    var v := w1.(queues := Popped(w1.queues, SENSOR));
    var arg := w1.queues[SENSOR][0];
    var ev := SensorEvent(PinOf(arg), ValueOf(arg)).1;
    ProcessResets(v, ev, e.mid);
    InstancesGiven(w);
    AroundNothing(ProcessDoor(v, ev, e.mid));
  }

  /** The cancel in the action, and the arm after it when the movement goes on. */
  lemma ProcessResets(w: World, ev: DoorEvent, mid: seq<EnvOp>)
    requires Mid(w, 0) && w.queues[COMMAND] == [] && Moves(w.ctl.door) && Transition(w.ctl.door, ev).0 && ev != Timeout
    ensures var r := ProcessDoor(w, ev, mid);
            && MovesOn(w, r)
            && forall f :: f in For(r.ctl.timers.live, MOVE_TIMEOUT) ==>
                 || (f in For(w.ctl.timers.live, MOVE_TIMEOUT) && w.ctl.movement != Armed(f.instance))
                 || (w.ctl.timers.next <= f.instance && r.ctl.timers.now < f.count)
  {
    hide Mid, For, Enter, Around, CancelMovement, ArmMovement;
    MidIs(w, 0);
    var v := w.(ctl := Enter(w.ctl, ev));
    EnterKeeps(w, ev);
    EnterSpares(w, ev);
    AroundSpares(v, mid, 0);
    var u := Around(v, mid);
    ProcessMoves(w, ev, mid);
    CancelMoves(u);
    var c := u.(ctl := CancelMovement(u.ctl));
    if Moves(Transition(w.ctl.door, ev).1) {
      ArmMoves(c, COMPLETE_TIMEOUT);
    }
  }

  /** A queued timeout reaches the state machine even if nothing else happens any more, with no timer falling due. */
  lemma {:induction false} DrainDelivers(order: seq<Handle>, w: World, limit: nat) returns (events: seq<Activity>)
    requires IsSchedule(order, PRIORITIES) && Inv(w) && w.queues[MOVE_TIMEOUT] != [] && limit <= w.ctl.timers.next
    requires forall f :: f in For(w.ctl.timers.live, MOVE_TIMEOUT) && limit <= f.instance ==> w.ctl.timers.now < f.count
    ensures |w.queues| == |CAPS| && |w.ctl.rows| == |ROWS|
    ensures Delivered(order, w, events) > 0 && forall f :: f in Expired(order, w, events) ==> f.instance < limit
    ensures forall waited: nat :: waited < WATCHDOG ==> PacedFrom(order, w, waited, events)
    decreases if |w.queues| == |CAPS| then |w.queues[TIMER]| else 0, Total(w.queues)
  {
    hide Mid, Guarded, For, Expiries, Step, Calls, Expired, Delivered, RunFrom, Total, Pick, Fire, PacedFrom, SinceCall, CanTake;
    MidIs(w, 0);
    var e := Round([], false, [], []);
    SomePick(order, w.queues, MOVE_TIMEOUT);
    QuietRound(order, w, limit);
    StepKeeps(order, w, e);
    StepMoves(order, w, e);
    var r := Step(order, w, e);
    if Calls(order, w, e, MOVE_TIMEOUT) {
      events := [e] + [];
      assert events == [e];
      OneStep(order, w, e);
      NoSteps(order, r);
      RoundFirst(order, w, []);
    } else {
      var rest := DrainDelivers(order, r, limit);
      events := [e] + rest;
      Joins(order, w, [e], rest);
      OneStep(order, w, e);
      RoundFirst(order, w, rest);
    }
  }

  lemma RoundFirst(order: seq<Handle>, w: World, rest: seq<Activity>)
    requires IsPermutation(order, |CAPS|) && |w.queues| == |CAPS| && |w.ctl.rows| == |ROWS| && Pick(order, w.queues) < |order|
    requires PacedFrom(order, Step(order, w, Round([], false, [], [])), 0, rest)
    ensures forall waited: nat :: waited < WATCHDOG ==> PacedFrom(order, w, waited, [Round([], false, [], [])] + rest)
  {
    hide Step, RunFrom, Pick, PacedFrom, SinceCall, CanTake;
    forall waited: nat | waited < WATCHDOG
      ensures PacedFrom(order, w, waited, [Round([], false, [], [])] + rest)
    {
      RunSplits(order, w, waited, Round([], false, [], []), rest);
      CanCall(order, w, waited);
    }
  }

  /** A round in which nothing else happens: its handler's item is gone, and what it arms is due later. */
  lemma QuietRound(order: seq<Handle>, w: World, limit: nat)
    requires IsSchedule(order, PRIORITIES) && Inv(w) && |w.queues| == |CAPS| && |w.ctl.rows| == |ROWS|
    requires Pick(order, w.queues) < |order| && limit <= w.ctl.timers.next
    requires forall f :: f in For(w.ctl.timers.live, MOVE_TIMEOUT) && limit <= f.instance ==> w.ctl.timers.now < f.count
    ensures var e := Round([], false, [], []);
            var r := Step(order, w, e);
            && |r.queues| == |CAPS|
            && (|r.queues[TIMER]| < |w.queues[TIMER]|
                || (|r.queues[TIMER]| == |w.queues[TIMER]| && Total(r.queues) < Total(w.queues)))
            && (forall f :: f in For(r.ctl.timers.live, MOVE_TIMEOUT) && limit <= f.instance ==> r.ctl.timers.now < f.count)
            && (forall f :: f in Expiries(order, w, e) ==> f.instance < limit)
  {
    hide Mid, Guarded, For, Fire, Pick, Total, ProcessDoor, Call, DispatchTimers;
    PickHas(order, w.queues);
    var h := order[Pick(order, w.queues)];
    if PRIORITIES[h] < PRIORITIES[COMMAND] {
      PickIsHighest(order, PRIORITIES, w.queues, COMMAND);
    }
    AroundNothing(w);
    PopMoves(w, h);
    TotalPopped(w.queues, h);
    var v, call := w.(queues := Popped(w.queues, h)), Notice(h, w.queues[h][0]);
    MidIs(v, if h == COMMAND then 1 else 0);
    AroundNothing(Call(v, call, false, []));
    if h == TIMER {
      DispatchMoves(v);
      TimerCallIs(v, call);
    } else {
      CallMoves(v, call, false, []);
      CallQuiet(v, call);
    }
  }

  lemma OneStep(order: seq<Handle>, w: World, e: Activity)
    requires IsPermutation(order, |CAPS|) && |w.queues| == |CAPS| && |w.ctl.rows| == |ROWS|
    ensures RunFrom(order, w, [e]) == Step(order, w, e) && Expired(order, w, [e]) == Expiries(order, w, e)
    ensures Delivered(order, w, [e]) == if Calls(order, w, e, MOVE_TIMEOUT) then 1 else 0
  {
    assert [e][..0] == [];
  }

  lemma {:induction false} Joins(order: seq<Handle>, w: World, first: seq<Activity>, rest: seq<Activity>)
    requires IsPermutation(order, |CAPS|) && |w.queues| == |CAPS| && |w.ctl.rows| == |ROWS|
    ensures RunFrom(order, w, first + rest) == RunFrom(order, RunFrom(order, w, first), rest)
    ensures Expired(order, w, first + rest) == Expired(order, w, first) + Expired(order, RunFrom(order, w, first), rest)
    ensures Delivered(order, w, first + rest)
         == Delivered(order, w, first) + Delivered(order, RunFrom(order, w, first), rest)
  {
    hide Step, Expiries, Calls;
    if rest == [] {
      assert first + rest == first;
    } else {
      var n := |rest| - 1;
      assert (first + rest)[..|first| + n] == first + rest[..n];
      Joins(order, w, first, rest[..n]);
    }
  }

  /** The loop sleeps until the next tick, and the timer handler then notifies the timer or leaves it. */
  lemma NextTick(order: seq<Handle>, w: World, waited: nat, f: Future) returns (events: seq<Activity>)
    requires IsSchedule(order, PRIORITIES) && Inv(w) && |w.queues| == |CAPS| && |w.ctl.rows| == |ROWS|
    requires Pick(order, w.queues) == |order| && waited + 1 < WATCHDOG
    requires f in For(w.ctl.timers.live, MOVE_TIMEOUT)
    ensures PacedFrom(order, w, waited, events) && SinceCall(waited, events) == 0
    ensures RunFrom(order, w, events).ctl.timers.now == w.ctl.timers.now + 1
    ensures f.count <= w.ctl.timers.now + 1 ==> f in Expired(order, w, events)
  {
    hide Mid, Guarded, For, Expiries, Step, Expired, Delivered, RunFrom, Pick, PacedFrom, SinceCall, CanTake;
    var wake, e := Asleep([Tick]), Round([], false, [], []);
    var r := Step(order, w, wake);
    Wakes(order, w, waited);
    RoundDrains(order, r);
    CanCall(order, r, waited + 1);
    if f.count <= r.ctl.timers.now {
      DueExpires(order, r, e, f);
    }
    events := [wake] + [e];
    RunSplits(order, w, waited, wake, [e]);
    NoSteps(order, Step(order, r, e));
    RunSplits(order, r, waited + 1, e, []);
    OneStep(order, r, e);
    OneStep(order, w, wake);
    Joins(order, w, [wake], [e]);
    assert [e] + [] == [e];
  }

  lemma DueExpires(order: seq<Handle>, w: World, e: Activity, f: Future)
    requires IsSchedule(order, PRIORITIES) && Inv(w) && |w.queues| == |CAPS| && Calls(order, w, e, TIMER) && e.isr == []
    requires f in For(w.ctl.timers.live, MOVE_TIMEOUT) && f.count <= w.ctl.timers.now
    ensures f in Expiries(order, w, e)
  {
    hide Mid, Guarded, For, Calls, Fire;
    AroundNothing(w);
    DispatchMoves(w);
  }

  /** A movement timer that the variable has stopped naming expires if the loop is left alone. */
  lemma {:induction false} OrphanExpires(order: seq<Handle>, w: World, waited: nat, f: Future) returns (events: seq<Activity>)
    requires IsSchedule(order, PRIORITIES) && Inv(w) && waited + 1 < WATCHDOG
    requires f in For(w.ctl.timers.live, MOVE_TIMEOUT) && w.ctl.movement != Armed(f.instance)
    ensures |w.queues| == |CAPS| && |w.ctl.rows| == |ROWS|
    ensures PacedFrom(order, w, waited, events) && f in Expired(order, w, events)
    decreases f.count - w.ctl.timers.now
  {
    hide Mid, Guarded, For, Step, Calls, Expired, Delivered, RunFrom, Pick, PacedFrom, SinceCall;
    MidIs(w, 0);
    events := DrainIdle(order, w);
    OrphanRemains(order, w, events, f);
    if f !in Expired(order, w, events) {
      var r, since := RunFrom(order, w, events), SinceCall(waited, events);
      var tick := NextTick(order, r, since, f);
      Joins(order, w, events, tick);
      RunJoins(order, w, waited, events, tick);
      events := events + tick;
      OrphanRemains(order, w, events, f);
      if f !in Expired(order, w, events) {
        var v := RunFrom(order, w, events);
        RunFromKeepsInv(order, w, events);
        var rest := OrphanExpires(order, v, 0, f);
        Joins(order, w, events, rest);
        RunJoins(order, w, waited, events, rest);
        events := events + rest;
      }
    }
  }

  /**
   A reset is honoured exactly when nothing is pending but the timer it cancels: no timeout in the
   queue, and no movement timer live that the variable has stopped naming.
   */
  lemma ResetHonouredIff(order: seq<Handle>, w: World, e: Activity)
    requires IsSchedule(order, PRIORITIES) && Inv(w) && |w.queues| == |CAPS| && |w.ctl.rows| == |ROWS|
    requires e.Round? && Resets(order, w, e)
    ensures Honoured(order, Step(order, w, e), TickCount(e.mid), w.ctl.timers.next) <==> OnlyItsOwn(w)
  {
    hide Mid, Guarded, For, Step, RunFrom, Expired, Delivered, PacedFrom;
    var r, limit, waited := Step(order, w, e), w.ctl.timers.next, TickCount(e.mid);
    ResetLeaves(order, w, e);
    InstancesGiven(w);
    if OnlyItsOwn(w) {
      forall events
        ensures forall f :: f in Expired(order, r, events) ==> limit <= f.instance
        ensures Delivered(order, r, events) <= |Expired(order, r, events)|
      {
        OnlyNewExpire(order, r, events, limit);
      }
    } else if w.queues[MOVE_TIMEOUT] != [] {
      var events := DrainDelivers(order, r, limit);
      NotHonoured(order, r, waited, limit, events);
    } else {
      var f :| f in For(w.ctl.timers.live, MOVE_TIMEOUT) && w.ctl.movement != Armed(f.instance);
      var events := OrphanExpires(order, r, waited, f);
      assert f in Expired(order, r, events) && f.instance < limit;
    }
  }

  lemma NotHonoured(order: seq<Handle>, w: World, waited: nat, limit: nat, events: seq<Activity>)
    requires IsPermutation(order, |CAPS|) && |w.queues| == |CAPS| && |w.ctl.rows| == |ROWS|
    requires PacedFrom(order, w, waited, events)
    requires Delivered(order, w, events) > 0 && forall f :: f in Expired(order, w, events) ==> f.instance < limit
    ensures !Honoured(order, w, waited, limit)
  {
    hide RunFrom, Expired, Delivered, PacedFrom;
    var x := Expired(order, w, events);
    if |x| > 0 {
      assert x[0] in x;
    }
  }
}
