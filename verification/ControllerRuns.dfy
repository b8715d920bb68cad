/** What holds between any two rounds of the controller's loop, in every run. */
module ControllerRuns {
  import opened TimerModel
  import opened ReactorModel
  import opened Runtime
  import opened ControllerModel
  import opened Windows
  import opened Pins
  import OpCodes

  /** The pending transmissions: armed, queued, and (held) taken by a handler call not yet finished. */
  ghost predicate Chain(w: World, held: nat)
    requires |w.queues| == |CAPS|
  {
    var mine := For(w.ctl.timers.live, COMMAND);
    var pending := |mine| + |w.queues[COMMAND]| + held;
    && pending <= 1 && (!w.ctl.stop ==> pending == 1)
    && (forall f :: f in mine ==> f.repeat == 0 && w.ctl.transmit == Armed(f.instance))
    && Belongs(w.ctl.timers, w.ctl.transmit, COMMAND)
  }

  /** The movement's timeout is armed and close, or already queued. */
  ghost predicate TimeoutPending(w: World)
    requires |w.queues| == |CAPS|
  {
    || w.queues[MOVE_TIMEOUT] != []
    || exists f :: f in For(w.ctl.timers.live, MOVE_TIMEOUT) && w.ctl.movement == Armed(f.instance)
                   && f.count <= w.ctl.timers.now + COMPLETE_TIMEOUT
  }

  ghost predicate Guarded(w: World)
    requires |w.queues| == |CAPS|
  {
    Moves(w.ctl.door) ==> TimeoutPending(w)
  }

  /** The movement timers never repeat, and the variable holds one of them. */
  ghost predicate Limited(t: Timers, movement: Instance) {
    OneShot(t.live, MOVE_TIMEOUT) && Belongs(t, movement, MOVE_TIMEOUT)
  }

  /** The door's request rows follow its state, and the command is that of the first active row. */
  ghost predicate Arbitrated(c: Ctl) {
    && |c.rows| == |ROWS|
    && (c.rows[DOOR_UP] <==> c.door == Opening)
    && (c.rows[DOOR_DOWN] <==> c.door == Closing)
    && c.current == FirstActive(c.rows, ROWS)
  }

  /** The byte is the level of the log until the latch, which closes at the first window of 100. */
  ghost predicate Counted(w: World) {
    && (!w.ctl.stop ==> w.ctl.errors == Level(w.log) < TOO_MANY_ERRORS)
    && (w.ctl.stop <==> Reached(w.log, TOO_MANY_ERRORS))
    && w.ctl.errors < 256
  }

  /** The grace period lasts its full time. */
  ghost predicate Graced(w: World)
    requires |w.queues| == |CAPS|
  {
    && (forall f :: f in For(w.ctl.timers.live, GRACE_OVER) ==> f.repeat == 0 && GRACE_PERIOD <= f.count)
    && (w.queues[GRACE_OVER] != [] || !w.ctl.grace || w.ctl.stop ==> GRACE_PERIOD <= w.ctl.timers.now)
    && (w.ctl.stop ==> !w.ctl.grace)
  }

  /** What holds even within a door transition; held is 1 in the middle of a call of the transmit handler. */
  ghost predicate Mid(w: World, held: nat) {
    && Base(SysOf(w), RULES) && Limited(w.ctl.timers, w.ctl.movement)
    && Chain(w, held) && Arbitrated(w.ctl) && Counted(w) && Graced(w)
  }

  ghost predicate Inv(w: World) {
    Mid(w, 0) && Guarded(w)
  }

  /** Drivers and interrupts keep it. */
  lemma AroundKeeps(w: World, env: seq<EnvOp>, held: nat)
    requires Mid(w, held)
    ensures var r := Around(w, env); Mid(r, held) && (Guarded(w) ==> Guarded(r))
    ensures forall h :: h in RULES.own ==> Around(w, env).queues[h] == w.queues[h]
  {
    HappenAllKeeps(SysOf(w), RULES, env);
    var r := Around(w, env);
    BelongsLater(w.ctl.timers, r.ctl.timers, w.ctl.transmit, COMMAND);
    BelongsLater(w.ctl.timers, r.ctl.timers, w.ctl.movement, MOVE_TIMEOUT);
  }

  // ---------------------------------------------------------------------------------------------
  // Commands

  /** The pending transmission, when it is not queued, is the timer the variable holds. */
  lemma ChainIsArmed(w: World)
    requires |w.queues| == |CAPS| && Chain(w, 0) && w.queues[COMMAND] == []
    ensures |w.queues| == |CAPS|
    ensures var mine := For(w.ctl.timers.live, COMMAND);
            mine == [] || (|mine| == 1 && w.ctl.transmit == Armed(mine[0].instance))
    ensures Belongs(w.ctl.timers, w.ctl.transmit, COMMAND)
  {
    var mine := For(w.ctl.timers.live, COMMAND);
    assert mine != [] ==> mine[0] in mine;
  }

  lemma TriggerIs(w: World)
    ensures var t, r := CancelInstance(w.ctl.timers, w.ctl.transmit), w.(ctl := Trigger(w.ctl));
            && r.ctl.timers == Arm(t, COMMAND, t.now + 1, 0, 0) && r.ctl.transmit == Armed(t.next)
            && r.queues == w.queues && SysOf(r) == SysOf(w).(timers := r.ctl.timers) && SysOf(w).timers == w.ctl.timers
            && COMMAND in RULES.own
  {
  }

  /**
   Called from a handler below the transmit handler's priority, so that none of its calls is
   queued: the pending one is cancelled and a new one takes its place.
   */
  lemma TriggerKeeps(w: World)
    requires Base(SysOf(w), RULES) && Chain(w, 0) && w.queues[COMMAND] == []
    ensures var r := w.(ctl := Trigger(w.ctl));
            && Base(SysOf(r), RULES) && Chain(r, 0) && Later(w.ctl.timers, r.ctl.timers)
            && (forall g :: g != COMMAND ==> For(r.ctl.timers.live, g) == For(w.ctl.timers.live, g))
  {
    assert |w.queues| == |CAPS|;
    hide *;
    ChainIsArmed(w);
    TriggerIs(w);
    Restarted(SysOf(w), RULES, w.ctl.transmit, COMMAND, w.ctl.timers.now + 1);
    OnlyPending(w.(ctl := Trigger(w.ctl)), Future(COMMAND, w.ctl.timers.next, w.ctl.timers.now + 1, 0, 0));
  }

  /** The transmit handler's one timer, just armed, makes the chain. */
  lemma OnlyPending(w: World, e: Future)
    requires |w.queues| == |CAPS| && w.queues[COMMAND] == []
    requires For(w.ctl.timers.live, COMMAND) == [e] && e.repeat == 0 && w.ctl.transmit == Armed(e.instance)
    requires Belongs(w.ctl.timers, w.ctl.transmit, COMMAND)
    ensures Chain(w, 0)
  {
  }

  /** A step that only touches the transmit handler's timers keeps what is said of the other timers. */
  lemma OthersKept(w: World, r: World)
    requires Limited(w.ctl.timers, w.ctl.movement) && |w.queues| == |CAPS| && Graced(w)
    requires r == w.(ctl := w.ctl.(timers := r.ctl.timers, transmit := r.ctl.transmit))
    requires Later(w.ctl.timers, r.ctl.timers)
    requires forall g :: g != COMMAND ==> For(r.ctl.timers.live, g) == For(w.ctl.timers.live, g)
    ensures Limited(r.ctl.timers, r.ctl.movement) && Graced(r) && (Guarded(w) ==> Guarded(r))
  {
    BelongsLater(w.ctl.timers, r.ctl.timers, w.ctl.movement, MOVE_TIMEOUT);
  }

  /** The rows change together with the door's state; the command follows. */
  lemma InputChangeKeeps(w: World, pin: nat, value: bool, door: Door)
    requires Mid(w, 0) && w.queues[COMMAND] == [] && pin < |ROWS|
    requires var rows := w.ctl.rows[pin := value];
             (rows[DOOR_UP] <==> door == Opening) && (rows[DOOR_DOWN] <==> door == Closing)
    ensures var c := InputChange(w.ctl.(door := door), pin, value);
            && Mid(w.(ctl := c), 0) && c.door == door && c.movement == w.ctl.movement
            && c.timers.now == w.ctl.timers.now
            && For(c.timers.live, MOVE_TIMEOUT) == For(w.ctl.timers.live, MOVE_TIMEOUT)
  {
    var c := w.ctl.(door := door, rows := w.ctl.rows[pin := value]);
    var cmd := FirstActive(c.rows, ROWS);
    var w1 := w.(ctl := c.(current := cmd));
    assert Mid(w1, 0);
    if w.ctl.current != cmd {
      TriggerKeeps(w1);
      OthersKept(w1, w1.(ctl := Trigger(w1.ctl)));
    }
  }

  // ---------------------------------------------------------------------------------------------
  // The door

  lemma DoorAloneKeeps(w: World, door: Door)
    requires Mid(w, 0) && !Moves(w.ctl.door) && !Moves(door)
    ensures Mid(w.(ctl := w.ctl.(door := door)), 0)
  {
  }

  lemma EnterKeeps(w: World, ev: DoorEvent)
    requires Mid(w, 0) && w.queues[COMMAND] == []
    ensures Mid(w.(ctl := Enter(w.ctl, ev)), 0)
    ensures !Transition(w.ctl.door, ev).0 ==> Enter(w.ctl, ev) == w.ctl
    ensures Enter(w.ctl, ev).door == Transition(w.ctl.door, ev).1
  {
    hide Base, Chain, Limited, Counted, Graced, InputChange;
    var (known, d) := Transition(w.ctl.door, ev);
    if d == Opening && w.ctl.door == Closed {
      InputChangeKeeps(w, DOOR_UP, true, d);
    } else if d == Closing && w.ctl.door == Opened {
      InputChangeKeeps(w, DOOR_DOWN, true, d);
    } else if w.ctl.door == Opening && d != Opening {
      InputChangeKeeps(w, DOOR_UP, false, d);
    } else if w.ctl.door == Closing && d != Closing {
      InputChangeKeeps(w, DOOR_DOWN, false, d);
    } else if known && !Moves(d) {
      DoorAloneKeeps(w, d);
    }
  }

  lemma ArmMovementKeeps(w: World, delay: nat)
    requires Mid(w, 0) && delay <= COMPLETE_TIMEOUT
    ensures var r := w.(ctl := ArmMovement(w.ctl, delay)); Mid(r, 0) && TimeoutPending(r)
  {
    var t := w.ctl.timers;
    var e := Future(MOVE_TIMEOUT, t.next, t.now + delay, 0, 0);
    OwnArm(t, SysOf(w), RULES, MOVE_TIMEOUT, t.now + delay, 0, 0);
    InstanceIsItsOwn(t, e);
    BelongsLater(t, ArmMovement(w.ctl, delay).timers, w.ctl.transmit, COMMAND);
  }

  lemma CancelMovementKeeps(w: World)
    requires Mid(w, 0)
    ensures Mid(w.(ctl := CancelMovement(w.ctl)), 0)
  {
    var r := w.(ctl := CancelMovement(w.ctl));
    CancelVariable(SysOf(w), RULES, w.ctl.movement, MOVE_TIMEOUT);
    BelongsLater(w.ctl.timers, r.ctl.timers, w.ctl.transmit, COMMAND);
    BelongsLater(w.ctl.timers, r.ctl.timers, w.ctl.movement, MOVE_TIMEOUT);
  }

  /** A movement that starts or goes on leaves with its timeout armed; the others leave none of theirs needed. */
  lemma SettleKeeps(before: Door, ev: DoorEvent, w: World)
    requires Mid(w, 0) && Transition(before, ev).0 && w.ctl.door == Transition(before, ev).1
    ensures var r := w.(ctl := Settle(before, ev, w.ctl)); Inv(r) && r.ctl.door == w.ctl.door
  {
    var d := w.ctl.door;
    if Moves(d) && !Moves(before) {
      ArmMovementKeeps(w, MOVING_TIMEOUT);
    } else if Moves(d) {
      CancelMovementKeeps(w);
      ArmMovementKeeps(w.(ctl := CancelMovement(w.ctl)), COMPLETE_TIMEOUT);
    } else if Moves(before) && ev != Timeout {
      CancelMovementKeeps(w);
    }
  }

  lemma SettleNothing(before: Door, ev: DoorEvent, w: World)
    requires !Transition(before, ev).0
    ensures w.(ctl := Settle(before, ev, w.ctl)) == w
  {
  }

  /** The guard may be gone only because the event is the timeout itself, taken off its queue. */
  lemma ProcessDoorKeeps(w: World, ev: DoorEvent, mid: seq<EnvOp>)
    requires Mid(w, 0) && w.queues[COMMAND] == [] && (Guarded(w) || ev == Timeout)
    ensures Inv(ProcessDoor(w, ev, mid))
  {
    var w1 := w.(ctl := Enter(w.ctl, ev));
    EnterKeeps(w, ev);
    AroundKeeps(w1, mid, 0);
    var w2 := Around(w1, mid);
    assert ProcessDoor(w, ev, mid) == w2.(ctl := Settle(w.ctl.door, ev, w2.ctl));
    assert w2.ctl.door == w1.ctl.door;
    if Transition(w.ctl.door, ev).0 {
      SettleKeeps(w.ctl.door, ev, w2);
    } else {
      assert w1 == w && Guarded(w2);
      SettleNothing(w.ctl.door, ev, w2);
    }
  }

  // ---------------------------------------------------------------------------------------------
  // Communications

  lemma ProcessErrorKeeps(w: World, held: nat)
    requires Mid(w, held)
    ensures var r := ProcessError(w); Mid(r, held) && (Guarded(w) ==> Guarded(r)) && r.ctl.timers == w.ctl.timers
    ensures For(ProcessError(w).ctl.timers.live, COMMAND) == For(w.ctl.timers.live, COMMAND)
  {
    var x := if w.ctl.grace then 0 else 2;
    assert w.ctl.errors < TOO_MANY_ERRORS ==> (w.ctl.errors + 2) % 256 == w.ctl.errors + 2;
    LevelAppend(w.log, x);
    ReachedAppend(w.log, x, TOO_MANY_ERRORS);
  }

  lemma GoodReadKeeps(w: World)
    requires Mid(w, 0) && Guarded(w)
    ensures Inv(w.(ctl := GoodRead(w.ctl), log := w.log + [-1]))
  {
    LevelAppend(w.log, -1);
    ReachedAppend(w.log, -1, TOO_MANY_ERRORS);
  }

  lemma ArmSendKeeps(w: World)
    requires Mid(w, 1) && Guarded(w)
    ensures Inv(w.(ctl := ArmSend(w.ctl)))
  {
    hide For, Insert, Remove, Sound, Limited, Graced, Guarded, Belongs, OneShot;
    var t := w.ctl.timers;
    Restarted(SysOf(w), RULES, None, COMMAND, t.now + SEND_PERIOD);
    OnlyPending(w.(ctl := ArmSend(w.ctl)), Future(COMMAND, t.next, t.now + SEND_PERIOD, 0, 0));
    OthersKept(w, w.(ctl := ArmSend(w.ctl)));
  }

  lemma ProcessSendKeeps(w: World, busy: bool, mid: seq<EnvOp>)
    requires Mid(w, 1) && Guarded(w)
    ensures Inv(ProcessSend(w, busy, mid))
  {
    if !w.ctl.stop {
      var w1 := if busy then ProcessError(w) else w;
      if busy {
        ProcessErrorKeeps(w, 1);
      }
      AroundKeeps(w1, mid, 1);
      ArmSendKeeps(Around(w1, mid));
    }
  }

  // ---------------------------------------------------------------------------------------------
  // The timer dispatch

  lemma DispatchKeepsChain(w: World)
    requires Mid(w, 0)
    ensures Chain(WithSys(w, DispatchTimers(SysOf(w), RULES)), 0)
  {
    DispatchEffect(SysOf(w), RULES, COMMAND);
    var t, r := w.ctl.timers, WithSys(w, DispatchTimers(SysOf(w), RULES));
    var b := Fire(t.live, t.next, t.now);
    PushedAllOne(w.queues[COMMAND], CAPS[COMMAND], Args(For(b.notes, COMMAND)));
    assert forall f :: f in For(b.live, COMMAND) ==> f in For(t.live, COMMAND);
    BelongsLater(t, r.ctl.timers, w.ctl.transmit, COMMAND);
  }

  lemma DispatchKeepsGuard(w: World)
    requires Inv(w)
    ensures var r := WithSys(w, DispatchTimers(SysOf(w), RULES)); Guarded(r) && Limited(r.ctl.timers, r.ctl.movement)
  {
    DispatchEffect(SysOf(w), RULES, MOVE_TIMEOUT);
    var t, r := w.ctl.timers, WithSys(w, DispatchTimers(SysOf(w), RULES));
    var b := Fire(t.live, t.next, t.now);
    assert forall f :: f in For(b.live, MOVE_TIMEOUT) ==> f in For(t.live, MOVE_TIMEOUT);
    assert forall f :: f in For(t.live, MOVE_TIMEOUT) && f !in For(b.live, MOVE_TIMEOUT) ==> f in For(b.notes, MOVE_TIMEOUT);
    BelongsLater(t, r.ctl.timers, w.ctl.movement, MOVE_TIMEOUT);
  }

  lemma DispatchKeeps(w: World)
    requires Inv(w)
    ensures Inv(WithSys(w, DispatchTimers(SysOf(w), RULES)))
  {
    DispatchKeepsChain(w);
    DispatchKeepsGuard(w);
    DispatchEffect(SysOf(w), RULES, GRACE_OVER);
    var t := w.ctl.timers;
    var b := Fire(t.live, t.next, t.now);
    var args := Args(For(b.notes, GRACE_OVER));
    assert forall f :: f in For(b.live, GRACE_OVER) ==> f in For(t.live, GRACE_OVER);
    if For(b.notes, GRACE_OVER) != [] {
      assert For(b.notes, GRACE_OVER)[0] in For(t.live, GRACE_OVER);
    } else {
      assert PushedAll(w.queues[GRACE_OVER], CAPS[GRACE_OVER], args) == w.queues[GRACE_OVER];
    }
  }

  // ---------------------------------------------------------------------------------------------
  // Rounds and runs

  /** What taking an item off the queue of h leaves for its handler. */
  lemma PopKeepsMid(w: World, h: Handle)
    requires Inv(w) && h < |CAPS| && w.queues[h] != []
    ensures var r := w.(queues := Popped(w.queues, h));
            && Mid(r, if h == COMMAND then 1 else 0)
            && (h != MOVE_TIMEOUT ==> Guarded(r))
            && (h == COMMAND ==> r.queues[COMMAND] == [])
  {
    PopKeeps(SysOf(w), RULES, h);
  }

  /**
   A handler call keeps the invariant. A handler below the transmit handler's priority runs only
   when no transmit call is queued, as the loop picks the highest priority first.
   */
  lemma CallKeeps(w: World, call: Notice, busy: bool, mid: seq<EnvOp>)
    requires call.handle < |CAPS| && Mid(w, if call.handle == COMMAND then 1 else 0)
    requires call.handle != MOVE_TIMEOUT ==> Guarded(w)
    requires PRIORITIES[call.handle] < PRIORITIES[COMMAND] ==> w.queues[COMMAND] == []
    requires call.handle == INPUT ==> 0 <= call.arg < RULES.limit
    requires call.handle == GRACE_OVER ==> GRACE_PERIOD <= w.ctl.timers.now
    ensures Inv(Call(w, call, busy, mid))
  {
    var h := call.handle;
    if h == COMMAND {
      ProcessSendKeeps(w, busy, mid);
    } else if h == READ {
      GoodReadKeeps(w);
    } else if h == COMMS_ERROR {
      ProcessErrorKeeps(w, 0);
    } else if h == INPUT {
      InputChangeKeeps(w, PinOf(call.arg), ValueOf(call.arg), w.ctl.door);
    } else if h == SENSOR {
      var (known, ev) := SensorEvent(PinOf(call.arg), ValueOf(call.arg));
      if known {
        ProcessDoorKeeps(w, ev, mid);
      }
    } else if h == DOOR {
      ProcessDoorKeeps(w, if ValueOf(call.arg) then Open else Close, mid);
    } else if h == MOVE_TIMEOUT {
      ProcessDoorKeeps(w, Timeout, mid);
    } else if h == TIMER {
      DispatchKeeps(w);
    }
  }

  lemma StepKeeps(order: seq<Handle>, w: World, e: Activity)
    requires IsSchedule(order, PRIORITIES) && Inv(w)
    ensures Inv(Step(order, w, e))
  {
    match e
    case Asleep(env) =>
      AroundKeeps(w, env, 0);
    case Round(isr, busy, mid, after) =>
      var p := Pick(order, w.queues);
      if p < |order| {
        var h, w1 := order[p], Around(w, isr);
        AroundKeeps(w, isr, 0);
        PopKeepsMid(w1, h);
        if PRIORITIES[h] < PRIORITIES[COMMAND] {
          PickIsHighest(order, PRIORITIES, w.queues, COMMAND);
        }
        var w2, call := w1.(queues := Popped(w1.queues, h)), Notice(h, w1.queues[h][0]);
        assert call.arg in w1.queues[h];
        CallKeeps(w2, call, busy, mid);
        AroundKeeps(Call(w2, call, busy, mid), after, 0);
      }
  }

  lemma {:induction false} FirstActiveIs(rows: seq<bool>, codes: seq<OpCodes.Byte>)
    requires |rows| == |codes|
    ensures FirstActive(rows, codes) == OpCodes.IDLE || FirstActive(rows, codes) in codes
    ensures forall i :: 0 <= i < |rows| && rows[i] && (forall j :: 0 <= j < i ==> !rows[j]) ==> FirstActive(rows, codes) == codes[i]
    ensures (forall i :: 0 <= i < |rows| ==> !rows[i]) ==> FirstActive(rows, codes) == OpCodes.IDLE
  {
    if rows != [] && !rows[0] {
      FirstActiveIs(rows[1..], codes[1..]);
      forall i | 0 <= i < |rows| && rows[i] && (forall j :: 0 <= j < i ==> !rows[j])
        ensures FirstActive(rows, codes) == codes[i]
      {
        assert rows[1..][i - 1] && forall j :: 0 <= j < i - 1 ==> !rows[1..][j];
      }
    }
  }

  /** At start-up, with the door at rest and nothing armed or queued for the application. */
  ghost predicate Resting(w: World) {
    && Base(SysOf(w), RULES) && Arbitrated(w.ctl) && Counted(w)
    && !Moves(w.ctl.door) && w.ctl.movement == None && w.ctl.grace && !w.ctl.stop
    && For(w.ctl.timers.live, MOVE_TIMEOUT) == [] && For(w.ctl.timers.live, GRACE_OVER) == []
    && w.queues[COMMAND] == [] && w.queues[MOVE_TIMEOUT] == [] && w.queues[GRACE_OVER] == []
  }

  /** The static initial values meet everything but the pending transmission. */
  lemma BootIsSound()
    ensures Base(SysOf(Boot()), RULES) && Arbitrated(Boot().ctl) && Counted(Boot())
    ensures Resting(Boot()) && For(Boot().ctl.timers.live, COMMAND) == [] && Boot().ctl.transmit == None
  {
    hide For, Reached;
    NothingReached(TOO_MANY_ERRORS);
    FirstActiveIs(Boot().ctl.rows, ROWS);
    NothingLive();
  }

  lemma NothingLive()
    ensures forall h :: For([], h) == []
  {
  }

  lemma FirstSend(w: World)
    requires Resting(w) && For(w.ctl.timers.live, COMMAND) == [] && w.ctl.transmit == None
    ensures var r := w.(ctl := Trigger(w.ctl)); Resting(r) && Chain(r, 0)
  {
    var r, t := w.(ctl := Trigger(w.ctl)), w.ctl.timers;
    assert r.ctl.timers == Arm(t, COMMAND, t.now + 1, 0, 0);
    assert SysOf(r) == SysOf(w).(timers := r.ctl.timers);
    Restarted(SysOf(w), RULES, None, COMMAND, t.now + 1);
    OnlyPending(r, Future(COMMAND, t.next, t.now + 1, 0, 0));
    StillResting(w, r);
  }

  lemma StillResting(w: World, r: World)
    requires Resting(w) && Base(SysOf(r), RULES)
    requires r == w.(ctl := w.ctl.(timers := r.ctl.timers, transmit := r.ctl.transmit))
    requires forall g :: g != COMMAND ==> For(r.ctl.timers.live, g) == For(w.ctl.timers.live, g)
    ensures Resting(r)
  {
  }

  /** main arms the end of the grace period after the first transmission. */
  lemma FirstGrace(w: World)
    requires Resting(w) && Chain(w, 0)
    ensures Inv(w.(ctl := w.ctl.(timers := Arm(w.ctl.timers, GRACE_OVER, w.ctl.timers.now + GRACE_PERIOD, 0, 0))))
  {
    var t := w.ctl.timers;
    var t' := Arm(t, GRACE_OVER, t.now + GRACE_PERIOD, 0, 0);
    OwnArm(t, SysOf(w), RULES, GRACE_OVER, t.now + GRACE_PERIOD, 0, 0);
    BelongsLater(t, t', w.ctl.transmit, COMMAND);
    assert For(t'.live, MOVE_TIMEOUT) == [];
    assert Graced(w.(ctl := w.ctl.(timers := t')));
  }

  lemma RestKept(w: World, env: seq<EnvOp>)
    requires Resting(w) && For(w.ctl.timers.live, COMMAND) == []
    ensures var r := Around(w, env);
            Resting(r) && For(r.ctl.timers.live, COMMAND) == [] && r.ctl.transmit == w.ctl.transmit
  {
    HappenAllKeeps(SysOf(w), RULES, env);
    assert COMMAND in RULES.own && MOVE_TIMEOUT in RULES.own && GRACE_OVER in RULES.own;
  }

  lemma StartKeeps(env: seq<EnvOp>)
    ensures Inv(Start(env))
  {
    BootIsSound();
    RestKept(Boot(), env);
    StartedKeeps(Around(Boot(), env));
  }

  lemma StartedKeeps(w: World)
    requires Resting(w) && For(w.ctl.timers.live, COMMAND) == [] && w.ctl.transmit == None
    ensures Inv(Started(w))
  {
    FirstSend(w);
    FirstGrace(w.(ctl := Trigger(w.ctl)));
  }

  lemma {:induction false} RunsKeepInv(order: seq<Handle>, env: seq<EnvOp>, events: seq<Activity>)
    requires IsSchedule(order, PRIORITIES)
    ensures Inv(Run(order, env, events))
  {
    if events == [] {
      StartKeeps(env);
    } else {
      RunsKeepInv(order, env, events[..|events| - 1]);
      StepKeeps(order, Run(order, env, events[..|events| - 1]), events[|events| - 1]);
    }
  }

  /** A round of a run is a round that the reactor's loop serves, with the call the loop makes. */
  lemma StepServes(order: seq<Handle>, w: World, e: Activity, events: seq<Event>, call: Notice, events': seq<Event>)
    requires IsPermutation(order, |CAPS|) && Mid(w, 0) && e.Round?
    requires KnownEvents(events, |CAPS|) && w.queues == Replay(CAPS, events)
    requires Known(AllNotices(SysOf(w), RULES, e.isr), |CAPS|)
    requires Serves(order, CAPS, events, AllNotices(SysOf(w), RULES, e.isr), call, events')
    ensures KnownEvents(events', |CAPS|) && |w.queues| == |CAPS| && |w.ctl.rows| == |ROWS|
    ensures Step(order, w, e)
         == Around(Call(Around(w, e.isr).(queues := Replay(CAPS, events')), call, e.busy, e.mid), e.after)
  {
    hide Chain, Limited, Counted, Graced, Serves, Replay, AllNotices, Call, HappenAll, Pick;
    ServedRound(SysOf(w), RULES, order, e.isr, events, call, events');
  }

  // ---------------------------------------------------------------------------------------------
  // What a reader of the controller may rely on

  /** Some run, under some outcome of the priority sort, leads here. */
  ghost predicate Reachable(w: World) {
    exists order, env, events :: IsSchedule(order, PRIORITIES) && w == Run(order, env, events)
  }

  lemma ReachableKeepsInv(w: World)
    requires Reachable(w)
    ensures Inv(w)
  {
    var order, env, events :| IsSchedule(order, PRIORITIES) && w == Run(order, env, events);
    RunsKeepInv(order, env, events);
  }

  /** Between rounds, exactly one transmission is pending while transmission goes on, and never two. */
  lemma OneTransmissionPending(w: World)
    requires Reachable(w)
    ensures |w.queues| == |CAPS|
    ensures var pending := |For(w.ctl.timers.live, COMMAND)| + |w.queues[COMMAND]|;
            pending <= 1 && (!w.ctl.stop ==> pending == 1)
  {
    ReachableKeepsInv(w);
  }

  /** While the door's valve is requested, a timeout at most 8 seconds ahead is armed or one is queued. */
  lemma MovementNeverUnguarded(w: World)
    requires Reachable(w)
    ensures |w.ctl.rows| == |ROWS| && |w.queues| == |CAPS|
    ensures w.ctl.rows[DOOR_UP] || w.ctl.rows[DOOR_DOWN] ==> TimeoutPending(w)
  {
    ReachableKeepsInv(w);
  }

  lemma FirstOfFive(rows: seq<bool>)
    requires |rows| == |ROWS|
    ensures FirstActive(rows, ROWS) ==
            if rows[0] then ROWS[0] else if rows[1] then ROWS[1] else if rows[2] then ROWS[2]
            else if rows[3] then ROWS[3] else if rows[4] then ROWS[4] else OpCodes.IDLE
  {
    FirstActiveIs(rows, ROWS);
  }

  /**
   The door's request rows follow its movement, and it is driven exactly while it moves and nothing of
   higher priority is requested; one opcode at a time.
   */
  lemma CommandArbitration(w: World)
    requires Reachable(w)
    ensures var c := w.ctl;
            && |c.rows| == |ROWS|
            && (c.rows[DOOR_UP] <==> c.door == Opening)
            && (c.rows[DOOR_DOWN] <==> c.door == Closing)
            && var busy := c.rows[CHUCK_OPEN] || c.rows[SPINDLE_BLAST] || c.rows[TOOLSET_BLAST];
            && (c.current == OpCodes.PULL_DOOR <==> c.door == Opening && !busy)
            && (c.current == OpCodes.PUSH_DOOR <==> c.door == Closing && !busy)
            && (c.current == OpCodes.UNCLAMP_CHUCK <==> c.rows[CHUCK_OPEN])
            && (c.current == OpCodes.BLAST_SPINDLE <==> c.rows[SPINDLE_BLAST] && !c.rows[CHUCK_OPEN])
            && (c.current == OpCodes.BLAST_TOOLSETTER <==> c.rows[TOOLSET_BLAST] && !c.rows[CHUCK_OPEN] && !c.rows[SPINDLE_BLAST])
            && (c.current == OpCodes.IDLE <==> !Moves(c.door) && !busy)
  {
    ReachableKeepsInv(w);
    FirstOfFive(w.ctl.rows);
  }

  /** Transmission stops exactly when some stretch of the error log first adds up to 100, and never in the first 5 seconds. */
  lemma StopsAtFirstBadWindow(w: World)
    requires Reachable(w)
    ensures w.ctl.stop <==> Reached(w.log, 100)
    ensures !w.ctl.stop ==> w.ctl.errors == Level(w.log) < 100
    ensures w.ctl.stop ==> 5000 <= w.ctl.timers.now
  {
    ReachableKeepsInv(w);
  }

  /** The error byte is exact up to and including the error that stops the transmission. */
  lemma CounterNeverWrapsWhileSending(w: World)
    requires Inv(w) && !w.ctl.stop
    ensures var r := ProcessError(w);
            && r.ctl.errors == Level(r.log) <= TOO_MANY_ERRORS + 1
            && (r.ctl.stop <==> r.ctl.errors >= TOO_MANY_ERRORS)
  {
    LevelAppend(w.log, if w.ctl.grace then 0 else 2);
  }
}
