/** What each handler of the controller does (controller/main.cpp, controller/state_machine.hpp). */
module ControllerModel {
  import opened TimerModel
  import opened ReactorModel
  import opened Runtime
  import opened Pins
  import OpCodes

  // The handlers with an effect here by their registration, and all priorities and queue sizes.
  const COMMAND: Handle := 1       // react_i2c_command
  const READ: Handle := 2
  const COMMS_ERROR: Handle := 4
  const INPUT: Handle := 5
  const SENSOR: Handle := 6
  const DOOR: Handle := 7
  const MOVE_TIMEOUT: Handle := 8
  const GRACE_OVER: Handle := 9
  const TIMER: Handle := 10
  const OUTPUT: Handle := 11
  const SAMPLE: Handle := 12
  const TUNE: Handle := 15
  const TONE: Handle := 16

  const PRIORITIES: seq<nat> := [180, 130, 130, 80, 80, 80, 80, 80, 30, 30, 190, 180, 90, 170, 170, 130, 130]
  const CAPS: seq<nat> := [1, 2, 1, 1, 1, 1, 1, 1, 1, 1, 1, 8, 1, 1, 1, 1, 1]

  // Pins; the first five are the rows of output_statuses.
  const CHUCK_OPEN: nat := 0
  const SPINDLE_BLAST: nat := 1
  const TOOLSET_BLAST: nat := 2
  const DOOR_UP: nat := 3
  const DOOR_DOWN: nat := 4

  const ROWS: seq<OpCodes.Byte> :=
    [OpCodes.UNCLAMP_CHUCK, OpCodes.BLAST_SPINDLE, OpCodes.BLAST_TOOLSETTER, OpCodes.PULL_DOOR, OpCodes.PUSH_DOOR]

  const TOO_MANY_ERRORS := 100
  const GRACE_PERIOD := 5000
  const SEND_PERIOD := 100
  const MOVING_TIMEOUT := 3000
  const COMPLETE_TIMEOUT := 8000

  /** Only the application's timers notify these three; react_input_change only hears the first three pins. */
  const RULES := Rules(CAPS, TIMER, {COMMAND, MOVE_TIMEOUT, GRACE_OVER}, {OUTPUT, SAMPLE, 13, 14, TUNE, TONE}, {INPUT}, 6)

  datatype Door = Unknown | Closed | Opened | Opening | Closing

  datatype DoorEvent = Open | Close | IsUp | IsDown | MovingUp | MovingDown | Timeout

  datatype Ctl = Ctl(
    timers: Timers,
    rows: seq<bool>,          // output_statuses[i].state
    current: OpCodes.Byte,    // current_command
    transmit: Instance,       // transmit_timer
    door: Door,
    movement: Instance,       // valve::timer
    errors: nat,              // comms_error_count
    grace: bool,              // comms_in_error_grace_period_active
    stop: bool)               // stop_transmit

  /** With the queues, and with the log of what the error counter was told. */
  datatype World = World(ctl: Ctl, queues: Queues, log: seq<int>)

  /** The opcode of the first active row, or idle. */
  function FirstActive(rows: seq<bool>, codes: seq<OpCodes.Byte>): OpCodes.Byte
    requires |rows| == |codes|
  {
    if rows == [] then OpCodes.IDLE else if rows[0] then codes[0] else FirstActive(rows[1..], codes[1..])
  }

  // ---------------------------------------------------------------------------------------------
  // Commands

  /** trigger_next_transmit */
  function Trigger(c: Ctl): (r: Ctl)
    ensures r.rows == c.rows
  {
    var t := CancelInstance(c.timers, c.transmit);
    c.(timers := Arm(t, COMMAND, t.now + 1, 0, 0), transmit := Armed(t.next))
  }

  /** refresh_opcode */
  function Refresh(c: Ctl): (r: Ctl)
    requires |c.rows| == |ROWS|
    ensures |r.rows| == |ROWS|
  {
    var cmd := FirstActive(c.rows, ROWS);
    if c.current != cmd then Trigger(c.(current := cmd)) else c
  }

  /** on_input_change */
  function InputChange(c: Ctl, pin: int, value: bool): (r: Ctl)
    requires |c.rows| == |ROWS|
    ensures |r.rows| == |ROWS|
  {
    if 0 <= pin < |ROWS| then Refresh(c.(rows := c.rows[pin := value])) else c
  }

  /** The arming that ends on_send_i2c_command. */
  function ArmSend(c: Ctl): Ctl {
    c.(timers := Arm(c.timers, COMMAND, c.timers.now + SEND_PERIOD, 0, 0), transmit := Armed(c.timers.next))
  }

  // ---------------------------------------------------------------------------------------------
  // The door

  predicate Moves(d: Door) {
    d == Opening || d == Closing
  }

  /** Whether the transition table has a row for the state and the event, and its target. */
  function Transition(d: Door, ev: DoorEvent): (r: (bool, Door)) {
    match (d, ev)
    case (Unknown, IsUp) => (true, Opened)
    case (Unknown, IsDown) => (true, Closed)
    case (Closed, Open) => (true, Opening)
    case (Opened, Close) => (true, Closing)
    case (Opening, MovingUp) => (true, Opening)
    case (Opening, Timeout) => (true, Unknown)
    case (Opening, IsUp) => (true, Opened)
    case (Closing, MovingDown) => (true, Closing)
    case (Closing, Timeout) => (true, Unknown)
    case (Closing, IsDown) => (true, Closed)
    case _ => (false, d)
  }

  /** A transition up to the LED change of its action: the new state, then the door's request row. */
  function Enter(c: Ctl, ev: DoorEvent): (r: Ctl)
    requires |c.rows| == |ROWS|
    ensures |r.rows| == |ROWS|
  {
    var (known, d) := Transition(c.door, ev);
    var c1 := c.(door := d);
    if !known then c
    else if d == Opening && c.door == Closed then InputChange(c1, DOOR_UP, true)
    else if d == Closing && c.door == Opened then InputChange(c1, DOOR_DOWN, true)
    else if c.door == Opening && d != Opening then InputChange(c1, DOOR_UP, false)
    else if c.door == Closing && d != Closing then InputChange(c1, DOOR_DOWN, false)
    else c1
  }

  function ArmMovement(c: Ctl, delay: nat): Ctl {
    c.(timers := Arm(c.timers, MOVE_TIMEOUT, c.timers.now + delay, 0, 0), movement := Armed(c.timers.next))
  }

  function CancelMovement(c: Ctl): Ctl {
    c.(timers := CancelInstance(c.timers, c.movement))
  }

  /** The rest of the action: the movement timer. The event was taken in state before. */
  function Settle(before: Door, ev: DoorEvent, c: Ctl): (r: Ctl)
    ensures r == c.(timers := r.timers, movement := r.movement)
  {
    var (known, d) := Transition(before, ev);
    if !known then c
    else if Moves(d) && !Moves(before) then ArmMovement(c, MOVING_TIMEOUT)
    else if Moves(d) then ArmMovement(CancelMovement(c), COMPLETE_TIMEOUT)
    else if Moves(before) && ev != Timeout then CancelMovement(c)
    else c
  }

  /** on_door_sensor_change: the event of a sensor, if it is one of the door's. */
  function SensorEvent(pin: int, value: bool): (r: (bool, DoorEvent)) {
    if pin == DOOR_DOWN then (true, if value then IsDown else MovingUp)
    else if pin == DOOR_UP then (true, if value then IsUp else MovingDown)
    else (false, Timeout)
  }

  // ---------------------------------------------------------------------------------------------
  // Communication errors, in the release build

  /** on_i2c_error; comms_error_count is a byte. */
  function CommsError(c: Ctl): Ctl {
    var e := if c.grace then c.errors else (c.errors + 2) % 256;
    c.(errors := e, stop := c.stop || e >= TOO_MANY_ERRORS)
  }

  /** on_i2c_read */
  function GoodRead(c: Ctl): Ctl {
    c.(errors := if c.errors > 0 then c.errors - 1 else c.errors)
  }

  // ---------------------------------------------------------------------------------------------
  // Handlers in the firmware around them

  function SysOf(w: World): Sys {
    Sys(w.ctl.timers, w.queues)
  }

  function WithSys(w: World, s: Sys): World {
    w.(ctl := w.ctl.(timers := s.timers), queues := s.queues)
  }

  function Around(w: World, env: seq<EnvOp>): (r: World)
    ensures Keeps(w.queues, r.queues)
    ensures r == WithSys(w, SysOf(r))
  {
    WithSys(w, HappenAll(SysOf(w), RULES, env))
  }

  /** The LED changes within the action are part of mid. */
  function ProcessDoor(w: World, ev: DoorEvent, mid: seq<EnvOp>): (r: World)
    requires |w.ctl.rows| == |ROWS|
    ensures |r.ctl.rows| == |ROWS| && |r.queues| == |w.queues|
  {
    var w1 := Around(w.(ctl := Enter(w.ctl, ev)), mid);
    w1.(ctl := Settle(w.ctl.door, ev, w1.ctl))
  }

  function ProcessError(w: World): World {
    w.(ctl := CommsError(w.ctl), log := w.log + [if w.ctl.grace then 0 else 2])
  }

  /** on_send_i2c_command; a failed transfer notifies react_i2c_error, as part of mid. */
  function ProcessSend(w: World, busy: bool, mid: seq<EnvOp>): (r: World)
    ensures r.ctl.rows == w.ctl.rows && |r.queues| == |w.queues|
  {
    if w.ctl.stop then w
    else
      var w1 := Around(if busy then ProcessError(w) else w, mid);
      w1.(ctl := ArmSend(w1.ctl))
  }

  /** One handler call; mid is what drivers and interrupts do during it. */
  function Call(w: World, call: Notice, busy: bool, mid: seq<EnvOp>): (r: World)
    requires |w.ctl.rows| == |ROWS|
    ensures |r.ctl.rows| == |ROWS| && |r.queues| == |w.queues|
  {
    if call.handle == COMMAND then ProcessSend(w, busy, mid)
    else if call.handle == READ then w.(ctl := GoodRead(w.ctl), log := w.log + [-1])
    else if call.handle == COMMS_ERROR then ProcessError(w)
    else if call.handle == INPUT then w.(ctl := InputChange(w.ctl, PinOf(call.arg), ValueOf(call.arg)))
    else if call.handle == SENSOR then
      var (known, ev) := SensorEvent(PinOf(call.arg), ValueOf(call.arg));
      if known then ProcessDoor(w, ev, mid) else w
    else if call.handle == DOOR then ProcessDoor(w, if ValueOf(call.arg) then Open else Close, mid)
    else if call.handle == MOVE_TIMEOUT then ProcessDoor(w, Timeout, mid)
    else if call.handle == GRACE_OVER then w.(ctl := w.ctl.(grace := false))
    else if call.handle == TIMER then WithSys(w, DispatchTimers(SysOf(w), RULES))
    else w
  }

  /** A round of the loop, or interrupts while it sleeps. */
  datatype Activity =
    | Asleep(env: seq<EnvOp>)
    | Round(isr: seq<EnvOp>, busy: bool, mid: seq<EnvOp>, after: seq<EnvOp>)

  /** The handler is chosen on the queues as they were before the interrupts of the round. */
  function Step(order: seq<Handle>, w: World, e: Activity): (r: World)
    requires |w.ctl.rows| == |ROWS| && IsPermutation(order, |w.queues|)
    ensures |r.ctl.rows| == |ROWS| && |r.queues| == |w.queues|
  {
    match e
    case Asleep(env) => Around(w, env)
    case Round(isr, busy, mid, after) =>
      var p := Pick(order, w.queues);
      if p == |order| then w
      else
        var h, w1 := order[p], Around(w, isr);
        var w2 := w1.(queues := Popped(w1.queues, h));
        Around(Call(w2, Notice(h, w1.queues[h][0]), busy, mid), after)
  }

  /** The static initial values. */
  function Boot(): World {
    World(Ctl(Timers(0, [], 0), [false, false, false, false, false], OpCodes.IDLE, None, Unknown, None, 0, true, false),
          seq(|CAPS|, _ => []), [])
  }

  /** The application's own start-up in main. */
  function Started(w: World): World {
    var triggered := Trigger(w.ctl);
    w.(ctl := triggered.(timers := Arm(triggered.timers, GRACE_OVER, triggered.timers.now + GRACE_PERIOD, 0, 0)))
  }

  /** main up to reactor_run; the drivers' own start-up is env. */
  function Start(env: seq<EnvOp>): World {
    Started(Around(Boot(), env))
  }

  function Run(order: seq<Handle>, env: seq<EnvOp>, events: seq<Activity>): (r: World)
    requires IsPermutation(order, |CAPS|)
    ensures |r.ctl.rows| == |ROWS| && |r.queues| == |CAPS|
  {
    if events == [] then Start(env)
    else Step(order, Run(order, env, events[..|events| - 1]), events[|events| - 1])
  }
}
