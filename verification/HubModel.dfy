/** What each handler of the hub does (hub/protocol.c). */
module HubModel {
  import opened TimerModel
  import opened ReactorModel
  import opened Runtime
  import OpCodes

  // The handlers, in registration order, with their priorities; every queue holds one item.
  const TIMER: Handle := 0
  const SAMPLE: Handle := 1
  const DIRECT: Handle := 2
  const ACKNOWLEDGE: Handle := 3
  const ACCEPT: Handle := 4     // _react_accept_comms
  const CHECK: Handle := 5      // _react_check_comms
  const TRAFFIC: Handle := 6    // protocol_handle_traffic

  const PRIORITIES: seq<nat> := [190, 90, 170, 170, 100, 100, 230]
  const CAPS: seq<nat> := [1, 1, 1, 1, 1, 1, 1]
  const RULES := Rules(CAPS, TIMER, {ACCEPT, CHECK}, {SAMPLE, DIRECT, ACKNOWLEDGE}, {}, 0)

  const QUIET_PERIOD := 1000      // NO_NEW_COMMAND_GRACE_PERIOD
  const FIRST_CHECK := 5000
  const CHECK_PERIOD := 2000

  /** The valve outputs. */
  datatype Valves = Valves(toolSetter: bool, chuck: bool, spindle: bool, push: bool, pull: bool)

  const ALL_OFF := Valves(false, false, false, false, false)

  /** The outputs a command asks for; the reserved ones ask for none. */
  function ValvesOf(cmd: OpCodes.Byte): Valves {
    if cmd == OpCodes.PUSH_DOOR then ALL_OFF.(push := true)
    else if cmd == OpCodes.PULL_DOOR then ALL_OFF.(pull := true)
    else if cmd == OpCodes.BLAST_TOOLSETTER then ALL_OFF.(toolSetter := true)
    else if cmd == OpCodes.UNCLAMP_CHUCK then ALL_OFF.(chuck := true)
    else if cmd == OpCodes.BLAST_SPINDLE then ALL_OFF.(spindle := true)
    else ALL_OFF
  }

  function OnCount(v: Valves): nat {
    (if v.toolSetter then 1 else 0) + (if v.chuck then 1 else 0) + (if v.spindle then 1 else 0)
    + (if v.push then 1 else 0) + (if v.pull then 1 else 0)
  }

  datatype Hub = Hub(
    timers: Timers,
    current: OpCodes.Byte,    // _current_cmd
    valves: Valves,
    ready: bool,              // _ready_to_accept_new_command
    accept: Instance,         // _ready_to_accept_timer_instance
    messages: nat)            // _message_received_counter, 16 bits

  /** An application of a command to the valves. */
  datatype Applied = Applied(at: nat, byTraffic: bool)

  /**
   With the queues; the applications so far; the valid messages since the last check and between the
   two checks before; and when the last of them was handled.
   */
  datatype World = World(hub: Hub, queues: Queues, applied: seq<Applied>, since: nat, before: nat, heard: nat)

  /** _protocol_process */
  function Process(h: Hub, cmd: OpCodes.Byte): Hub {
    var t := CancelInstance(h.timers, h.accept);
    h.(valves := ValvesOf(cmd), ready := false,
       timers := Arm(t, ACCEPT, t.now + QUIET_PERIOD, 0, 0), accept := Armed(t.next))
  }

  /** _on_check_comms */
  function CheckComms(h: Hub): Hub {
    (if h.messages == 0 then Process(h, OpCodes.IDLE).(current := OpCodes.IDLE) else h).(messages := 0)
  }

  /** _on_accept_command_again */
  function AcceptAgain(h: Hub): Hub {
    h.(ready := true, accept := None)
  }

  predicate Changes(h: Hub, cmd: OpCodes.Byte) {
    OpCodes.CheckValid(cmd) != OpCodes.ERROR && h.current != cmd && h.ready
  }

  /** protocol_handle_traffic */
  function HandleTraffic(h: Hub, cmd: OpCodes.Byte): Hub {
    if OpCodes.CheckValid(cmd) == OpCodes.ERROR then h
    else
      var counted := h.(messages := (h.messages + 1) % 0x1_0000);
      if Changes(h, cmd) then Process(counted.(current := cmd), cmd) else counted
  }

  /** The byte a notification carries. */
  function ByteOf(arg: int): OpCodes.Byte {
    (arg % 256) as OpCodes.Byte
  }

  function SysOf(w: World): Sys {
    Sys(w.hub.timers, w.queues)
  }

  function WithSys(w: World, s: Sys): World {
    w.(hub := w.hub.(timers := s.timers), queues := s.queues)
  }

  function Around(w: World, env: seq<EnvOp>): (r: World)
    ensures Keeps(w.queues, r.queues)
    ensures r == WithSys(w, SysOf(r))
  {
    WithSys(w, HappenAll(SysOf(w), RULES, env))
  }

  function Call(w: World, call: Notice): (r: World)
    ensures |r.queues| == |w.queues|
  {
    if call.handle == ACCEPT then w.(hub := AcceptAgain(w.hub))
    else if call.handle == CHECK then
      w.(hub := CheckComms(w.hub),
         applied := if w.hub.messages == 0 then w.applied + [Applied(w.hub.timers.now, false)] else w.applied,
         before := w.since, since := 0)
    else if call.handle == TRAFFIC then
      var cmd := ByteOf(call.arg);
      w.(hub := HandleTraffic(w.hub, cmd),
         applied := if Changes(w.hub, cmd) then w.applied + [Applied(w.hub.timers.now, true)] else w.applied,
         since := if OpCodes.CheckValid(cmd) != OpCodes.ERROR then w.since + 1 else w.since,
         heard := if OpCodes.CheckValid(cmd) != OpCodes.ERROR then w.hub.timers.now else w.heard)
    else if call.handle == TIMER then WithSys(w, DispatchTimers(SysOf(w), RULES))
    else w
  }

  datatype Activity =
    | Asleep(env: seq<EnvOp>)
    | Round(isr: seq<EnvOp>, after: seq<EnvOp>)

  /** The handler is chosen on the queues as they were before the interrupts of the round. */
  function Step(order: seq<Handle>, w: World, e: Activity): (r: World)
    requires IsPermutation(order, |w.queues|)
    ensures |r.queues| == |w.queues|
  {
    match e
    case Asleep(env) => Around(w, env)
    case Round(isr, after) =>
      var p := Pick(order, w.queues);
      if p == |order| then w
      else
        var h, w1 := order[p], Around(w, isr);
        var w2 := w1.(queues := Popped(w1.queues, h));
        Around(Call(w2, Notice(h, w1.queues[h][0])), after)
  }

  /** The static initial values. */
  function Boot(): World {
    World(Hub(Timers(0, [], 0), OpCodes.IDLE, ALL_OFF, true, None, 0), seq(|CAPS|, _ => []), [], 0, 0, 0)
  }

  /** main up to reactor_run; the drivers' own start-up is env. */
  function Start(env: seq<EnvOp>): World {
    var w := Around(Boot(), env);
    w.(hub := w.hub.(timers := Arm(w.hub.timers, CHECK, w.hub.timers.now + FIRST_CHECK, CHECK_PERIOD, 0)))
  }

  function Run(order: seq<Handle>, env: seq<EnvOp>, events: seq<Activity>): (r: World)
    requires IsPermutation(order, |CAPS|)
    ensures |r.queues| == |CAPS|
  {
    if events == [] then Start(env)
    else Step(order, Run(order, env, events[..|events| - 1]), events[|events| - 1])
  }
}
