/** The hub's variables, outputs and handlers (hub/protocol.c). */
module HubProtocols {
  import opened TimerModel
  import opened TimerCounts
  import opened TimerServices
  import opened HubModel
  import OpCodes

  class HubProtocol {
    const timer: TimerService
    var current: OpCodes.Byte
    var ready: bool
    var accept: nat
    var messages: nat
    // The output pins
    var toolSetter: bool
    var chuck: bool
    var spindle: bool
    var push: bool
    var pull: bool

    ghost function State(): Hub
      requires timer.Valid()
      reads this, timer, timer.slots
    {
      Hub(timer.Abs(), current, Valves(toolSetter, chuck, spindle, push, pull), ready, AsInstance(accept), messages)
    }

    /** The static initial values, and protocol_init. */
    constructor (timer: TimerService)
      requires timer.Valid() && timer.n < timer.N && timer.counter + FIRST_CHECK < RANGE && timer.Next() + 1 < RANGE
      requires AllNear(timer.counter, timer.Live())
      modifies timer`avail, timer`current, timer`n, timer.slots
      ensures this.timer == timer && timer.Valid()
      ensures State() == Boot().hub.(timers := TimerModel.Arm(old(timer.Abs()), CHECK, timer.counter + FIRST_CHECK, CHECK_PERIOD, 0))
    {
      hide Insert, InsertByDistance;
      this.timer := timer;
      current, ready, accept, messages := OpCodes.IDLE, true, INVALID_INSTANCE, 0;
      toolSetter, chuck, spindle, push, pull := false, false, false, false, false;
      new;
      InsertByDistanceIsInsert(timer.Live(), timer.counter,
                               Future(CHECK, timer.Next(), timer.counter + FIRST_CHECK, CHECK_PERIOD, 0));
      var _ := timer.Arm(CHECK, timer.CountFromNow(FIRST_CHECK), CHECK_PERIOD, 0);
    }

    /** Each output is on exactly for its own command. */
    ghost predicate OutputsFor(cmd: OpCodes.Byte)
      reads `toolSetter, `chuck, `spindle, `push, `pull
    {
      && (push <==> cmd == OpCodes.PUSH_DOOR) && (pull <==> cmd == OpCodes.PULL_DOOR)
      && (toolSetter <==> cmd == OpCodes.BLAST_TOOLSETTER) && (chuck <==> cmd == OpCodes.UNCLAMP_CHUCK)
      && (spindle <==> cmd == OpCodes.BLAST_SPINDLE)
    }

    /** The outputs written by _protocol_process: all off, then the command's own. */
    method SetOutputs(cmd: OpCodes.Byte)
      modifies `toolSetter, `chuck, `spindle, `push, `pull
      ensures Valves(toolSetter, chuck, spindle, push, pull) == ValvesOf(cmd)
      ensures OutputsFor(cmd)
    {
      toolSetter := false;
      chuck := false;
      spindle := false;
      push := false;
      pull := false;
      if cmd == OpCodes.PUSH_DOOR {
        push := true;
      } else if cmd == OpCodes.PULL_DOOR {
        pull := true;
      } else if cmd == OpCodes.BLAST_TOOLSETTER {
        toolSetter := true;
      } else if cmd == OpCodes.UNCLAMP_CHUCK {
        chuck := true;
      } else if cmd == OpCodes.BLAST_SPINDLE {
        spindle := true;
      }
    }

    /** _protocol_process */
    method Apply(cmd: OpCodes.Byte)
      requires timer.Room(1, QUIET_PERIOD)
      modifies `toolSetter, `chuck, `spindle, `push, `pull, `ready, `accept, timer, timer.slots
      ensures timer.Room(0, QUIET_PERIOD) && State() == Process(old(State()), cmd)
      ensures OutputsFor(cmd)
    {
      hide Insert, Remove, ValvesOf;
      SetOutputs(cmd);
      ready := false;
      RestartAccept();
    }

    method RestartAccept()
      requires timer.Room(1, QUIET_PERIOD)
      modifies `accept, timer, timer.slots
      ensures timer.Room(0, QUIET_PERIOD) && accept != INVALID_INSTANCE
      ensures var t := CancelInstance(old(timer.Abs()), AsInstance(old(accept)));
              timer.Abs() == TimerModel.Arm(t, ACCEPT, t.now + QUIET_PERIOD, 0, 0) && accept == t.next
    {
      if accept != INVALID_INSTANCE {
        var _ := timer.CancelInstance(accept, 1, QUIET_PERIOD);
      }
      accept := timer.ArmAfter(ACCEPT, QUIET_PERIOD, 1, QUIET_PERIOD);
    }

    /** _on_check_comms */
    method OnCheckComms()
      requires timer.Room(1, QUIET_PERIOD)
      modifies this, timer, timer.slots
      ensures timer.Room(0, QUIET_PERIOD) && State() == CheckComms(old(State()))
    {
      timer.RoomShrinks(1, QUIET_PERIOD);
      if messages == 0 {
        Apply(OpCodes.IDLE);
        current := OpCodes.IDLE;
      }
      messages := 0;
    }

    /** _on_accept_command_again */
    method OnAcceptAgain()
      requires timer.Valid()
      modifies `ready, `accept
      ensures State() == AcceptAgain(old(State()))
    {
      ready := true;
      accept := INVALID_INSTANCE;
    }

    /** protocol_handle_traffic */
    method OnTraffic(cmd: OpCodes.Byte)
      requires timer.Room(1, QUIET_PERIOD)
      modifies this, timer, timer.slots
      ensures timer.Room(0, QUIET_PERIOD) && State() == HandleTraffic(old(State()), cmd)
    {
      hide Process, OpCodes.CheckValid;
      timer.RoomShrinks(1, QUIET_PERIOD);
      if OpCodes.CheckValid(cmd) != OpCodes.ERROR {
        messages := (messages + 1) % 0x1_0000;
        if current != cmd && ready {
          current := cmd;
          Apply(cmd);
        }
      }
    }
  }
}
