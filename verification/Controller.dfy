/** The controller's variables and handlers (controller/main.cpp, controller/state_machine.hpp). */
module Controllers {
  import opened TimerModel
  import opened TimerServices
  import opened ControllerModel
  import OpCodes

  /** The pin of each row of output_statuses. */
  const ROW_PINS: seq<nat> := [CHUCK_OPEN, SPINDLE_BLAST, TOOLSET_BLAST, DOOR_UP, DOOR_DOWN]

  class Controller {
    const timer: TimerService
    const states: array<bool>      // output_statuses[i].state
    var current: OpCodes.Byte
    var transmit: nat
    var door: Door
    var movement: nat              // valve::timer
    var errors: nat
    var grace: bool
    var stop: bool

    /** Room for the timers a handler may arm. */
    ghost predicate Ready(arms: nat)
      reads this, timer, timer.slots
    {
      states.Length == |ROWS| && timer.Room(arms, COMPLETE_TIMEOUT)
    }

    /** A moving door has had its timer armed. */
    ghost predicate Timed()
      reads `door, `movement
    {
      Moves(door) ==> movement != INVALID_INSTANCE
    }

    ghost function State(): Ctl
      requires timer.Valid()
      reads this, states, timer, timer.slots
    {
      Ctl(timer.Abs(), states[..], current, AsInstance(transmit), door, AsInstance(movement), errors, grace, stop)
    }

    constructor (timer: TimerService)
      requires timer.Room(2, COMPLETE_TIMEOUT)
      ensures fresh(states) && this.timer == timer && Ready(2) && Timed()
      ensures State() == Boot().ctl.(timers := timer.Abs())
    {
      this.timer := timer;
      states := new bool[|ROWS|](_ => false);
      current, transmit := OpCodes.IDLE, INVALID_INSTANCE;
      door, movement := Unknown, INVALID_INSTANCE;
      errors, grace, stop := 0, true, false;
    }

    method TriggerNextTransmit(ghost arms: nat)
      requires Ready(arms) && 0 < arms
      modifies `transmit, timer, timer.slots
      ensures Ready(arms - 1) && State() == Trigger(old(State()))
    {
      hide Insert, Remove;
      if transmit != INVALID_INSTANCE {
        var _ := timer.CancelInstance(transmit, arms, COMPLETE_TIMEOUT);
      }
      transmit := timer.ArmAfter(COMMAND, 1, arms, COMPLETE_TIMEOUT);
    }

    method RefreshOpcode(ghost arms: nat)
      requires Ready(arms) && 0 < arms
      modifies `transmit, `current, timer, timer.slots
      ensures Ready(arms - 1) && State() == Refresh(old(State()))
    {
      var newCommand := OpCodes.IDLE;
      var i := 0;
      assert states[0..] == states[..];
      while i < |ROWS|
        invariant 0 <= i <= |ROWS| && newCommand == OpCodes.IDLE
        invariant FirstActive(states[..], ROWS) == FirstActive(states[i..], ROWS[i..])
        modifies {}
      {
        if states[i] {
          newCommand := ROWS[i];
          break;
        }
        assert states[i..][1..] == states[i + 1..] && ROWS[i..][1..] == ROWS[i + 1..];
        i := i + 1;
      }
      assert newCommand == FirstActive(states[..], ROWS);
      if current != newCommand {
        current := newCommand;
        TriggerNextTransmit(arms);
      } else {
        timer.RoomShrinks(arms, COMPLETE_TIMEOUT);
      }
    }

    method OnInputChange(pin: nat, value: bool, ghost arms: nat)
      requires Ready(arms) && 0 < arms
      modifies `transmit, `current, states, timer, timer.slots
      ensures Ready(arms - 1) && State() == InputChange(old(State()), pin, value)
    {
      timer.RoomShrinks(arms, COMPLETE_TIMEOUT);
      var i := 0;
      while i < |ROW_PINS|
        invariant 0 <= i <= |ROW_PINS|
        invariant forall j :: 0 <= j < i ==> ROW_PINS[j] != pin
        modifies {}
      {
        if ROW_PINS[i] == pin {
          break;
        }
        i := i + 1;
      }
      assert forall j :: 0 <= j < |ROW_PINS| ==> ROW_PINS[j] == j;
      assert pin < |ROW_PINS| ==> ROW_PINS[pin] == pin;
      if i < |ROW_PINS| {
        states[i] := value;
        assert states[..] == old(states[..])[pin := value];
        RefreshOpcode(arms);
      }
    }

    // The handlers of the communication

    /** on_send_i2c_command; sent tells whether the current command goes out. */
    method OnSendCommand(busy: bool, ghost arms: nat) returns (sent: bool)
      requires Ready(arms) && 0 < arms
      modifies `transmit, `errors, `stop, timer, timer.slots
      ensures Ready(arms - 1) && sent == (!old(stop) && !busy)
      ensures State() == if old(stop) then old(State())
                         else ArmSend(if busy then CommsError(old(State())) else old(State()))
    {
      hide ArmSend, CommsError;
      sent := false;
      if !stop {
        if busy {
          OnI2cError();
        } else {
          sent := true;
        }
        SendAgain(arms);
      } else {
        timer.RoomShrinks(arms, COMPLETE_TIMEOUT);
      }
    }

    method SendAgain(ghost arms: nat)
      requires Ready(arms) && 0 < arms
      modifies `transmit, timer, timer.slots
      ensures Ready(arms - 1) && State() == ArmSend(old(State()))
    {
      hide Insert;
      transmit := timer.ArmAfter(COMMAND, SEND_PERIOD, arms, COMPLETE_TIMEOUT);
    }

    method OnI2cError()
      requires timer.Valid()
      modifies `errors, `stop
      ensures State() == CommsError(old(State()))
    {
      if !grace {
        errors := (errors + 2) % 256;
      }
      if errors >= TOO_MANY_ERRORS {
        stop := true;
      }
    }

    method OnI2cRead()
      requires timer.Valid()
      modifies `errors
      ensures State() == GoodRead(old(State()))
    {
      if errors > 0 {
        errors := errors - 1;
      }
    }

    // The actions of the door's transition table

    method ArmTimer(delay: nat, ghost arms: nat)
      requires Ready(arms) && 0 < arms && delay <= COMPLETE_TIMEOUT
      modifies `movement, timer, timer.slots
      ensures Ready(arms - 1) && Timed() && State() == ArmMovement(old(State()), delay)
    {
      movement := timer.ArmAfter(MOVE_TIMEOUT, delay, arms, COMPLETE_TIMEOUT);
    }

    method StopTimer(ghost arms: nat)
      requires Ready(arms) && movement != INVALID_INSTANCE
      modifies timer, timer.slots
      ensures Ready(arms) && State() == CancelMovement(old(State()))
    {
      var _ := timer.CancelInstance(movement, arms, COMPLETE_TIMEOUT);
    }

    /** push_on and pull_on, for the door's request row. */
    method StartMoving(pin: nat)
      requires Ready(2) && pin < |ROWS|
      modifies `transmit, `current, `movement, states, timer, timer.slots
      ensures Ready(0) && Timed() && State() == ArmMovement(InputChange(old(State()), pin, true), MOVING_TIMEOUT)
    {
      OnInputChange(pin, true, 2);
      ArmTimer(MOVING_TIMEOUT, 1);
    }

    /** push_off and pull_off */
    method Arrive(pin: nat)
      requires Ready(1) && movement != INVALID_INSTANCE && pin < |ROWS|
      modifies `transmit, `current, states, timer, timer.slots
      ensures Ready(0) && State() == CancelMovement(InputChange(old(State()), pin, false))
    {
      OnInputChange(pin, false, 1);
      StopTimer(0);
    }

    /** door_moving */
    method KeepMoving()
      requires Ready(1) && movement != INVALID_INSTANCE
      modifies `movement, timer, timer.slots
      ensures Ready(0) && Timed() && State() == ArmMovement(CancelMovement(old(State())), COMPLETE_TIMEOUT)
    {
      StopTimer(1);
      ArmTimer(COMPLETE_TIMEOUT, 1);
    }

    /** process_event: the state changes before the action runs; an event without a row does nothing. */
    method ProcessEvent(ev: DoorEvent)
      requires Ready(2) && Timed()
      modifies `door, `transmit, `current, `movement, states, timer, timer.slots
      ensures Ready(0) && Timed()
      ensures State() == Settle(old(door), ev, Enter(old(State()), ev)) && door == Transition(old(door), ev).1
    {
      hide InputChange, ArmMovement, CancelMovement;
      timer.RoomShrinks(2, COMPLETE_TIMEOUT);
      timer.RoomShrinks(1, COMPLETE_TIMEOUT);
      match (door, ev)
      case (Unknown, IsUp) => door := Opened;
      case (Unknown, IsDown) => door := Closed;
      case (Closed, Open) => door := Opening; StartMoving(DOOR_UP);
      case (Opened, Close) => door := Closing; StartMoving(DOOR_DOWN);
      case (Opening, MovingUp) => KeepMoving();
      case (Opening, Timeout) => door := Unknown; OnInputChange(DOOR_UP, false, 1);
      case (Opening, IsUp) => door := Opened; Arrive(DOOR_UP);
      case (Closing, MovingDown) => KeepMoving();
      case (Closing, Timeout) => door := Unknown; OnInputChange(DOOR_DOWN, false, 1);
      case (Closing, IsDown) => door := Closed; Arrive(DOOR_DOWN);
      case _ =>
    }

    /** on_door_sensor_change */
    method OnDoorSensorChange(pin: nat, value: bool)
      requires Ready(2) && Timed()
      modifies `door, `transmit, `current, `movement, states, timer, timer.slots
      ensures Ready(0) && Timed()
      ensures door == if pin == DOOR_DOWN && value && (old(door) == Closing || old(door) == Unknown) then Closed
                      else if pin == DOOR_UP && value && (old(door) == Opening || old(door) == Unknown) then Opened
                      else old(door)
      ensures var (known, ev) := SensorEvent(pin, value);
              State() == if known then Settle(old(door), ev, Enter(old(State()), ev)) else old(State())
    {
      hide Settle, Enter;
      timer.RoomShrinks(2, COMPLETE_TIMEOUT);
      timer.RoomShrinks(1, COMPLETE_TIMEOUT);
      if pin == DOOR_DOWN {
        if value {
          ProcessEvent(IsDown);
        } else {
          ProcessEvent(MovingUp);
        }
      } else if pin == DOOR_UP {
        if value {
          ProcessEvent(IsUp);
        } else {
          ProcessEvent(MovingDown);
        }
      }
    }

    /** on_cmd_timeout */
    method OnCommandTimeout()
      requires Ready(2) && Timed()
      modifies `door, `transmit, `current, `movement, states, timer, timer.slots
      ensures Ready(0) && Timed() && State() == Settle(old(door), Timeout, Enter(old(State()), Timeout))
    {
      ProcessEvent(Timeout);
    }

    /** on_comms_grace_over */
    method OnCommsGraceOver()
      requires timer.Valid()
      modifies `grace
      ensures State() == old(State()).(grace := false)
    {
      grace := false;
    }

    /** on_door_cmd */
    method OnDoorCommand(value: bool)
      requires Ready(2) && Timed()
      modifies `door, `transmit, `current, `movement, states, timer, timer.slots
      ensures Ready(0) && Timed()
      ensures door == if value && old(door) == Closed then Opening
                      else if !value && old(door) == Opened then Closing else old(door)
      ensures var ev := if value then Open else Close;
              State() == Settle(old(door), ev, Enter(old(State()), ev))
    {
      hide Settle, Enter;
      if value {
        ProcessEvent(Open);
      } else {
        ProcessEvent(Close);
      }
    }
  }
}
