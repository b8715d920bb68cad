/** The bus master: the driver of asx/src/twim.c and its one client, controller/i2c.c. */
module Twim {
  import opened OpCodes

  datatype Status = Success | InProgress | Busy | IoError | NoMemory | BadProtocol | BadData

  /** What an interrupt handler makes the peripheral do. */
  datatype Drive = Nothing | StartWrite | StartRead | Send(byte: Byte) | Stop | AckAndRead | NackAndStop

  /** The bits of MSTATUS the handler looks at. */
  datatype MasterFlags = MasterFlags(arbLost: bool, busErr: bool, rxNack: bool, wif: bool, rif: bool)

  /** What the controller is told about a command. */
  datatype Outcome = Read(on: bool) | Failed(status: Status)

  /** The transfer descriptor, the package it points to, and the client's variables. */
  datatype Master = Master(
    lastSent: Byte, addr: seq<Byte>, buffer: seq<Byte>,
    addrCount: nat, dataCount: nat, read: bool, locked: bool, status: Status,
    outcomes: seq<Outcome>)

  /** What _i2c_on_complete reports. */
  function OutcomeOf(lastSent: Byte, received: Byte, status: Status): Outcome {
    if status != Success then Failed(status)
    else match DecodeReply(lastSent, received)
      case On => Read(true)
      case Off => Read(false)
      case Error => Failed(BadData)
  }

  /** The end of a transfer: the callback frees the lock and reports. */
  function Finish(m: Master, status: Status): Master
    requires |m.buffer| > 0
  {
    m.(status := status, locked := false, outcomes := m.outcomes + [OutcomeOf(m.lastSent, m.buffer[0], status)])
  }

  function WriteStep(m: Master): (Master, Drive)
    requires |m.buffer| > 0
  {
    if m.addrCount < |m.addr| then
      (m.(addrCount := m.addrCount + 1), Send(m.addr[m.addrCount]))
    else if m.dataCount < |m.buffer| then
      if m.read then (m, StartRead) else (m.(dataCount := m.dataCount + 1), Send(m.buffer[m.dataCount]))
    else (Finish(m, Success), Stop)
  }

  function ReadStep(m: Master, data: Byte): (Master, Drive)
    requires |m.buffer| > 0
  {
    if m.dataCount < |m.buffer| then
      var m' := m.(buffer := m.buffer[m.dataCount := data], dataCount := m.dataCount + 1);
      if m'.dataCount < |m.buffer| then (m', AckAndRead) else (Finish(m', Success), NackAndStop)
    else (Finish(m, NoMemory), Stop)
  }

  function MasterStep(m: Master, flags: MasterFlags, data: Byte): (Master, Drive)
    requires |m.buffer| > 0
  {
    if flags.arbLost then (Finish(m, Busy), Stop)
    else if flags.busErr || flags.rxNack then (Finish(m, IoError), Stop)
    else if flags.wif then WriteStep(m)
    else if flags.rif then ReadStep(m, data)
    else (Finish(m, BadProtocol), Nothing)
  }

  /** twi_master_transfer without waiting: what goes on the bus, or the refusal. */
  function Begin(m: Master, read: bool): (Master, Status, Drive) {
    if m.locked then (m, Busy, Nothing)
    else
      (m.(locked := true, status := InProgress, addrCount := 0, dataCount := 0, read := read), Success,
       if |m.addr| > 0 || !read then StartWrite else StartRead)
  }

  /** i2c_master_send; the package is written before the lock is tried. */
  function SendCode(m: Master, code: Byte): (Master, Drive) {
    var m' := m.(lastSent := code, addr := [code]);
    var (m'', status, drive) := Begin(m', true);
    (if status == Success then m'' else m''.(outcomes := m''.outcomes + [Failed(status)]), drive)
  }

  /**
   A command sent while a transfer still holds the lock: its own failure is reported at once, and a
   reply to the earlier command that then arrives is understood exactly if the two commands are equal.
   */
  lemma BusySendSpoilsReply(m: Master, code: Byte, pressure: bool)
    requires m.locked && m.read && |m.buffer| == 1 && m.addr == [m.lastSent]
    requires m.addrCount == 1 && m.dataCount == 0
    ensures var reply := EncodeReply(if pressure then On else Off, m.lastSent);
            var m' := MasterStep(SendCode(m, code).0, MasterFlags(false, false, false, false, true), reply).0;
            && m'.outcomes[..|m.outcomes| + 1] == m.outcomes + [Failed(Busy)]
            && |m'.outcomes| == |m.outcomes| + 2
            && (m'.outcomes[|m.outcomes| + 1] == Read(pressure) <==> code == m.lastSent)
  {
    ReplyDecodes(code, m.lastSent, if pressure then On else Off);
  }

  // ---------------------------------------------------------------------------------------------

  /** The driver's static descriptor, the client's static package, and what the client notified. */
  class I2cMaster {
    var lastSent: Byte
    const addr: array<Byte>
    var addrLength: nat
    const buffer: array<Byte>
    var addrCount: nat
    var dataCount: nat
    var read: bool
    var locked: bool
    var status: Status
    ghost var outcomes: seq<Outcome>

    ghost predicate Valid()
      reads this
    {
      addr.Length == 3 && addrLength <= 3 && buffer.Length > 0 && addr != buffer
    }

    ghost function State(): Master
      requires Valid()
      reads this, addr, buffer
    {
      Master(lastSent, addr[..addrLength], buffer[..], addrCount, dataCount, read, locked, status, outcomes)
    }

    constructor (length: nat)
      requires length > 0
      ensures Valid() && fresh(addr) && fresh(buffer) && buffer.Length == length
      ensures !locked && outcomes == []
    {
      lastSent, addrLength, addrCount, dataCount, read := 0, 0, 0, 0, false;
      addr := new Byte[3](_ => 0);
      buffer := new Byte[length](_ => 0);
      locked, status, outcomes := false, Success, [];
    }

    /** _i2c_on_complete; twim_release waits for the bus to go idle and frees the lock. */
    method OnComplete(status: Status)
      requires Valid() && status == this.status != InProgress
      modifies `locked, `outcomes
      ensures State() == Finish(old(State()), status)
    {
      locked := false;
      if status == Success {
        var reply := DecodeReply(lastSent, buffer[0]);
        if reply == Error {
          outcomes := outcomes + [Failed(BadData)];
        } else {
          outcomes := outcomes + [Read(reply == On)];
        }
      } else {
        outcomes := outcomes + [Failed(status)];
      }
    }

    /** twim_write_handler */
    method WriteHandler() returns (drive: Drive)
      requires Valid()
      modifies `addrCount, `dataCount, `status, `locked, `outcomes
      ensures (State(), drive) == WriteStep(old(State()))
    {
      if addrCount < addrLength {
        drive := Send(addr[addrCount]);
        addrCount := addrCount + 1;
      } else if dataCount < buffer.Length {
        if read {
          drive := StartRead;
        } else {
          drive := Send(buffer[dataCount]);
          dataCount := dataCount + 1;
        }
      } else {
        drive := Stop;
        status := Success;
        OnComplete(Success);
      }
    }

    /** twim_read_handler */
    method ReadHandler(data: Byte) returns (drive: Drive)
      requires Valid()
      modifies `dataCount, `status, `locked, `outcomes, buffer
      ensures (State(), drive) == ReadStep(old(State()), data)
    {
      if dataCount < buffer.Length {
        buffer[dataCount] := data;
        dataCount := dataCount + 1;
        if dataCount < buffer.Length {
          drive := AckAndRead;
        } else {
          drive := NackAndStop;
          status := Success;
          OnComplete(Success);
        }
      } else {
        drive := Stop;
        status := NoMemory;
        OnComplete(NoMemory);
      }
      assert addr[..addrLength] == old(addr[..addrLength]);
    }

    /** twim_interrupt_handler */
    method InterruptHandler(flags: MasterFlags, data: Byte) returns (drive: Drive)
      requires Valid()
      modifies this, buffer
      ensures Valid() && (State(), drive) == MasterStep(old(State()), flags, data)
      ensures flags.arbLost ==> outcomes == old(outcomes) + [Failed(Busy)]
      ensures !flags.arbLost && (flags.busErr || flags.rxNack) ==> outcomes == old(outcomes) + [Failed(IoError)]
      ensures flags == MasterFlags(false, false, false, false, false) ==> outcomes == old(outcomes) + [Failed(BadProtocol)]
    {
      if flags.arbLost {
        drive, status := Stop, Busy;
        OnComplete(Busy);
      } else if flags.busErr || flags.rxNack {
        drive, status := Stop, IoError;
        OnComplete(IoError);
      } else if flags.wif {
        drive := WriteHandler();
      } else if flags.rif {
        drive := ReadHandler(data);
      } else {
        drive, status := Nothing, BadProtocol;
        OnComplete(BadProtocol);
      }
    }

    /** twi_master_transfer with no_wait set. */
    method Transfer(read: bool) returns (result: Status, drive: Drive)
      requires Valid()
      modifies `addrCount, `dataCount, `read, `status, `locked
      ensures (State(), result, drive) == Begin(old(State()), read)
    {
      if locked {
        return Busy, Nothing;
      }
      locked, status := true, InProgress;
      addrCount, dataCount, this.read := 0, 0, read;
      drive := if addrLength > 0 || !read then StartWrite else StartRead;
      result := Success;
    }

    /** i2c_master_send */
    method MasterSend(code: Byte) returns (drive: Drive)
      requires Valid()
      modifies this, addr
      ensures Valid() && (State(), drive) == SendCode(old(State()), code)
    {
      lastSent := code;
      addr[0] := code;
      addrLength := 1;
      assert addr[..1] == [code] && buffer[..] == old(buffer[..]);
      var result;
      result, drive := Transfer(true);
      if result != Success {
        outcomes := outcomes + [Failed(result)];
      }
    }
  }
}
