/**
 The two drivers on one bus: a transfer as the sequence of interrupts it causes, with the faults that
 may strike at each. The format is the combined one (repeated START) of section 3.1.10 of NXP UM10204.
 */
module WireExchange {
  import opened OpCodes
  import opened Twim
  import opened Twis

  /** What happens on the bus next. */
  datatype Wire =
    | Idle
    | Address(reading: bool)                  // START or repeated START: the slave's address match
    | WriteAcked                              // the slave acknowledged: the master's write interrupt
    | Refused                                 // nobody acknowledged: the same interrupt, with RXACK
    | ToSlave(byte: Byte)                     // a byte for the slave's data interrupt
    | Request(stale: bool)                    // the slave's data interrupt, asking it for a byte
    | ToMaster(byte: Byte, live: bool)        // a byte for the master's read interrupt
    | Ending                                  // the master's final NACK reaches the slave
    | Stopped                                 // STOP

  datatype Fault = NoFault | Lost | MasterBusError | MasterSpurious | NoAck | SlaveBusError | SlaveCollision | SlaveSpurious

  /** What the surroundings contribute to one interrupt; staleNack is RXACK before any byte was sent. */
  datatype Tick = Tick(pressure: bool, staleNack: bool, fault: Fault)

  datatype World = World(m: Master, s: Slave, wire: Wire)

  /** What the master reads when no slave drives the bus. */
  const RELEASED: Byte := 0xFF

  function MasterSees(fault: Fault, wif: bool, rif: bool, nack: bool): MasterFlags {
    if fault == MasterSpurious then MasterFlags(false, false, false, false, false)
    else MasterFlags(fault == Lost, fault == MasterBusError, nack || fault == NoAck, wif, rif)
  }

  function SlaveSees(fault: Fault, apif: bool, ap: bool, dif: bool, dir: bool, nack: bool): SlaveFlags {
    if fault == SlaveSpurious then SlaveFlags(false, false, false, false, false, dir, nack)
    else SlaveFlags(fault == SlaveBusError, fault == SlaveCollision, apif, ap, dif, dir, nack)
  }

  /** Where the master's writes to the peripheral take the bus. */
  function Driven(drive: Drive, live: bool): Wire {
    match drive
    case Nothing => Idle
    case StartWrite => Address(false)
    case StartRead => Address(true)
    case Send(byte) => ToSlave(byte)
    case Stop => Stopped
    case AckAndRead => if live then Request(false) else ToMaster(RELEASED, false)
    case NackAndStop => if live then Ending else Stopped
  }

  function MasterTurn(w: World, flags: MasterFlags, data: Byte, live: bool): World
    requires |w.m.buffer| > 0
  {
    var (m, drive) := MasterStep(w.m, flags, data);
    World(m, w.s, Driven(drive, live))
  }

  /** One interrupt of either side. */
  function Step(w: World, e: Tick): World
    requires |w.m.buffer| > 0 && w.s.Sized()
  {
    match w.wire
    case Idle => w
    case Address(reading) =>
      if e.fault == NoAck then w.(wire := Refused)
      else
        var (s, response) := SlaveStep(w.s, SlaveSees(e.fault, true, true, false, reading, false), 0, e.pressure);
        World(w.m, s, if response != Respond then Refused else if reading then Request(e.staleNack) else WriteAcked)
    case WriteAcked => MasterTurn(w, MasterSees(e.fault, true, false, false), 0, true)
    case Refused => MasterTurn(w, MasterSees(e.fault, true, false, true), 0, true)
    case ToSlave(byte) =>
      if e.fault == NoAck then w.(wire := Refused)
      else
        var (s, response) := SlaveStep(w.s, SlaveSees(e.fault, false, false, true, false, false), byte, e.pressure);
        World(w.m, s, if response == Respond then WriteAcked else Refused)
    case Request(stale) =>
      var (s, response) := SlaveStep(w.s, SlaveSees(e.fault, false, false, true, true, stale), 0, e.pressure);
      World(w.m, s, if response.Load? then ToMaster(response.byte, true) else ToMaster(RELEASED, false))
    case ToMaster(byte, live) => MasterTurn(w, MasterSees(e.fault, false, true, false), byte, live)
    case Ending => World(w.m, SlaveStep(w.s, SlaveSees(e.fault, false, false, true, true, true), 0, e.pressure).0, Idle)
    case Stopped =>
      if w.s.stopInterrupt
      then World(w.m, SlaveStep(w.s, SlaveSees(e.fault, true, false, false, false, false), 0, e.pressure).0, Idle)
      else w.(wire := Idle)
  }

  // ---------------------------------------------------------------------------------------------
  // Every transfer ends

  /** The lock is held exactly while a transfer is under way, and the bus is where its counters say. */
  ghost predicate Open(w: World) {
    && |w.m.buffer| > 0 && w.s.Sized() && !w.s.abort
    && w.m.addrCount <= |w.m.addr| && w.m.dataCount <= |w.m.buffer|
    && (w.m.locked <==> w.m.status == InProgress)
    && (w.m.locked <==> !w.wire.Idle? && !w.wire.Ending? && !w.wire.Stopped?)
    && (w.wire == Address(true) || w.wire.Request? || w.wire.ToMaster? ==>
          w.m.read && w.m.addrCount == |w.m.addr| && w.m.dataCount < |w.m.buffer|)
  }

  /** The most interrupts still to come. */
  function Left(w: World): nat
    requires w.m.addrCount <= |w.m.addr| && w.m.dataCount <= |w.m.buffer|
    requires w.wire.ToMaster? ==> w.m.dataCount < |w.m.buffer|
  {
    var toMove := 2 * (|w.m.addr| - w.m.addrCount) + 2 * (|w.m.buffer| - w.m.dataCount);
    match w.wire
    case Idle => 0
    case Ending => 1
    case Stopped => 1
    case Refused => 2
    case Address(reading) => if reading then toMove + 2 else toMove + 4
    case ToSlave(_) => toMove + 4
    case WriteAcked => toMove + 3
    case Request(_) => toMove + 1
    case ToMaster(_, _) => toMove
  }

  /** The outcome of the transfer, once it is no longer under way. */
  function Reported(m: Master): seq<Outcome>
    requires |m.buffer| > 0
  {
    if m.locked then [] else [OutcomeOf(m.lastSent, m.buffer[0], m.status)]
  }

  ghost predicate MovedOn(w: World, w': World) {
    && Open(w) && Open(w') && (w.wire != Idle ==> Left(w') < Left(w))
    && w'.m.addr == w.m.addr && |w'.m.buffer| == |w.m.buffer| && w'.m.lastSent == w.m.lastSent
    && (w.m.locked ==> w'.m.outcomes == w.m.outcomes + Reported(w'.m))
    && (!w.m.locked ==> w'.m == w.m)
  }

  lemma SlaveStaysSound(s: Slave, flags: SlaveFlags, data: Byte, pressure: bool)
    requires s.Sized() && !s.abort
    ensures var s' := SlaveStep(s, flags, data, pressure).0; s'.Sized() && !s'.abort
  {
  }

  lemma MasterTurnMovesOn(w: World, flags: MasterFlags, data: Byte, live: bool)
    requires Open(w) && (w.wire.WriteAcked? || w.wire.Refused? || w.wire.ToMaster?)
    requires w.wire.WriteAcked? ==> !flags.rif
    requires w.wire.Refused? ==> flags.rxNack || !(flags.wif || flags.rif)
    requires w.wire.ToMaster? ==> !flags.wif
    ensures MovedOn(w, MasterTurn(w, flags, data, live))
  {
    if flags.arbLost || flags.busErr || flags.rxNack || !(flags.wif || flags.rif) {
    } else if flags.wif {
      WriteTurn(w, flags, data, live);
    } else {
      ReadTurn(w, flags, data, live);
    }
  }

  lemma WriteTurn(w: World, flags: MasterFlags, data: Byte, live: bool)
    requires Open(w) && w.wire.WriteAcked? && flags.wif && !flags.arbLost && !flags.busErr && !flags.rxNack
    ensures MovedOn(w, MasterTurn(w, flags, data, live))
  {
    hide OutcomeOf;
  }

  lemma ReadTurn(w: World, flags: MasterFlags, data: Byte, live: bool)
    requires Open(w) && w.wire.ToMaster? && flags.rif && !flags.wif && !flags.arbLost && !flags.busErr && !flags.rxNack
    ensures MovedOn(w, MasterTurn(w, flags, data, live))
  {
  }

  lemma StepMovesOn(w: World, e: Tick)
    requires Open(w)
    ensures MovedOn(w, Step(w, e))
  {
    hide SlaveStep, MasterStep;
    match w.wire
    case Idle =>
    case Address(reading) =>
      SlaveStaysSound(w.s, SlaveSees(e.fault, true, true, false, reading, false), 0, e.pressure);
    case WriteAcked => MasterTurnMovesOn(w, MasterSees(e.fault, true, false, false), 0, true);
    case Refused => MasterTurnMovesOn(w, MasterSees(e.fault, true, false, true), 0, true);
    case ToSlave(byte) =>
      SlaveStaysSound(w.s, SlaveSees(e.fault, false, false, true, false, false), byte, e.pressure);
    case Request(stale) =>
      SlaveStaysSound(w.s, SlaveSees(e.fault, false, false, true, true, stale), 0, e.pressure);
    case ToMaster(byte, live) => MasterTurnMovesOn(w, MasterSees(e.fault, false, true, false), byte, live);
    case Ending =>
      SlaveStaysSound(w.s, SlaveSees(e.fault, false, false, true, true, true), 0, e.pressure);
    case Stopped =>
      SlaveStaysSound(w.s, SlaveSees(e.fault, true, false, false, false, false), 0, e.pressure);
  }

  function Run(w: World, ticks: seq<Tick>): (r: World)
    requires Open(w)
    ensures Open(r)
  {
    if ticks == [] then w
    else
      var before := Run(w, ticks[..|ticks| - 1]);
      var e := ticks[|ticks| - 1];
      StepMovesOn(before, e);
      Step(before, e)
  }

  /** A transfer begun with the lock free, whatever the bus and the slave were left with. */
  function Started(w: World, read: bool): (r: World)
    requires !w.m.locked && |w.m.buffer| > 0 && w.s.Sized() && !w.s.abort
    ensures Open(r) && r.m.locked
  {
    var (m, _, drive) := Begin(w.m, read);
    World(m, w.s, Driven(drive, true))
  }

  lemma {:induction false} TransferMovesOn(w: World, read: bool, ticks: seq<Tick>)
    requires !w.m.locked && |w.m.buffer| > 0 && w.s.Sized() && !w.s.abort
    ensures var r := Run(Started(w, read), ticks);
            && r.m.outcomes == w.m.outcomes + Reported(r.m)
            && r.m.addr == w.m.addr && |r.m.buffer| == |w.m.buffer| && r.m.lastSent == w.m.lastSent
            && (r.wire == Idle || Left(r) + |ticks| <= 2 * |w.m.addr| + 2 * |w.m.buffer| + 4)
  {
    if ticks != [] {
      TransferMovesOn(w, read, ticks[..|ticks| - 1]);
      StepMovesOn(Run(Started(w, read), ticks[..|ticks| - 1]), ticks[|ticks| - 1]);
    }
  }

  /** Some interrupts, n of them, lead from the start of a transfer here. */
  ghost predicate Leads(was: World, read: bool, n: nat, w: World) {
    && !was.m.locked && |was.m.buffer| > 0 && was.s.Sized() && !was.s.abort
    && exists ticks :: |ticks| == n && w == Run(Started(was, read), ticks)
  }

  /**
   Whatever faults strike, a transfer reports exactly once, holds the lock exactly until then, and is
   over after at most 2 interrupts a byte and 4 more. The slave never stays in an aborting state.
   */
  lemma EveryTransferEnds(was: World, read: bool, n: nat, w: World)
    requires Leads(was, read, n, w)
    ensures |w.m.buffer| == |was.m.buffer| > 0 && w.m.outcomes == was.m.outcomes + Reported(w.m)
    ensures w.m.locked <==> w.m.status == InProgress
    ensures w.m.locked <==> !w.wire.Idle? && !w.wire.Ending? && !w.wire.Stopped?
    ensures n >= 2 * |was.m.addr| + 2 * |was.m.buffer| + 4 ==> w.wire == Idle
    ensures w.s.Sized() && !w.s.abort
  {
    var ticks :| |ticks| == n && w == Run(Started(was, read), ticks);
    TransferMovesOn(was, read, ticks);
  }
}
