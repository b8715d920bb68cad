/** What the faults of a transfer are reported as, and what a good report is worth. */
module WireFaults {
  import opened OpCodes
  import opened Twim
  import opened Twis
  import opened WireExchange
  import opened WireDelivery

  /** What an interrupt of the master's brings with it. */
  datatype Blow = NoBlow | Blow(status: Status)

  function BlowOf(w: World, e: Tick): Blow {
    if !w.wire.WriteAcked? && !w.wire.Refused? && !w.wire.ToMaster? then NoBlow
    else match e.fault
      case Lost => Blow(Busy)
      case MasterBusError => Blow(IoError)
      case MasterSpurious => Blow(BadProtocol)
      case NoAck => Blow(IoError)
      case _ => if w.wire.Refused? then Blow(IoError) else NoBlow
  }

  /** The first of them in a transfer. */
  function FirstBlow(w: World, ticks: seq<Tick>): Blow
    requires Open(w)
  {
    if ticks == [] then NoBlow
    else
      var before := ticks[..|ticks| - 1];
      if FirstBlow(w, before).Blow? then FirstBlow(w, before) else BlowOf(Run(w, before), ticks[|ticks| - 1])
  }

  /** What the controller is told of a transfer that met no fault of the master's. */
  function Understood(m: Master): Outcome
    requires |m.buffer| > 0
  {
    match DecodeReply(m.lastSent, m.buffer[0])
    case On => Read(true)
    case Off => Read(false)
    case Error => Failed(BadData)
  }

  lemma StepTells(w: World, e: Tick)
    requires Open(w)
    ensures Open(Step(w, e))
    ensures var r, b := Step(w, e), BlowOf(w, e);
            if b.Blow? then w.m.locked && !r.m.locked && r.m.outcomes == w.m.outcomes + [Failed(b.status)]
            else if w.m.locked && !r.m.locked then r.m.outcomes == w.m.outcomes + [Understood(r.m)]
            else r.m.locked == w.m.locked && r.m.outcomes == w.m.outcomes
    ensures !w.m.locked ==> Step(w, e).m == w.m
  {
    hide SlaveStep;
    StepMovesOn(w, e);
  }

  /**
   Every fault that strikes an interrupt of the master's is reported as what it is, the first one of the
   transfer at once and for good; a transfer without one ends with what its reply decodes to.
   */
  lemma {:induction false} FaultsAreReported(was: World, read: bool, ticks: seq<Tick>)
    requires !was.m.locked && |was.m.buffer| > 0 && was.s.Sized() && !was.s.abort
    ensures var r, b := Run(Started(was, read), ticks), FirstBlow(Started(was, read), ticks);
            && |r.m.buffer| > 0
            && r.m.outcomes == was.m.outcomes + (if b.Blow? then [Failed(b.status)]
                                                 else if r.m.locked then [] else [Understood(r.m)])
            && (b.Blow? ==> !r.m.locked)
  {
    if ticks != [] {
      var before, e := ticks[..|ticks| - 1], ticks[|ticks| - 1];
      FaultsAreReported(was, read, before);
      StepTells(Run(Started(was, read), before), e);
      hide Step;
    }
  }

  /** A hub that does not answer its address is an error at the controller, whatever the buffer held before. */
  lemma AbsentHubIsAnError(w: World, code: Byte, ticks: seq<Tick>)
    requires !w.m.locked && |w.m.buffer| == 1 && w.s.Sized() && !w.s.abort
    requires |ticks| >= 2 && ticks[0].fault == NoAck && ticks[1].fault != Lost && ticks[1].fault != MasterSpurious
    ensures Run(Sent(w, code), ticks).m.outcomes == w.m.outcomes + [Failed(IoError)]
  {
    var prepared := w.(m := w.m.(lastSent := code, addr := [code]));
    FaultsAreReported(prepared, true, ticks);
    FirstStays(Started(prepared, true), ticks, 2);
    RefusedAtOnce(Started(prepared, true), ticks);
  }

  lemma RefusedAtOnce(w: World, ticks: seq<Tick>)
    requires Open(w) && w.wire == Address(false)
    requires |ticks| >= 2 && ticks[0].fault == NoAck && ticks[1].fault != Lost && ticks[1].fault != MasterSpurious
    ensures FirstBlow(w, ticks[..2]) == Blow(IoError)
  {
    assert ticks[..2][..1] == ticks[..1] && ticks[..1][..0] == [];
    assert FirstBlow(w, ticks[..1]) == BlowOf(w, ticks[0]) == NoBlow;
    assert Run(w, ticks[..1]) == Step(w, ticks[0]);
    assert FirstBlow(w, ticks[..2]) == BlowOf(Step(w, ticks[0]), ticks[1]);
  }

  lemma {:induction false} FirstStays(w: World, ticks: seq<Tick>, n: nat)
    requires Open(w) && n <= |ticks|
    ensures FirstBlow(w, ticks[..n]).Blow? ==> FirstBlow(w, ticks) == FirstBlow(w, ticks[..n])
  {
    if n < |ticks| {
      FirstStays(w, ticks[..|ticks| - 1], n);
      assert ticks[..|ticks| - 1][..n] == ticks[..n];
    } else {
      assert ticks[..n] == ticks;
    }
  }

  // ---------------------------------------------------------------------------------------------
  // A good report

  /** During the transfer begun in was, the slave has served the command, last with this pressure. */
  ghost predicate InService(s: Slave, was: World, pressure: bool)
    requires |was.m.addr| > 0
  {
    && s.Sized() && |was.s.served| < |s.served| && s.served[..|was.s.served|] == was.s.served
    && s.served[|s.served| - 1] == Twis.Served(was.m.addr[0], pressure)
    && (|was.m.addr| == 1 ==> s.served == was.s.served + [Twis.Served(was.m.addr[0], pressure)])
    && s.received[0] == was.m.addr[0]
    && s.send[0] == EncodeReply(PressureReply(pressure), was.m.addr[0])
  }

  /** A byte the master may have read first. */
  ghost predicate Answered(byte: Byte, was: World, pressure: bool)
    requires |was.m.addr| > 0
  {
    byte == RELEASED || byte == EncodeReply(PressureReply(pressure), was.m.addr[0])
  }

  /** Where a read stands that was begun in was, with the pressure last served. */
  ghost predicate Serving(w: World, was: World, pressure: bool)
    requires |was.m.addr| > 0
  {
    var m, s := w.m, w.s;
    && Open(w) && m.addr == was.m.addr && m.lastSent == was.m.lastSent && (m.locked ==> m.read)
    && match w.wire
       case Address(reading) =>
         m.dataCount == 0 && if reading then InService(s, was, pressure) else m.addrCount == 0 && s.served == was.s.served
       case WriteAcked =>
         m.dataCount == 0 && s.bytesReceived == m.addrCount
         && if m.addrCount == 0 then s.served == was.s.served else InService(s, was, pressure)
       case ToSlave(byte) =>
         m.dataCount == 0 && 1 <= m.addrCount && byte == m.addr[m.addrCount - 1] && s.bytesReceived == m.addrCount - 1
         && if m.addrCount == 1 then s.served == was.s.served else InService(s, was, pressure)
       case Request(_) =>
         InService(s, was, pressure)
         && if m.dataCount == 0 then s.bytesSent == 0 else Answered(m.buffer[0], was, pressure)
       case ToMaster(byte, _) =>
         InService(s, was, pressure) && Answered(if m.dataCount == 0 then byte else m.buffer[0], was, pressure)
       case Refused => true
       case _ => Reported(m)[0].Read? ==> InService(s, was, pressure) && Answered(m.buffer[0], was, pressure)
  }

  /** The slave's part of the state that a service leaves behind. */
  ghost predicate SameService(s: Slave, s': Slave) {
    s'.Sized() && !s'.abort && s'.received == s.received && s'.send == s.send && s'.served == s.served
  }

  lemma ServiceLasts(s: Slave, s': Slave, was: World, pressure: bool)
    requires |was.m.addr| > 0 && SameService(s, s') && InService(s, was, pressure)
    ensures InService(s', was, pressure)
  {
  }

  /** Only a byte that the slave accepts changes that. */
  lemma OtherInterrupts(s: Slave, flags: SlaveFlags, data: Byte, pressure: bool)
    requires s.Sized() && !s.abort && (flags.dif ==> flags.dir || flags.apif)
    ensures var (s', response) := SlaveStep(s, flags, data, pressure);
            && SameService(s, s')
            && (flags.dif && !flags.apif && s.bytesSent == 0 && response.Load? ==> response.byte == s.send[0])
            && (flags.apif && flags.ap && response == Respond ==> s'.bytesReceived == 0 && s'.bytesSent == 0)
  {
  }

  lemma Accepts(s: Slave, flags: SlaveFlags, data: Byte, pressure: bool)
    requires s.Sized() && !s.abort && flags.dif && !flags.dir && !flags.apif
    ensures var (s', response) := SlaveStep(s, flags, data, pressure);
            && s'.Sized() && !s'.abort
            && (response == Respond ==>
                  && s.bytesReceived < BUFFER_SIZE && s'.received == s.received[s.bytesReceived := data]
                  && s'.send == s.send[0 := EncodeReply(PressureReply(pressure), s'.received[0])]
                  && s'.served == s.served + [Twis.Served(s'.received[0], pressure)]
                  && s'.bytesReceived == s.bytesReceived + 1)
  {
  }

  lemma AddressServes(w: World, was: World, pressure: bool, e: Tick)
    requires |was.m.addr| > 0 && Serving(w, was, pressure) && w.wire.Address?
    ensures Serving(Step(w, e), was, pressure)
  {
    hide SlaveStep, InService, MasterStep;
    StepMovesOn(w, e);
    if e.fault != NoAck {
      var flags := SlaveSees(e.fault, true, true, false, w.wire.reading, false);
      OtherInterrupts(w.s, flags, 0, e.pressure);
      if !flags.apif {
        SpuriousRefuses(w.s, flags, 0, e.pressure);
      }
      if w.wire.reading {
        ServiceLasts(w.s, SlaveStep(w.s, flags, 0, e.pressure).0, was, pressure);
      }
    }
  }

  lemma MasterServes(w: World, was: World, pressure: bool, e: Tick)
    requires |was.m.addr| > 0 && Serving(w, was, pressure) && (w.wire.WriteAcked? || w.wire.Refused? || w.wire.ToMaster?)
    ensures Serving(Step(w, e), was, pressure)
  {
    hide InService, Answered, SlaveStep;
    StepMovesOn(w, e);
  }

  lemma SlaveServes(w: World, was: World, pressure: bool, e: Tick) returns (pressure': bool)
    requires |was.m.addr| > 0 && Serving(w, was, pressure) && w.wire.ToSlave?
    ensures Serving(Step(w, e), was, pressure')
  {
    hide SlaveStep, InService, MasterStep;
    StepMovesOn(w, e);
    pressure' := pressure;
    if e.fault != NoAck {
      var flags := SlaveSees(e.fault, false, false, true, false, false);
      if flags.dif {
        Accepts(w.s, flags, w.wire.byte, e.pressure);
        if SlaveStep(w.s, flags, w.wire.byte, e.pressure).1 == Respond {
          pressure' := e.pressure;
          Accepted(w.s, SlaveStep(w.s, flags, w.wire.byte, e.pressure).0, w.m.addrCount, was, pressure, e.pressure);
        }
      } else {
        SpuriousRefuses(w.s, flags, w.wire.byte, e.pressure);
      }
    }
  }

  lemma SpuriousRefuses(s: Slave, flags: SlaveFlags, data: Byte, pressure: bool)
    requires s.Sized() && !flags.dif && !flags.apif
    ensures SlaveStep(s, flags, data, pressure).1 == NoResponse
  {
  }

  /** The n-th address byte served. */
  lemma Accepted(s: Slave, s': Slave, n: nat, was: World, pressure: bool, pressure': bool)
    requires 1 <= n <= |was.m.addr| && s.Sized() && s'.Sized() && s.bytesReceived == n - 1 < BUFFER_SIZE
    requires if n == 1 then s.served == was.s.served else InService(s, was, pressure)
    requires s'.received == s.received[n - 1 := was.m.addr[n - 1]]
    requires s'.served == s.served + [Twis.Served(s'.received[0], pressure')]
    requires s'.send == s.send[0 := EncodeReply(PressureReply(pressure'), s'.received[0])]
    ensures InService(s', was, pressure')
  {
  }

  lemma RequestServes(w: World, was: World, pressure: bool, e: Tick)
    requires |was.m.addr| > 0 && Serving(w, was, pressure) && w.wire.Request?
    ensures Serving(Step(w, e), was, pressure)
  {
    hide SlaveStep, InService, MasterStep;
    StepMovesOn(w, e);
    var flags := SlaveSees(e.fault, false, false, true, true, w.wire.stale);
    OtherInterrupts(w.s, flags, 0, e.pressure);
    ServiceLasts(w.s, SlaveStep(w.s, flags, 0, e.pressure).0, was, pressure);
    ServiceAnswers(w.s, was, pressure);
    if !flags.dif {
      SpuriousRefuses(w.s, flags, 0, e.pressure);
    }
  }

  lemma ServiceAnswers(s: Slave, was: World, pressure: bool)
    requires |was.m.addr| > 0 && InService(s, was, pressure)
    ensures s.Sized() && Answered(s.send[0], was, pressure) && Answered(RELEASED, was, pressure)
  {
  }

  lemma EndServes(w: World, was: World, pressure: bool, e: Tick)
    requires |was.m.addr| > 0 && Serving(w, was, pressure) && (w.wire.Idle? || w.wire.Ending? || w.wire.Stopped?)
    ensures Serving(Step(w, e), was, pressure)
  {
    hide SlaveStep, InService, MasterStep;
    StepMovesOn(w, e);
    var ending := SlaveSees(e.fault, false, false, true, true, true);
    var stopped := SlaveSees(e.fault, true, false, false, false, false);
    OtherInterrupts(w.s, ending, 0, e.pressure);
    OtherInterrupts(w.s, stopped, 0, e.pressure);
    if Reported(w.m)[0].Read? {
      ServiceLasts(w.s, SlaveStep(w.s, ending, 0, e.pressure).0, was, pressure);
      ServiceLasts(w.s, SlaveStep(w.s, stopped, 0, e.pressure).0, was, pressure);
    }
  }

  lemma {:induction false} RunServes(was: World, ticks: seq<Tick>) returns (pressure: bool)
    requires !was.m.locked && |was.m.addr| > 0 && |was.m.buffer| > 0 && was.s.Sized() && !was.s.abort
    ensures Serving(Run(Started(was, true), ticks), was, pressure)
  {
    if ticks == [] {
      pressure := false;
    } else {
      var w, e := Run(Started(was, true), ticks[..|ticks| - 1]), ticks[|ticks| - 1];
      pressure := RunServes(was, ticks[..|ticks| - 1]);
      hide Serving, Step;
      match w.wire
      case Address(_) => AddressServes(w, was, pressure, e);
      case ToSlave(_) => pressure := SlaveServes(w, was, pressure, e);
      case Request(_) => RequestServes(w, was, pressure, e);
      case Idle => EndServes(w, was, pressure, e);
      case Ending => EndServes(w, was, pressure, e);
      case Stopped => EndServes(w, was, pressure, e);
      case _ => MasterServes(w, was, pressure, e);
    }
  }

  /**
   The controller is given a pressure only if the hub served its command during that very transfer, and
   then it is the pressure of that moment; whatever faults struck. A released bus reads as no reply to
   any command of the protocol.
   */
  lemma ReadOnlyIfServed(w: World, code: Byte, ticks: seq<Tick>, p: bool)
    requires !w.m.locked && |w.m.buffer| == 1 && w.s.Sized() && !w.s.abort
    requires Run(Sent(w, code), ticks).m.outcomes == w.m.outcomes + [Read(p)]
    ensures exists pressure :: Run(Sent(w, code), ticks).s.served == w.s.served + [Twis.Served(code, pressure)]
    ensures CheckValid(code) != ERROR ==> Run(Sent(w, code), ticks).s.served == w.s.served + [Twis.Served(code, p)]
  {
    var prepared := w.(m := w.m.(lastSent := code, addr := [code]));
    var pressure := RunServes(prepared, ticks);
    var r := Run(Started(prepared, true), ticks);
    TransferMovesOn(prepared, true, ticks);
    assert Reported(r.m) == [Read(p)] by {
      assert r.m.outcomes[|w.m.outcomes|..] == Reported(r.m);
    }
    ReplyDecodes(code, code, PressureReply(pressure));
    assert CheckValid(code) != ERROR ==> DecodeReply(code, RELEASED) == Error;
  }

  lemma SlaveServedGrows(s: Slave, flags: SlaveFlags, data: Byte, pressure: bool)
    requires s.Sized()
    ensures s.served <= SlaveStep(s, flags, data, pressure).0.served
  {
  }

  lemma StepServedGrows(w: World, e: Tick)
    requires Open(w)
    ensures w.s.served <= Step(w, e).s.served
  {
    hide MasterStep, SlaveStep;
    match w.wire
    case Address(reading) => SlaveServedGrows(w.s, SlaveSees(e.fault, true, true, false, reading, false), 0, e.pressure);
    case ToSlave(byte) => SlaveServedGrows(w.s, SlaveSees(e.fault, false, false, true, false, false), byte, e.pressure);
    case Request(stale) => SlaveServedGrows(w.s, SlaveSees(e.fault, false, false, true, true, stale), 0, e.pressure);
    case Ending => SlaveServedGrows(w.s, SlaveSees(e.fault, false, false, true, true, true), 0, e.pressure);
    case Stopped => SlaveServedGrows(w.s, SlaveSees(e.fault, true, false, false, false, false), 0, e.pressure);
    case _ =>
  }

  lemma {:induction false} ServedGrowsOnce(was: World, ticks: seq<Tick>)
    requires !was.m.locked && |was.m.buffer| > 0 && was.s.Sized() && !was.s.abort
    ensures was.s.served <= Run(Started(was, true), ticks).s.served
  {
    if ticks != [] {
      ServedGrowsOnce(was, ticks[..|ticks| - 1]);
      StepServedGrows(Run(Started(was, true), ticks[..|ticks| - 1]), ticks[|ticks| - 1]);
    }
  }

  lemma {:induction false} ServedGrows(w: World, attempts: seq<Attempt>)
    requires !w.m.locked && |w.m.buffer| == 1 && w.s.Sized() && !w.s.abort
    requires forall a :: a in attempts ==> |a.ticks| >= 8
    ensures w.s.served <= After(w, attempts).s.served
  {
    if attempts != [] {
      var before, last := attempts[..|attempts| - 1], attempts[|attempts| - 1];
      ServedGrows(w, before);
      var v := After(w, before);
      ServedGrowsOnce(v.(m := v.m.(lastSent := last.code, addr := [last.code])), last.ticks);
    }
  }

  /** Of the commands sent one after the other, so each one that was given a pressure. */
  lemma {:induction false} EachReadWasServed(w: World, attempts: seq<Attempt>, k: nat, p: bool) returns (i: nat)
    requires !w.m.locked && |w.m.buffer| == 1 && w.s.Sized() && !w.s.abort
    requires forall a :: a in attempts ==> |a.ticks| >= 8
    requires k < |attempts| && CheckValid(attempts[k].code) != ERROR
    requires After(w, attempts).m.outcomes[|w.m.outcomes| + k] == Read(p)
    ensures |w.s.served| <= i < |After(w, attempts).s.served| && After(w, attempts).s.served[i] == Twis.Served(attempts[k].code, p)
  {
    var before, last := attempts[..|attempts| - 1], attempts[|attempts| - 1];
    var v := After(w, before);
    var prepared := v.(m := v.m.(lastSent := last.code, addr := [last.code]));
    TransferMovesOn(prepared, true, last.ticks);
    ServedGrows(w, before);
    ServedGrowsOnce(prepared, last.ticks);
    var r := Run(Sent(v, last.code), last.ticks);
    if k == |attempts| - 1 {
      assert r.m.outcomes == v.m.outcomes + [Read(p)];
      ReadOnlyIfServed(v, last.code, last.ticks, p);
      i := |v.s.served|;
    } else {
      i := EachReadWasServed(w, before, k, p);
    }
  }

  // ---------------------------------------------------------------------------------------------
  // The slave's own faults

  /** The next interrupt is the slave's. */
  predicate SlavesTurn(w: World) {
    w.wire.Address? || w.wire.ToSlave? || w.wire.Request? || w.wire.Ending? || (w.wire.Stopped? && w.s.stopInterrupt)
  }

  /** A fault ends the slave's part: nothing is served, and the master is refused or reads a released bus. */
  lemma SlaveFaultEndsItsPart(w: World, e: Tick)
    requires Open(w) && SlavesTurn(w)
    requires e.fault == SlaveBusError || e.fault == SlaveCollision || e.fault == SlaveSpurious
    ensures var r := Step(w, e);
            && r.m == w.m && !r.s.busy && r.s.served == w.s.served && r.s.received == w.s.received
            && (r.s.result == BusError <==> e.fault == SlaveBusError)
            && (r.s.result == Collision <==> e.fault == SlaveCollision)
            && (r.s.result == Fail <==> e.fault == SlaveSpurious)
            && r.wire == (if w.wire.Address? || w.wire.ToSlave? then Refused
                          else if w.wire.Request? then ToMaster(RELEASED, false) else Idle)
  {
  }

  /** Nor is a byte served for which there is no room, or that nobody acknowledges; the transfer then fails. */
  lemma NinthByteIsRefused(w: World, e: Tick, e': Tick)
    requires Open(w) && w.wire.ToSlave? && (w.s.bytesReceived == BUFFER_SIZE || e.fault == NoAck)
    requires e'.fault != Lost && e'.fault != MasterSpurious
    ensures var r := Step(w, e);
            && r.s.served == w.s.served && r.s.received == w.s.received && r.wire == Refused && Open(r)
            && (e.fault == NoFault ==> r.s.result == Overflow)
            && Step(r, e').m.outcomes == w.m.outcomes + [Failed(IoError)]
  {
    StepMovesOn(w, e);
    StepTells(Step(w, e), e');
    hide MasterStep;
  }
}
