/** What a fault-free read transfer delivers, in both directions. */
module WireDelivery {
  import opened OpCodes
  import opened Twim
  import opened Twis
  import opened WireExchange

  ghost predicate Clean(ticks: seq<Tick>) {
    forall e :: e in ticks ==> e.fault == NoFault
  }

  /** The interrupts a fault-free read takes. */
  function Length(w: World): nat {
    2 * |w.m.addr| + 2 * |w.m.buffer| + if w.m.addr == [] then 2 else 4
  }

  /** The slave's data callbacks for the first n bytes: always about the first byte, with the pressure of the moment. */
  function Served(command: Byte, ticks: seq<Tick>, n: nat): seq<Twis.Served>
    requires n == 0 || 2 * n < |ticks|
  {
    if n == 0 then [] else Served(command, ticks, n - 1) + [Twis.Served(command, ticks[2 * n].pressure)]
  }

  /** The slave has taken the first n address bytes of the transfer begun in was. */
  ghost predicate Took(s: Slave, was: World, ticks: seq<Tick>, n: nat)
    requires n <= |was.m.addr| <= BUFFER_SIZE && was.s.Sized() && Length(was) == |ticks|
  {
    && s.received == was.m.addr[..n] + was.s.received[n..]
    && s.send == (if n == 0 then was.s.send
                  else was.s.send[0 := EncodeReply(PressureReply(ticks[2 * n].pressure), was.m.addr[0])])
    && s.served == was.s.served + (if n == 0 then [] else Served(was.m.addr[0], ticks, n))
  }

  /** The transfers the driver supports, from a free lock and whatever earlier transfers left. */
  ghost predicate Startable(was: World, ticks: seq<Tick>) {
    && !was.m.locked && was.s.Sized() && !was.s.abort
    && |was.m.addr| <= BUFFER_SIZE && 1 <= |was.m.buffer| <= BUFFER_SIZE
    && Clean(ticks) && |ticks| == Length(was)
  }

  /** Where a fault-free read begun in was stands after n interrupts. */
  ghost predicate OnTrack(w: World, was: World, ticks: seq<Tick>, n: nat)
    requires Startable(was, ticks)
  {
    var m, s, a, l := w.m, w.s, |was.m.addr|, |was.m.buffer|;
    && Open(w) && m.addr == was.m.addr && |m.buffer| == l && m.lastSent == was.m.lastSent && m.read
    && m.outcomes == was.m.outcomes + Reported(m)
    && Left(w) + n == Length(was)
    && !w.wire.Refused? && !w.wire.Stopped?
    && (m.dataCount == 0 ==> m.buffer == was.m.buffer)
    && (w.wire == Address(false) ==> m.addrCount == 0 && m.dataCount == 0 && Took(s, was, ticks, 0))
    && (w.wire == WriteAcked ==>
          m.dataCount == 0 && s.bytesReceived == m.addrCount && Took(s, was, ticks, m.addrCount))
    && (w.wire.ToSlave? ==>
          && m.dataCount == 0 && 1 <= m.addrCount && w.wire.byte == was.m.addr[m.addrCount - 1]
          && s.bytesReceived == m.addrCount - 1 && Took(s, was, ticks, m.addrCount - 1))
    && (w.wire == Address(true) ==> m.dataCount == 0 && Took(s, was, ticks, a))
    && (w.wire.Request? ==>
          && Took(s, was, ticks, a) && s.bytesSent == m.dataCount && (w.wire.stale ==> s.bytesSent == 0)
          && m.buffer[..m.dataCount] == s.send[..m.dataCount])
    && (w.wire.ToMaster? ==>
          && Took(s, was, ticks, a) && s.bytesSent == m.dataCount + 1
          && w.wire.live && w.wire.byte == s.send[m.dataCount] && m.buffer[..m.dataCount] == s.send[..m.dataCount])
    && (w.wire.Ending? || w.wire.Idle? ==>
          Took(s, was, ticks, a) && s.bytesSent == l && m.buffer == s.send[..l] && m.status == Success)
    && (w.wire.Idle? ==> s.result == Done && !s.busy)
  }

  lemma TakesOne(s: Slave, was: World, ticks: seq<Tick>, n: nat)
    requires Startable(was, ticks) && 1 <= n <= |was.m.addr| && s.Sized() && !s.abort
    requires Took(s, was, ticks, n - 1) && s.bytesReceived == n - 1
    ensures var (s', response) := ReceiveStep(s, was.m.addr[n - 1], ticks[2 * n].pressure);
            response == Respond && Took(s', was, ticks, n) && s'.bytesReceived == n && s'.Sized() && !s'.abort
  {
    var s' := ReceiveStep(s, was.m.addr[n - 1], ticks[2 * n].pressure).0;
    assert s'.received == was.m.addr[..n] + was.s.received[n..];
    assert s'.received[0] == was.m.addr[0];
  }

  lemma AddressOnTrack(w: World, was: World, ticks: seq<Tick>, n: nat)
    requires Startable(was, ticks) && OnTrack(w, was, ticks, n) && n < |ticks| && w.wire.Address?
    ensures OnTrack(Step(w, ticks[n]), was, ticks, n + 1)
  {
    assert ticks[n] in ticks;
  }

  lemma MasterSends(w: World, was: World, ticks: seq<Tick>, n: nat)
    requires Startable(was, ticks) && OnTrack(w, was, ticks, n) && n < |ticks| && w.wire == WriteAcked
    ensures OnTrack(Step(w, ticks[n]), was, ticks, n + 1)
  {
    assert ticks[n] in ticks;
  }

  lemma SlaveTakes(w: World, was: World, ticks: seq<Tick>, n: nat)
    requires Startable(was, ticks) && OnTrack(w, was, ticks, n) && n < |ticks| && w.wire.ToSlave?
    ensures OnTrack(Step(w, ticks[n]), was, ticks, n + 1)
  {
    assert ticks[n] in ticks;
    assert n == 2 * w.m.addrCount;
    TakesOne(w.s, was, ticks, w.m.addrCount);
    hide ReceiveStep, Took;
  }

  lemma SlaveLoads(w: World, was: World, ticks: seq<Tick>, n: nat)
    requires Startable(was, ticks) && OnTrack(w, was, ticks, n) && n < |ticks| && w.wire.Request?
    ensures OnTrack(Step(w, ticks[n]), was, ticks, n + 1)
  {
    assert ticks[n] in ticks;
  }

  lemma MasterReads(w: World, was: World, ticks: seq<Tick>, n: nat)
    requires Startable(was, ticks) && OnTrack(w, was, ticks, n) && n < |ticks| && w.wire.ToMaster?
    ensures OnTrack(Step(w, ticks[n]), was, ticks, n + 1)
  {
    hide Took, SlaveStep, OutcomeOf;
    assert ticks[n] in ticks;
    var m := Step(w, ticks[n]).m;
    assert m.buffer[..m.dataCount] == w.s.send[..m.dataCount];
  }

  lemma SlaveEnds(w: World, was: World, ticks: seq<Tick>, n: nat)
    requires Startable(was, ticks) && OnTrack(w, was, ticks, n) && n < |ticks| && w.wire.Ending?
    ensures OnTrack(Step(w, ticks[n]), was, ticks, n + 1)
  {
    assert ticks[n] in ticks;
  }

  lemma StepStaysOnTrack(w: World, was: World, ticks: seq<Tick>, n: nat)
    requires Startable(was, ticks) && OnTrack(w, was, ticks, n) && n < |ticks|
    ensures OnTrack(Step(w, ticks[n]), was, ticks, n + 1)
  {
    match w.wire
    case Address(_) => AddressOnTrack(w, was, ticks, n);
    case WriteAcked => MasterSends(w, was, ticks, n);
    case ToSlave(_) => SlaveTakes(w, was, ticks, n);
    case Request(_) => SlaveLoads(w, was, ticks, n);
    case ToMaster(_, _) => MasterReads(w, was, ticks, n);
    case Ending => SlaveEnds(w, was, ticks, n);
  }

  lemma {:induction false} RunStaysOnTrack(was: World, ticks: seq<Tick>, n: nat)
    requires Startable(was, ticks) && n <= |ticks|
    ensures OnTrack(Run(Started(was, true), ticks[..n]), was, ticks, n)
  {
    hide Step, OnTrack, Clean;
    if n == 0 {
      StartsOnTrack(was, ticks);
    } else {
      RunStaysOnTrack(was, ticks, n - 1);
      assert ticks[..n][..n - 1] == ticks[..n - 1];
      StepStaysOnTrack(Run(Started(was, true), ticks[..n - 1]), was, ticks, n - 1);
    }
  }

  lemma StartsOnTrack(was: World, ticks: seq<Tick>)
    requires Startable(was, ticks)
    ensures OnTrack(Started(was, true), was, ticks, 0)
  {
    assert was.m.addr[..0] + was.s.received[0..] == was.s.received;
  }

  /**
   A fault-free read with up to 8 address bytes and 1 to 8 data bytes delivers the address bytes in
   order to the slave, the slave's send bytes in order to the master, reports once and frees the lock.
   If there are address bytes the first send byte answers the first of them, with the pressure of the
   last receipt.
   */
  lemma CleanReadDelivers(was: World, ticks: seq<Tick>)
    requires Startable(was, ticks)
    ensures var r, a, l := Run(Started(was, true), ticks), |was.m.addr|, |was.m.buffer|;
            && r.s.received == was.m.addr + was.s.received[a..]
            && r.s.send == (if a == 0 then was.s.send
                            else was.s.send[0 := EncodeReply(PressureReply(ticks[2 * a].pressure), was.m.addr[0])])
            && r.m.buffer == r.s.send[..l]
            && r.s.served == was.s.served + (if a == 0 then [] else Served(was.m.addr[0], ticks, a))
            && r.m.outcomes == was.m.outcomes + [OutcomeOf(was.m.lastSent, r.m.buffer[0], Success)]
            && r.m.status == Success && !r.m.locked && r.wire == Idle && r.s.result == Done && !r.s.busy
  {
    RunStaysOnTrack(was, ticks, |ticks|);
    assert ticks[..|ticks|] == ticks;
    var r := Run(Started(was, true), ticks);
    assert Left(r) == 0;
    assert was.m.addr[..|was.m.addr|] == was.m.addr;
    assert !r.m.locked;
  }

  // ---------------------------------------------------------------------------------------------
  // Writes

  function WriteLength(w: World): nat {
    2 * |w.m.addr| + 2 * |w.m.buffer| + 3
  }

  /** What the slave has taken of the bytes. */
  ghost predicate Holds(s: Slave, was: World, bytes: seq<Byte>, n: nat)
    requires was.s.Sized() && n <= |bytes| <= BUFFER_SIZE
  {
    s.received == bytes[..n] + was.s.received[n..]
  }

  /** Where a fault-free write begun in was stands after n interrupts. */
  ghost predicate Writing(w: World, was: World, n: nat)
    requires was.s.Sized() && |was.m.addr| + |was.m.buffer| <= BUFFER_SIZE
  {
    var m, s, bytes := w.m, w.s, was.m.addr + was.m.buffer;
    var k := m.addrCount + m.dataCount;
    && Open(w) && m.addr == was.m.addr && m.buffer == was.m.buffer && m.lastSent == was.m.lastSent && !m.read
    && (m.dataCount > 0 ==> m.addrCount == |m.addr|) && m.outcomes == was.m.outcomes + Reported(m)
    && match w.wire
       case Address(_) => !w.wire.reading && n == 0 == k && Holds(s, was, bytes, 0)
       case WriteAcked => n == 2 * k + 1 && s.bytesReceived == k && Holds(s, was, bytes, k) && (k > 0 ==> s.stopInterrupt)
       case ToSlave(byte) =>
         n == 2 * k && k > 0 && byte == bytes[k - 1] && s.bytesReceived == k - 1 && Holds(s, was, bytes, k - 1)
       case Stopped => n == 2 * |bytes| + 2 && Holds(s, was, bytes, |bytes|) && s.stopInterrupt && m.status == Success
       case Idle => n == 2 * |bytes| + 3 && Holds(s, was, bytes, |bytes|) && m.status == Success && s.result == Done && !s.busy
       case _ => false
  }

  lemma HoldsOneMore(s: Slave, was: World, bytes: seq<Byte>, k: nat, pressure: bool)
    requires was.s.Sized() && 1 <= k <= |bytes| <= BUFFER_SIZE && s.Sized() && !s.abort && s.bytesReceived == k - 1
    requires Holds(s, was, bytes, k - 1)
    ensures var (s', response) := ReceiveStep(s, bytes[k - 1], pressure);
            response == Respond && Holds(s', was, bytes, k) && s'.bytesReceived == k && s'.Sized() && !s'.abort && s'.stopInterrupt
  {
    var s' := ReceiveStep(s, bytes[k - 1], pressure).0;
    assert s'.received == bytes[..k] + was.s.received[k..];
  }

  lemma AddressWrites(w: World, was: World, n: nat, e: Tick)
    requires was.s.Sized() && |was.m.addr| + |was.m.buffer| <= BUFFER_SIZE
    requires Writing(w, was, n) && n < WriteLength(was) && e.fault == NoFault && w.wire.Address?
    ensures Writing(Step(w, e), was, n + 1)
  {
    hide Holds, MasterStep, OutcomeOf;
    StepMovesOn(w, e);
    HoldsSame(w.s, Step(w, e).s, was);
  }

  lemma MasterWrites(w: World, was: World, n: nat, e: Tick)
    requires was.s.Sized() && |was.m.addr| + |was.m.buffer| <= BUFFER_SIZE
    requires Writing(w, was, n) && n < WriteLength(was) && e.fault == NoFault && w.wire.WriteAcked?
    ensures Writing(Step(w, e), was, n + 1)
  {
    hide Holds, SlaveStep, OutcomeOf;
    StepMovesOn(w, e);
  }

  lemma SlaveTakesWritten(w: World, was: World, n: nat, e: Tick)
    requires was.s.Sized() && |was.m.addr| + |was.m.buffer| <= BUFFER_SIZE
    requires Writing(w, was, n) && n < WriteLength(was) && e.fault == NoFault && w.wire.ToSlave?
    ensures Writing(Step(w, e), was, n + 1)
  {
    hide Holds, ReceiveStep, MasterStep, OutcomeOf;
    StepMovesOn(w, e);
    HoldsOneMore(w.s, was, was.m.addr + was.m.buffer, w.m.addrCount + w.m.dataCount, e.pressure);
  }

  lemma StopWrites(w: World, was: World, n: nat, e: Tick)
    requires was.s.Sized() && |was.m.addr| + |was.m.buffer| <= BUFFER_SIZE
    requires Writing(w, was, n) && n < WriteLength(was) && e.fault == NoFault && w.wire.Stopped?
    ensures Writing(Step(w, e), was, n + 1)
  {
    hide Holds, MasterStep, OutcomeOf;
    StepMovesOn(w, e);
    HoldsSame(w.s, Step(w, e).s, was);
  }

  lemma WritingEnds(w: World, was: World, n: nat)
    requires was.s.Sized() && |was.m.addr| + |was.m.buffer| <= BUFFER_SIZE && Writing(w, was, n) && n < WriteLength(was)
    ensures w.wire.Address? || w.wire.WriteAcked? || w.wire.ToSlave? || w.wire.Stopped?
  {
    hide Holds, Open;
  }

  lemma StepWrites(w: World, was: World, n: nat, e: Tick)
    requires was.s.Sized() && |was.m.addr| + |was.m.buffer| <= BUFFER_SIZE
    requires Writing(w, was, n) && n < WriteLength(was) && e.fault == NoFault
    ensures Writing(Step(w, e), was, n + 1)
  {
    hide Step, Writing;
    match w.wire
    case Address(_) => AddressWrites(w, was, n, e);
    case WriteAcked => MasterWrites(w, was, n, e);
    case ToSlave(_) => SlaveTakesWritten(w, was, n, e);
    case _ => WritingEnds(w, was, n); StopWrites(w, was, n, e);
  }

  lemma HoldsSame(s: Slave, s': Slave, was: World)
    requires was.s.Sized() && |was.m.addr| + |was.m.buffer| <= BUFFER_SIZE
    ensures s'.received == s.received ==>
              forall k: nat :: k <= |was.m.addr + was.m.buffer| && Holds(s, was, was.m.addr + was.m.buffer, k) ==>
                Holds(s', was, was.m.addr + was.m.buffer, k)
  {
  }

  lemma StartsWriting(was: World)
    requires !was.m.locked && |was.m.buffer| > 0 && was.s.Sized() && !was.s.abort
    requires |was.m.addr| + |was.m.buffer| <= BUFFER_SIZE
    ensures Writing(Started(was, false), was, 0)
  {
    assert Holds(was.s, was, was.m.addr + was.m.buffer, 0);
  }

  lemma {:induction false} RunWrites(was: World, ticks: seq<Tick>)
    requires !was.m.locked && |was.m.buffer| > 0 && was.s.Sized() && !was.s.abort
    requires |was.m.addr| + |was.m.buffer| <= BUFFER_SIZE && Clean(ticks) && |ticks| <= WriteLength(was)
    ensures Writing(Run(Started(was, false), ticks), was, |ticks|)
  {
    hide Step, Writing;
    if ticks == [] {
      StartsWriting(was);
    } else {
      RunWrites(was, ticks[..|ticks| - 1]);
      assert ticks[|ticks| - 1] in ticks;
      StepWrites(Run(Started(was, false), ticks[..|ticks| - 1]), was, |ticks| - 1, ticks[|ticks| - 1]);
    }
  }

  /** A fault-free write of at most 8 address and data bytes delivers them all, in order, and reports once. */
  lemma CleanWriteDelivers(was: World, ticks: seq<Tick>)
    requires !was.m.locked && |was.m.buffer| > 0 && was.s.Sized() && !was.s.abort
    requires |was.m.addr| + |was.m.buffer| <= BUFFER_SIZE && Clean(ticks) && |ticks| == WriteLength(was)
    ensures var r, bytes := Run(Started(was, false), ticks), was.m.addr + was.m.buffer;
            && r.s.received == bytes + was.s.received[|bytes|..]
            && r.m.outcomes == was.m.outcomes + [OutcomeOf(was.m.lastSent, was.m.buffer[0], Success)]
            && r.m.status == Success && !r.m.locked && r.wire == Idle && r.s.result == Done && !r.s.busy
  {
    RunWrites(was, ticks);
    var bytes := was.m.addr + was.m.buffer;
    assert bytes[..|bytes|] == bytes;
  }

  // ---------------------------------------------------------------------------------------------
  // The controller's commands

  /** The world after i2c_master_send with the lock free. */
  function Sent(w: World, code: Byte): (r: World)
    requires !w.m.locked && |w.m.buffer| == 1 && w.s.Sized() && !w.s.abort
    ensures Open(r) && (r.m, Driven(StartWrite, true)) == (SendCode(w.m, code).0, r.wire)
  {
    Started(w.(m := w.m.(lastSent := code, addr := [code])), true)
  }

  /** A command, and the interrupts up to the next one. */
  datatype Attempt = Attempt(code: Byte, ticks: seq<Tick>)

  /** Commands sent one after the other, each given the time its transfer can take at most. */
  function After(w: World, attempts: seq<Attempt>): (r: World)
    requires !w.m.locked && |w.m.buffer| == 1 && w.s.Sized() && !w.s.abort
    requires forall a :: a in attempts ==> |a.ticks| >= 8
    ensures !r.m.locked && |r.m.buffer| == 1 && r.s.Sized() && !r.s.abort
    ensures |r.m.outcomes| == |w.m.outcomes| + |attempts|
  {
    if attempts == [] then w
    else
      var last, before := attempts[|attempts| - 1], After(w, attempts[..|attempts| - 1]);
      var prepared := before.(m := before.m.(lastSent := last.code, addr := [last.code]));
      TransferMovesOn(prepared, true, last.ticks);
      Run(Sent(before, last.code), last.ticks)
  }

  /** A command sent without faults, the lock being free. */
  lemma CleanCommandIsAnswered(v: World, code: Byte, ticks: seq<Tick>)
    requires !v.m.locked && |v.m.buffer| == 1 && v.s.Sized() && !v.s.abort && |ticks| == 8 && Clean(ticks)
    ensures var r, p := Run(Sent(v, code), ticks), ticks[2].pressure;
            && r.m.outcomes == v.m.outcomes + [Read(p)]
            && r.s.served == v.s.served + [Twis.Served(code, p)]
            && !r.m.locked && r.wire == Idle
  {
    hide Run, Step, Reported, DecodeReply, EncodeReply, Left, Driven, Begin, SendCode;
    var prepared := v.(m := v.m.(lastSent := code, addr := [code]));
    CleanReadDelivers(prepared, ticks);
    ReplyDecodes(code, code, PressureReply(ticks[2].pressure));
    var r := Run(Started(prepared, true), ticks);
    assert r.m.buffer[0] == r.s.send[0];
    assert Served(code, ticks, 1) == [Twis.Served(code, ticks[2].pressure)];
  }

  lemma CleanReplyByte(v: World, code: Byte, ticks: seq<Tick>)
    requires !v.m.locked && |v.m.buffer| == 1 && v.s.Sized() && !v.s.abort && |ticks| == 8 && Clean(ticks)
    ensures var s := Run(Sent(v, code), ticks).s; s.Sized() && s.send[0] == code ^ (if ticks[2].pressure then 0xA5 else 0x5A)
  {
    hide Run, Step, Reported, DecodeReply, EncodeReply, Left, Driven, Begin, SendCode;
    CleanReadDelivers(v.(m := v.m.(lastSent := code, addr := [code])), ticks);
    ReplyBytes(code);
  }

  /**
   Whatever faults struck earlier commands, each of them was reported once; and a command sent without
   faults is then answered with the pressure the hub sees at the moment it takes it.
   */
  lemma PressureIsReadAfterAnyFaults(w: World, attempts: seq<Attempt>, code: Byte, ticks: seq<Tick>)
    requires !w.m.locked && |w.m.buffer| == 1 && w.s.Sized() && !w.s.abort
    requires forall a :: a in attempts ==> |a.ticks| >= 8
    requires |ticks| == 8 && Clean(ticks)
    ensures var v := After(w, attempts);
            var r := Run(Sent(v, code), ticks);
            && |v.m.outcomes| == |w.m.outcomes| + |attempts|
            && r.m.outcomes == v.m.outcomes + [Read(ticks[2].pressure)]
            && r.s.served == v.s.served + [Twis.Served(code, ticks[2].pressure)]
            && r.s.Sized() && r.s.send[0] == code ^ (if ticks[2].pressure then 0xA5 else 0x5A)
            && !r.m.locked && r.wire == Idle
  {
    hide Run, Step, Open;
    CleanCommandIsAnswered(After(w, attempts), code, ticks);
    CleanReplyByte(After(w, attempts), code, ticks);
  }
}
