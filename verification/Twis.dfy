/** The bus slave: the driver of asx/src/twis.c with the data callback of hub/i2c_slave.c. */
module Twis {
  import opened OpCodes

  const BUFFER_SIZE: nat := 8

  datatype Result = Unknown | Done | Overflow | Collision | BusError | Fail | Aborted

  /** The bits of SSTATUS the handler looks at. */
  datatype SlaveFlags = SlaveFlags(busErr: bool, coll: bool, apif: bool, ap: bool, dif: bool, dir: bool, rxNack: bool)

  /** What the handler writes to SCTRLB and SDATA. */
  datatype Response = NoResponse | Respond | Load(byte: Byte) | Complete | NackAndComplete

  /** One call of slave_process: the command seen, and the pressure answered. */
  datatype Served = Served(command: Byte, pressure: bool)

  datatype Slave = Slave(
    received: seq<Byte>, send: seq<Byte>, bytesReceived: nat, bytesSent: nat,
    busy: bool, result: Result, abort: bool, stopInterrupt: bool, served: seq<Served>)
  {
    predicate Sized() {
      |received| == |send| == BUFFER_SIZE && bytesReceived <= BUFFER_SIZE && bytesSent <= BUFFER_SIZE
    }
  }

  function PressureReply(pressure: bool): Reply {
    if pressure then On else Off
  }

  function Finished(s: Slave, result: Result): Slave {
    s.(result := result, busy := false)
  }

  /** slave_process: the reply is made ready, and the traffic handler is notified. */
  function Process(s: Slave, pressure: bool): Slave
    requires s.Sized()
  {
    s.(send := s.send[0 := EncodeReply(PressureReply(pressure), s.received[0])],
       served := s.served + [Served(s.received[0], pressure)])
  }

  function AddressStep(s: Slave): (Slave, Response) {
    if s.abort then (Finished(s, Aborted).(abort := false), Complete)
    else (s.(busy := true, result := Unknown, stopInterrupt := false, bytesReceived := 0, bytesSent := 0), Respond)
  }

  function ReceiveStep(s: Slave, data: Byte, pressure: bool): (Slave, Response)
    requires s.Sized()
  {
    var s := s.(stopInterrupt := true);
    if s.bytesReceived < BUFFER_SIZE then
      var s' := Process(s.(received := s.received[s.bytesReceived := data]), pressure);
      var s'' := s'.(bytesReceived := s'.bytesReceived + 1);
      if s''.abort then (Finished(s'', Aborted).(abort := false), Complete) else (s'', Respond)
    else (Finished(s, Overflow), NackAndComplete)
  }

  function SendStep(s: Slave, rxNack: bool): (Slave, Response)
    requires s.Sized()
  {
    if s.bytesSent > 0 && rxNack then (Finished(s, Done), Complete)
    else if s.bytesSent < BUFFER_SIZE then (s.(bytesSent := s.bytesSent + 1), Load(s.send[s.bytesSent]))
    else (Finished(s, Overflow), Complete)
  }

  function SlaveStep(s: Slave, flags: SlaveFlags, data: Byte, pressure: bool): (Slave, Response)
    requires s.Sized()
  {
    if flags.busErr then (Finished(s.(bytesReceived := 0, bytesSent := 0), BusError), NoResponse)
    else if flags.coll then (Finished(s.(bytesReceived := 0, bytesSent := 0), Collision), NoResponse)
    else if flags.apif && flags.ap then AddressStep(s)
    else if flags.apif then (Finished(s.(stopInterrupt := false), Done), NoResponse)
    else if flags.dif then (if flags.dir then SendStep(s, flags.rxNack) else ReceiveStep(s, data, pressure))
    else (Finished(s, Fail), NoResponse)
  }

  /** TWI_Slave_t. */
  class SlaveDriver {
    const receivedData: array<Byte>
    const sendData: array<Byte>
    var bytesReceived: nat
    var bytesSent: nat
    var busy: bool
    var result: Result
    var abort: bool
    var stopInterrupt: bool         // the PIEN bit of SCTRLA
    ghost var served: seq<Served>

    ghost predicate Valid()
      reads this
    {
      && receivedData.Length == sendData.Length == BUFFER_SIZE && receivedData != sendData
      && bytesReceived <= BUFFER_SIZE && bytesSent <= BUFFER_SIZE
    }

    ghost function State(): (s: Slave)
      requires Valid()
      reads this, receivedData, sendData
      ensures s.Sized()
    {
      Slave(receivedData[..], sendData[..], bytesReceived, bytesSent, busy, result, abort, stopInterrupt, served)
    }

    /** TWI_SlaveInitializeDriver */
    constructor ()
      ensures Valid() && fresh(receivedData) && fresh(sendData)
      ensures !busy && !abort && bytesReceived == bytesSent == 0 && served == []
    {
      receivedData := new Byte[BUFFER_SIZE](_ => 0);
      sendData := new Byte[BUFFER_SIZE](_ => 0);
      bytesReceived, bytesSent, busy, result, abort := 0, 0, false, Unknown, false;
      stopInterrupt, served := false, [];
    }

    method TransactionFinished(result: Result)
      modifies `result, `busy
      ensures this.result == result && !busy
    {
      this.result, busy := result, false;
    }

    /** slave_process */
    method ProcessData(pressure: bool)
      requires Valid()
      modifies sendData, `served
      ensures State() == Process(old(State()), pressure)
    {
      var received := receivedData[0];
      sendData[0] := EncodeReply(PressureReply(pressure), received);
      served := served + [Served(received, pressure)];
      assert receivedData[..] == old(receivedData[..]);
    }

    method AddressMatchHandler() returns (response: Response)
      requires Valid()
      modifies this
      ensures Valid() && (State(), response) == AddressStep(old(State()))
    {
      if abort {
        response := Complete;
        TransactionFinished(Aborted);
        abort := false;
      } else {
        busy, result, stopInterrupt := true, Unknown, false;
        bytesReceived, bytesSent := 0, 0;
        response := Respond;
      }
    }

    method ReadHandler(data: Byte, pressure: bool) returns (response: Response)
      requires Valid()
      modifies this, receivedData, sendData
      ensures Valid() && (State(), response) == ReceiveStep(old(State()), data, pressure)
    {
      stopInterrupt := true;
      if bytesReceived < BUFFER_SIZE {
        receivedData[bytesReceived] := data;
        assert sendData[..] == old(sendData[..]);
        assert State() == old(State()).(stopInterrupt := true, received := old(State()).received[bytesReceived := data]);
        ProcessData(pressure);
        bytesReceived := bytesReceived + 1;
        if abort {
          response := Complete;
          TransactionFinished(Aborted);
          abort := false;
        } else {
          response := Respond;
        }
      } else {
        response := NackAndComplete;
        TransactionFinished(Overflow);
      }
    }

    method WriteHandler(rxNack: bool) returns (response: Response)
      requires Valid()
      modifies this
      ensures Valid() && (State(), response) == SendStep(old(State()), rxNack)
    {
      if bytesSent > 0 && rxNack {
        response := Complete;
        TransactionFinished(Done);
      } else if bytesSent < BUFFER_SIZE {
        response := Load(sendData[bytesSent]);
        bytesSent := bytesSent + 1;
      } else {
        response := Complete;
        TransactionFinished(Overflow);
      }
    }

    /** TWI_SlaveInterruptHandler, with the stop and data handlers it calls. */
    method InterruptHandler(flags: SlaveFlags, data: Byte, pressure: bool) returns (response: Response)
      requires Valid()
      modifies this, receivedData, sendData
      ensures Valid() && (State(), response) == SlaveStep(old(State()), flags, data, pressure)
    {
      response := NoResponse;
      if flags.busErr {
        bytesReceived, bytesSent, result, busy := 0, 0, BusError, false;
      } else if flags.coll {
        bytesReceived, bytesSent, result, busy := 0, 0, Collision, false;
      } else if flags.apif && flags.ap {
        response := AddressMatchHandler();
      } else if flags.apif {
        stopInterrupt := false;
        TransactionFinished(Done);
      } else if flags.dif {
        if flags.dir {
          response := WriteHandler(flags.rxNack);
        } else {
          response := ReadHandler(data, pressure);
        }
      } else {
        TransactionFinished(Fail);
      }
    }
  }
}
