/** The sampled digital inputs of asx/src/digital_input.c: a counting filter per pin. */
module DigitalInputs {
  import opened ReactorModel
  import opened Reactors
  import opened Windows
  import opened Pins

  datatype Input = Unknown | On | Off     // di_input_state_t

  datatype Filter = Filter(input: Input, threshold: nat, integrator: nat)

  const NULL_HANDLE: Handle := 255
  const SAMPLE_PERIOD: nat := 5

  /** The threshold digital_input derives from its filter time; it is kept in a byte. */
  function ThresholdOf(filterTime: nat): nat {
    (filterTime / SAMPLE_PERIOD) % 256
  }

  /** One sample of one input. */
  function Sampled(f: Filter, high: bool): Filter {
    if high then
      if f.integrator < f.threshold then
        f.(integrator := f.integrator + 1, input := if f.integrator + 1 == f.threshold then On else f.input)
      else f
    else if f.integrator > 0 then
      f.(integrator := f.integrator - 1, input := if f.integrator - 1 == 0 then Off else f.input)
    else f
  }

  function SampledAll(f: Filter, highs: seq<bool>): (r: Filter)
    ensures r.threshold == f.threshold
  {
    if highs == [] then f else Sampled(SampledAll(f, highs[..|highs| - 1]), highs[|highs| - 1])
  }

  /** +1 for a sample at the level, -1 for one at the other. */
  function Steps(highs: seq<bool>, level: bool): (r: seq<int>)
    ensures |r| == |highs|
  {
    if highs == [] then []
    else Steps(highs[..|highs| - 1], level) + [if highs[|highs| - 1] == level then 1 else -1]
  }

  /** The input has not been on after any of the samples. */
  ghost predicate NeverOn(f: Filter, highs: seq<bool>) {
    forall k :: 0 <= k <= |highs| ==> SampledAll(f, highs[..k]).input != On
  }

  ghost predicate NeverOff(f: Filter, highs: seq<bool>) {
    forall k :: 0 <= k <= |highs| ==> SampledAll(f, highs[..k]).input != Off
  }

  lemma PrefixesOf(highs: seq<bool>)
    requires highs != []
    ensures var before := highs[..|highs| - 1];
            highs[..|highs|] == highs && forall k :: 0 <= k <= |before| ==> before[..k] == highs[..k]
  {
  }

  /**
   From not on and empty, the input turns on at exactly the first sample where some window of
   samples since then has highs minus lows of at least the threshold.
   */
  lemma {:induction false} TurnsOnAtFirstWindow(f: Filter, highs: seq<bool>)
    requires f.input != On && f.integrator == 0 && 1 <= f.threshold
    ensures NeverOn(f, highs) <==> !Reached(Steps(highs, true), f.threshold)
    ensures NeverOn(f, highs) ==> SampledAll(f, highs).integrator == Level(Steps(highs, true)) < f.threshold
  {
    if highs == [] {
      NothingReached(f.threshold);
    } else {
      var before, last := highs[..|highs| - 1], highs[|highs| - 1];
      TurnsOnAtFirstWindow(f, before);
      PrefixesOf(highs);
      ReachedAppend(Steps(before, true), if last then 1 else -1, f.threshold);
      LevelAppend(Steps(before, true), if last then 1 else -1);
      assert NeverOn(f, highs) <==> NeverOn(f, before) && SampledAll(f, highs).input != On;
    }
  }

  /** The same from on and full, for turning off. */
  lemma {:induction false} TurnsOffAtFirstWindow(f: Filter, highs: seq<bool>)
    requires f.input != Off && f.integrator == f.threshold && 1 <= f.threshold
    ensures NeverOff(f, highs) <==> !Reached(Steps(highs, false), f.threshold)
    ensures NeverOff(f, highs) ==> SampledAll(f, highs).integrator == f.threshold - Level(Steps(highs, false))
                                   && Level(Steps(highs, false)) < f.threshold
  {
    if highs == [] {
      NothingReached(f.threshold);
    } else {
      var before, last := highs[..|highs| - 1], highs[|highs| - 1];
      TurnsOffAtFirstWindow(f, before);
      PrefixesOf(highs);
      ReachedAppend(Steps(before, false), if last then -1 else 1, f.threshold);
      LevelAppend(Steps(before, false), if last then -1 else 1);
      assert NeverOff(f, highs) <==> NeverOff(f, before) && SampledAll(f, highs).input != Off;
    }
  }

  // ---------------------------------------------------------------------------------------------
  // Filter times, in milliseconds

  /** The threshold is the filter time in samples of 5 ms, rounded down, exactly as long as that fits in a byte. */
  lemma ThresholdIsTime(filterTime: nat)
    ensures var t := ThresholdOf(filterTime); 5 * t <= filterTime < 5 * t + 5 <==> filterTime < 1280
  {
  }

  function HighCount(highs: seq<bool>): nat {
    if highs == [] then 0 else HighCount(highs[..|highs| - 1]) + if highs[|highs| - 1] then 1 else 0
  }

  lemma {:induction false} FewHighs(f: Filter, highs: seq<bool>)
    requires f.input != On && f.integrator == 0 && HighCount(highs) < f.threshold
    ensures NeverOn(f, highs) && SampledAll(f, highs).integrator <= HighCount(highs)
  {
    if highs != [] {
      var before := highs[..|highs| - 1];
      FewHighs(f, before);
      PrefixesOf(highs);
      forall k | 0 <= k <= |highs|
        ensures SampledAll(f, highs[..k]).input != On
      {
        if k < |highs| {
          assert highs[..k] == before[..k];
        }
      }
    }
  }

  lemma {:induction false} AllHigh(f: Filter, highs: seq<bool>)
    requires f.input == Unknown && f.integrator == 0 && 1 <= f.threshold && forall k :: 0 <= k < |highs| ==> highs[k]
    ensures var r := SampledAll(f, highs);
            && r.integrator == (if |highs| < f.threshold then |highs| else f.threshold)
            && (r.input == On <==> f.threshold <= |highs|)
  {
    if highs != [] {
      AllHigh(f, highs[..|highs| - 1]);
    }
  }

  /**
   An input with a filter time of 5 ms to 1279 ms that is held high from the start turns on with exactly
   the sample that completes that time, and fewer high samples than that never turn it on, whatever the
   low ones between them.
   */
  lemma FilterTakesItsTime(filterTime: nat, highs: seq<bool>)
    requires 5 <= filterTime < 1280
    ensures var f := Filter(Unknown, ThresholdOf(filterTime), 0);
            && (5 * HighCount(highs) + 5 <= filterTime ==> NeverOn(f, highs))
            && ((forall k :: 0 <= k < |highs| ==> highs[k]) ==>
                  (SampledAll(f, highs).input == On <==> filterTime < 5 * |highs| + 5))
  {
    hide SampledAll, HighCount, NeverOn;
    var f := Filter(Unknown, ThresholdOf(filterTime), 0);
    ThresholdIsTime(filterTime);
    if 5 * HighCount(highs) + 5 <= filterTime {
      FewHighs(f, highs);
    }
    if forall k :: 0 <= k < |highs| ==> highs[k] {
      AllHigh(f, highs);
    }
  }

  // ---------------------------------------------------------------------------------------------
  // Notifications

  /** A change notified after so many samples. */
  datatype Change = Change(at: nat, on: bool)

  function Changes(f: Filter, highs: seq<bool>): seq<Change> {
    if highs == [] then []
    else
      var before, earlier := SampledAll(f, highs[..|highs| - 1]), Changes(f, highs[..|highs| - 1]);
      var after := Sampled(before, highs[|highs| - 1]);
      if after.input == before.input then earlier else earlier + [Change(|highs|, after.input == On)]
  }

  /** Consecutive notifications differ, and at least threshold samples lie between them. */
  ghost predicate Alternates(changes: seq<Change>, threshold: nat) {
    forall i :: 1 <= i < |changes| ==>
      changes[i - 1].on != changes[i].on && changes[i - 1].at + threshold <= changes[i].at
  }

  /** What the filter's counter says about the time since the last change. */
  ghost predicate Since(f: Filter, changes: seq<Change>, now: nat) {
    if changes == [] then f.input == Unknown && f.integrator <= f.threshold
    else
      var last := changes[|changes| - 1];
      && last.at <= now && (f.input == On <==> last.on) && f.input != Unknown
      && (last.on ==> 1 <= f.integrator <= f.threshold <= f.integrator + (now - last.at))
      && (!last.on ==> f.integrator <= now - last.at && f.integrator < f.threshold)
  }

  lemma {:induction false} ChangesAlternate(f: Filter, highs: seq<bool>)
    requires f.input == Unknown && f.integrator == 0
    ensures Alternates(Changes(f, highs), f.threshold)
    ensures Since(SampledAll(f, highs), Changes(f, highs), |highs|)
  {
    if highs != [] {
      var before := highs[..|highs| - 1];
      ChangesAlternate(f, before);
      var g, r := SampledAll(f, before), SampledAll(f, highs);
      if g.input != r.input && Changes(f, before) != [] {
        var last := Changes(f, before)[|Changes(f, before)| - 1];
        assert last.at + f.threshold <= |highs|;
      }
    }
  }

  // ---------------------------------------------------------------------------------------------
  // The chain of inputs

  /** What a chained input holds. */
  datatype Reading = Reading(pin: nat, handler: Handle, filter: Filter)

  function SampledReading(d: Reading, high: bool): Reading {
    d.(filter := Sampled(d.filter, high))
  }

  function AllSampled(readings: seq<Reading>, high: set<nat>): (r: seq<Reading>)
    ensures |r| == |readings|
  {
    if readings == [] then []
    else
      var last := readings[|readings| - 1];
      AllSampled(readings[..|readings| - 1], high) + [SampledReading(last, last.pin in high)]
  }

  /** The notification a sample of one input leads to, if any. */
  function ChangeNotice(d: Reading, high: bool): seq<Notice> {
    var after := Sampled(d.filter, high);
    if after.input != d.filter.input && d.handler != NULL_HANDLE
    then [Notice(d.handler, PinArg(d.pin, after.input == On))] else []
  }

  /** All of them, in chain order. */
  function ChangeNotices(readings: seq<Reading>, high: set<nat>): seq<Notice> {
    if readings == [] then []
    else
      var last := readings[|readings| - 1];
      ChangeNotices(readings[..|readings| - 1], high) + ChangeNotice(last, last.pin in high)
  }

  // ---------------------------------------------------------------------------------------------
  // Sampling again and again

  /** What the inputs hold after samples of all of them. */
  function AfterSamples(readings: seq<Reading>, highs: seq<set<nat>>): (r: seq<Reading>)
    ensures |r| == |readings|
  {
    if highs == [] then readings
    else AllSampled(AfterSamples(readings, highs[..|highs| - 1]), highs[|highs| - 1])
  }

  function NoticesAfter(readings: seq<Reading>, highs: seq<set<nat>>): seq<Notice> {
    if highs == [] then []
    else
      var before := highs[..|highs| - 1];
      NoticesAfter(readings, before) + ChangeNotices(AfterSamples(readings, before), highs[|highs| - 1])
  }

  /** The samples of one pin. */
  function LevelsOf(pin: nat, highs: seq<set<nat>>): (r: seq<bool>)
    ensures |r| == |highs|
  {
    if highs == [] then [] else LevelsOf(pin, highs[..|highs| - 1]) + [pin in highs[|highs| - 1]]
  }

  lemma {:induction false} AllSampledAt(readings: seq<Reading>, high: set<nat>, i: nat)
    requires i < |readings|
    ensures AllSampled(readings, high)[i] == SampledReading(readings[i], readings[i].pin in high)
  {
    if i < |readings| - 1 {
      AllSampledAt(readings[..|readings| - 1], high, i);
    }
  }

  /** Each input's filter has seen the samples of its own pin, and nothing else. */
  lemma {:induction false} EachFilterSeesItsPin(readings: seq<Reading>, highs: seq<set<nat>>, i: nat)
    requires i < |readings|
    ensures AfterSamples(readings, highs)[i]
         == readings[i].(filter := SampledAll(readings[i].filter, LevelsOf(readings[i].pin, highs)))
  {
    if highs != [] {
      EachFilterSeesItsPin(readings, highs[..|highs| - 1], i);
      AllSampledAt(AfterSamples(readings, highs[..|highs| - 1]), highs[|highs| - 1], i);
    }
  }

  lemma {:induction false} LevelsAt(pin: nat, highs: seq<set<nat>>)
    ensures forall k :: 0 <= k < |highs| ==> (LevelsOf(pin, highs)[k] <==> pin in highs[k])
  {
    if highs != [] {
      LevelsAt(pin, highs[..|highs| - 1]);
    }
  }

  /** A newly added input whose pin is high at every call of the sampling is on from the end of its filter time. */
  lemma AddedInputTurnsOn(readings: seq<Reading>, highs: seq<set<nat>>, i: nat, filterTime: nat)
    requires i < |readings| && readings[i].filter == Filter(Unknown, ThresholdOf(filterTime), 0) && 5 <= filterTime < 1280
    requires forall k :: 0 <= k < |highs| ==> readings[i].pin in highs[k]
    ensures AfterSamples(readings, highs)[i].filter.input == On <==> filterTime < 5 * |highs| + 5
  {
    EachFilterSeesItsPin(readings, highs, i);
    LevelsAt(readings[i].pin, highs);
    FilterTakesItsTime(filterTime, LevelsOf(readings[i].pin, highs));
  }

  /** The notices that speak of an input's pin. */
  function AboutPin(notices: seq<Notice>, pin: nat): seq<Notice> {
    if notices == [] then []
    else
      var last := notices[|notices| - 1];
      AboutPin(notices[..|notices| - 1], pin) + if PinOf(last.arg) == pin then [last] else []
  }

  lemma {:induction false} AboutPinConcat(a: seq<Notice>, b: seq<Notice>, pin: nat)
    ensures AboutPin(a + b, pin) == AboutPin(a, pin) + AboutPin(b, pin)
  {
    if b == [] {
      assert a + b == a;
    } else {
      assert (a + b)[..|a + b| - 1] == a + b[..|b| - 1];
      AboutPinConcat(a, b[..|b| - 1], pin);
    }
  }

  lemma AboutOne(d: Reading, high: bool, pin: nat)
    ensures AboutPin(ChangeNotice(d, high), pin) == if d.pin == pin then ChangeNotice(d, high) else []
  {
    var notices := ChangeNotice(d, high);
    assert notices == [] || (|notices| == 1 && notices[..0] == []);
  }

  ghost predicate DistinctPins(readings: seq<Reading>) {
    forall i, j :: 0 <= i < j < |readings| ==> readings[i].pin != readings[j].pin
  }

  lemma {:induction false} AboutOther(readings: seq<Reading>, high: set<nat>, pin: nat)
    requires forall i :: 0 <= i < |readings| ==> readings[i].pin != pin
    ensures AboutPin(ChangeNotices(readings, high), pin) == []
  {
    if readings != [] {
      var before, last := readings[..|readings| - 1], readings[|readings| - 1];
      AboutOther(before, high, pin);
      AboutOne(last, last.pin in high, pin);
      AboutPinConcat(ChangeNotices(before, high), ChangeNotice(last, last.pin in high), pin);
    }
  }

  lemma {:induction false} AboutOwn(readings: seq<Reading>, high: set<nat>, i: nat)
    requires DistinctPins(readings) && i < |readings|
    ensures AboutPin(ChangeNotices(readings, high), readings[i].pin) == ChangeNotice(readings[i], readings[i].pin in high)
  {
    var before, last := readings[..|readings| - 1], readings[|readings| - 1];
    AboutOne(last, last.pin in high, readings[i].pin);
    AboutPinConcat(ChangeNotices(before, high), ChangeNotice(last, last.pin in high), readings[i].pin);
    if i < |readings| - 1 {
      AboutOwn(before, high, i);
    } else {
      AboutOther(before, high, readings[i].pin);
    }
  }

  /** The notices of an input's changes. */
  function Reported(d: Reading, changes: seq<Change>): seq<Notice> {
    if changes == [] || d.handler == NULL_HANDLE then []
    else Reported(d, changes[..|changes| - 1]) + [Notice(d.handler, PinArg(d.pin, changes[|changes| - 1].on))]
  }

  /** Of each input exactly the changes of its own filter are notified, in their order. */
  lemma {:induction false} EachChangeIsNotified(readings: seq<Reading>, highs: seq<set<nat>>, i: nat)
    requires DistinctPins(readings) && i < |readings|
    ensures AboutPin(NoticesAfter(readings, highs), readings[i].pin)
         == Reported(readings[i], Changes(readings[i].filter, LevelsOf(readings[i].pin, highs)))
  {
    if highs != [] {
      var before, high := highs[..|highs| - 1], highs[|highs| - 1];
      var held, d := AfterSamples(readings, before), readings[i];
      EachChangeIsNotified(readings, before, i);
      EachFilterSeesItsPin(readings, before, i);
      PinsStay(readings, before);
      AboutOwn(held, high, i);
      AboutPinConcat(NoticesAfter(readings, before), ChangeNotices(held, high), d.pin);
      var levels := LevelsOf(d.pin, highs);
      assert levels[..|levels| - 1] == LevelsOf(d.pin, before);
    }
  }

  lemma PinsStay(readings: seq<Reading>, highs: seq<set<nat>>)
    requires DistinctPins(readings)
    ensures DistinctPins(AfterSamples(readings, highs))
  {
    forall i | 0 <= i < |readings|
      ensures AfterSamples(readings, highs)[i].pin == readings[i].pin
    {
      EachFilterSeesItsPin(readings, highs, i);
    }
  }

  class DigitalInput {
    const pin: nat
    const handler: Handle
    const threshold: nat
    var input: Input
    var integrator: nat
    var next: DigitalInput?

    ghost function Read(): Reading
      reads `input, `integrator
    {
      Reading(pin, handler, Filter(input, threshold, integrator))
    }

    constructor (pin: nat, handler: Handle, filterTime: nat)
      ensures Read() == Reading(pin, handler, Filter(Unknown, ThresholdOf(filterTime), 0)) && next == null
      ensures filterTime < 1280 ==> 5 * threshold <= filterTime < 5 * threshold + 5
    {
      this.pin, this.handler, threshold := pin, handler, (filterTime / SAMPLE_PERIOD) % 256;
      input, integrator, next := Unknown, 0, null;
    }

    /** The counting part of the loop in _digital_input_sample. */
    method Sample(level: bool)
      modifies `input, `integrator
      ensures Read() == SampledReading(old(Read()), level)
    {
      if level {
        if integrator < threshold {
          integrator := integrator + 1;
          if integrator == threshold {
            input := On;
          }
        }
      } else if integrator > 0 {
        integrator := integrator - 1;
        if integrator == 0 {
          input := Off;
        }
      }
    }
  }

  /** The objects reached from first through next, in order. */
  ghost predicate Linked(first: DigitalInput?, list: seq<DigitalInput>)
    reads list`next
  {
    && first == (if |list| == 0 then null else list[0])
    && (forall i {:trigger list[i].next} :: 0 <= i < |list| ==> list[i].next == if i + 1 < |list| then list[i + 1] else null)
    && (forall i, j :: 0 <= i < j < |list| ==> list[i] != list[j])
  }

  ghost function Members(list: seq<DigitalInput>): set<DigitalInput> {
    set d | d in list
  }

  ghost function Readings(list: seq<DigitalInput>): (r: seq<Reading>)
    reads list`input, list`integrator
    ensures |r| == |list| && forall i :: 0 <= i < |r| ==> r[i] == list[i].Read()
  {
    if list == [] then [] else Readings(list[..|list| - 1]) + [list[|list| - 1].Read()]
  }

  /** Where sampling stands after the first n inputs of a chain that read as given before. */
  ghost function Halfway(was: seq<Reading>, high: set<nat>, n: nat): seq<Reading>
    requires n <= |was|
  {
    AllSampled(was[..n], high) + was[n..]
  }

  /** One more input sampled. */
  lemma OneFurther(was: seq<Reading>, high: set<nat>, n: nat, events: seq<Event>)
    requires n < |was|
    ensures Halfway(was, high, n)[n] == was[n]
    ensures Halfway(was, high, n + 1) == Halfway(was, high, n)[n := SampledReading(was[n], was[n].pin in high)]
    ensures events + ToldAll(ChangeNotices(was[..n + 1], high))
         == events + ToldAll(ChangeNotices(was[..n], high)) + ToldAll(ChangeNotice(was[n], was[n].pin in high))
  {
    assert was[..n + 1][..n] == was[..n];
  }

  /** The chain shares no storage with the reactor, and its handlers are registered there. */
  ghost predicate Served(list: seq<DigitalInput>, r: Reactor)
    reads r`Repr, r`items
  {
    forall d :: d in list ==> d !in r.Repr && (d.handler != NULL_HANDLE ==> d.handler < |r.items|)
  }

  /** The loop of _digital_input_sample after n inputs: what was read, and what was notified, so far. */
  ghost predicate Sampling(first: DigitalInput?, list: seq<DigitalInput>, r: Reactor, was: seq<Reading>,
                           events: seq<Event>, high: set<nat>, n: nat)
    reads list, r, r.Repr
  {
    && n <= |list| == |was| && Linked(first, list) && r.Valid() && Served(list, r)
    && Readings(list) == Halfway(was, high, n)
    && r.events == events + ToldAll(ChangeNotices(was[..n], high))
  }

  lemma SamplingStarts(first: DigitalInput?, list: seq<DigitalInput>, r: Reactor, high: set<nat>)
    requires Linked(first, list) && r.Valid() && Served(list, r)
    ensures Sampling(first, list, r, Readings(list), r.events, high, 0)
    ensures first == if 0 < |list| then list[0] else null
  {
    hide Reactor.Valid, Served, Readings, Halfway;
    NothingSampled(Readings(list), high, r.events);
  }

  lemma NothingSampled(was: seq<Reading>, high: set<nat>, events: seq<Event>)
    ensures Halfway(was, high, 0) == was && events + ToldAll(ChangeNotices(was[..0], high)) == events
  {
  }

  lemma SamplingEnds(first: DigitalInput?, list: seq<DigitalInput>, r: Reactor, was: seq<Reading>,
                     events: seq<Event>, high: set<nat>)
    requires Sampling(first, list, r, was, events, high, |list|)
    ensures Served(list, r)
    ensures Linked(first, list) && Readings(list) == AllSampled(was, high)
    ensures r.Valid() && r.events == events + ToldAll(ChangeNotices(was, high))
  {
    hide Reactor.Valid, Served, Readings;
    assert was[..|was|] == was;
  }

  /** The counting part in the chain: the other inputs keep their readings. */
  method SampleAt(ghost list: seq<DigitalInput>, ghost n: nat, di: DigitalInput, level: bool, ghost first: DigitalInput?)
    requires n < |list| && di == list[n] && Linked(first, list)
    modifies di`input, di`integrator
    ensures Linked(first, list)
    ensures Readings(list) == old(Readings(list))[n := SampledReading(old(di.Read()), level)]
  {
    di.Sample(level);
    assert forall i :: 0 <= i < |list| && i != n ==> list[i] != di;
  }

  /** The notifying part. */
  method Report(ghost list: seq<DigitalInput>, di: DigitalInput, previous: Input, r: Reactor, ghost first: DigitalInput?)
    requires di in list && Linked(first, list) && r.Valid() && Served(list, r)
    modifies r`bits, r`events, r.Repr
    ensures Linked(first, list) && Readings(list) == old(Readings(list))
    ensures r.Valid() && Served(list, r) && r.Repr == old(r.Repr)
    ensures r.events == old(r.events) + ToldAll(
              if di.input != previous && di.handler != NULL_HANDLE
              then [Notice(di.handler, PinArg(di.pin, di.input == On))] else [])
  {
    if di.input != previous && di.handler != NULL_HANDLE {
      r.Notify(Notice(di.handler, PinArg(di.pin, di.input == On)));
    }
  }

  /** One turn of the loop in _digital_input_sample. */
  method SampleOne(ghost list: seq<DigitalInput>, ghost n: nat, di: DigitalInput, high: set<nat>, r: Reactor,
                   ghost first: DigitalInput?, ghost was: seq<Reading>, ghost events: seq<Event>)
    returns (next: DigitalInput?)
    requires n < |list| && di == list[n] && Sampling(first, list, r, was, events, high, n)
    modifies Members(list)`input, Members(list)`integrator, r`bits, r`events, r.Repr
    ensures Sampling(first, list, r, was, events, high, n + 1) && r.Repr == old(r.Repr)
    ensures n + 1 < |list| ==> next == list[n + 1]
    ensures n + 1 == |list| ==> next == null
  {
    OneFurther(was, high, n, events);
    assert di.Read() == Readings(list)[n];
    var previous := di.input;
    SampleAt(list, n, di, di.pin in high, first);
    assert di.Read() == Readings(list)[n];
    Report(list, di, previous, r, first);
    next := di.next;
  }

  /** _digital_input_sample: every input is sampled once, and its changes are notified in chain order. */
  method SampleInputs(first: DigitalInput?, ghost list: seq<DigitalInput>, high: set<nat>, r: Reactor)
    requires Linked(first, list) && r.Valid() && Served(list, r)
    modifies Members(list)`input, Members(list)`integrator, r`bits, r`events, r.Repr
    ensures Linked(first, list) && Readings(list) == AllSampled(old(Readings(list)), high)
    ensures Served(list, r) && r.Repr == old(r.Repr)
    ensures r.Valid() && r.events == old(r.events) + ToldAll(ChangeNotices(old(Readings(list)), high))
  {
    hide *;
    var di := first;
    ghost var n, was, events := 0, Readings(list), r.events;
    SamplingStarts(first, list, r, high);
    while di != null
      invariant n <= |list| && di == (if n < |list| then list[n] else null)
      invariant Sampling(first, list, r, was, events, high, n) && r.Repr == old(r.Repr)
      decreases |list| - n
    {
      di := SampleOne(list, n, di, high, r, first, was, events);
      n := n + 1;
    }
    SamplingEnds(first, list, r, was, events, high);
  }

  /** The sampling timer's calls, with the pins that are high at each of them. */
  method SampleRepeatedly(first: DigitalInput?, ghost list: seq<DigitalInput>, highs: seq<set<nat>>, r: Reactor)
    requires Linked(first, list) && r.Valid() && Served(list, r)
    modifies Members(list)`input, Members(list)`integrator, r`bits, r`events, r.Repr
    ensures Linked(first, list) && Readings(list) == AfterSamples(old(Readings(list)), highs)
    ensures r.Valid() && r.events == old(r.events) + ToldAll(NoticesAfter(old(Readings(list)), highs))
  {
    hide *;
    ghost var was, events := Readings(list), r.events;
    NotYet(was, events);
    var k := 0;
    assert highs[..0] == [];
    while k < |highs|
      invariant k <= |highs| && Linked(first, list) && r.Valid() && Served(list, r) && r.Repr == old(r.Repr)
      invariant Readings(list) == AfterSamples(was, highs[..k])
      invariant r.events == events + ToldAll(NoticesAfter(was, highs[..k]))
    {
      SampleInputs(first, list, highs[k], r);
      OnceMore(was, highs, k, events);
      k := k + 1;
    }
    assert highs[..k] == highs;
  }

  lemma NotYet(was: seq<Reading>, events: seq<Event>)
    ensures AfterSamples(was, []) == was && events + ToldAll(NoticesAfter(was, [])) == events
  {
    assert ToldAll([]) == [];
  }

  lemma OnceMore(was: seq<Reading>, highs: seq<set<nat>>, k: nat, events: seq<Event>)
    requires k < |highs|
    ensures var held := AfterSamples(was, highs[..k]);
            && AfterSamples(was, highs[..k + 1]) == AllSampled(held, highs[k])
            && events + ToldAll(NoticesAfter(was, highs[..k + 1]))
               == events + ToldAll(NoticesAfter(was, highs[..k])) + ToldAll(ChangeNotices(held, highs[k]))
  {
    assert highs[..k + 1][..k] == highs[..k];
  }

  /** digital_input, for a sampled pin: the new input goes to the end of the chain. */
  method AddInput(first: DigitalInput?, ghost list: seq<DigitalInput>, pin: nat, handler: Handle, filterTime: nat)
    returns (head: DigitalInput, ghost list': seq<DigitalInput>)
    requires Linked(first, list)
    modifies list`next
    ensures Linked(head, list') && |list'| == |list| + 1 && list'[..|list|] == list && fresh(list'[|list|])
    ensures Readings(list') == old(Readings(list)) + [Reading(pin, handler, Filter(Unknown, ThresholdOf(filterTime), 0))]
    ensures filterTime < 1280 ==> 5 * list'[|list|].threshold <= filterTime < 5 * list'[|list|].threshold + 5
  {
    var di := new DigitalInput(pin, handler, filterTime);
    list' := list + [di];
    head := di;
    if first != null {
      var last := first;
      ghost var n := 0;
      while last.next != null
        invariant n < |list| && last == list[n] && Linked(first, list) && unchanged(list)
        decreases |list| - n
      {
        last := last.next;
        n := n + 1;
      }
      assert n + 1 == |list|;
      last.next := di;
      head := first;
      assert forall i :: 0 <= i < n ==> list'[i].next == list'[i + 1];
    }
    assert forall i :: 0 <= i < |list| ==> list[i].Read() == old(list[i].Read());
  }
}
