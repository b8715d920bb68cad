/**
 The timers and the queues of one firmware as seen by its application: what the peripherals and
 interrupts may do around it, and what reaches its own handlers.
 */
module Runtime {
  import opened TimerModel
  import opened RingQueues
  import opened ReactorModel

  datatype Sys = Sys(timers: Timers, queues: Queues)

  /**
   caps: the queue size of every handler. tick: the timer service's handler. own: the handlers
   only the application's timers notify. foreign: the handlers other drivers arm timers for.
   guarded: handlers whose argument is always below limit.
   */
  datatype Rules = Rules(caps: seq<nat>, tick: Handle, own: set<Handle>, foreign: set<Handle>, guarded: set<Handle>, limit: nat)

  ghost predicate Proper(u: Rules) {
    && Sized(u.caps) && u.tick !in u.own && u.tick !in u.guarded && u.tick < |u.caps|
    && u.own !! u.foreign && u.own !! u.guarded && u.foreign !! u.guarded
    && forall h :: h in u.own || h in u.foreign ==> h < |u.caps|
  }

  /** What happens outside the application's handlers. A step that breaks the rules does nothing. */
  datatype EnvOp =
    | Tick                                                        // the tick interrupt
    | Raise(notice: Notice)                                       // another interrupt or driver notifies
    | ForeignArm(handle: Handle, count: nat, repeat: nat, arg: int)
    | ForeignCancel(instance: nat)

  /** Nothing queued before is taken. */
  ghost predicate Keeps(queues: Queues, queues': Queues) {
    |queues| == |queues'| && forall h :: 0 <= h < |queues| ==> queues[h] != [] ==> queues'[h] != []
  }

  function Told(s: Sys, u: Rules, n: Notice): (r: Sys)
    ensures Keeps(s.queues, r.queues)
  {
    if n.handle < |s.queues| == |u.caps| && 1 <= u.caps[n.handle] && |s.queues[n.handle]| <= u.caps[n.handle]
    then s.(queues := s.queues[n.handle := PushedRing(s.queues[n.handle], u.caps[n.handle], n.arg)])
    else s
  }

  predicate Allowed(s: Sys, u: Rules, op: EnvOp) {
    match op
    case Tick => true
    case Raise(n) => n.handle !in u.own && (n.handle in u.guarded ==> 0 <= n.arg < u.limit)
    case ForeignArm(h, _, _, _) => h in u.foreign
    case ForeignCancel(i) => forall f :: f in s.timers.live && f.instance == i ==> f.reactor in u.foreign
  }

  function Happen(s: Sys, u: Rules, op: EnvOp): (r: Sys)
    ensures Keeps(s.queues, r.queues)
  {
    if !Allowed(s, u, op) then s
    else
      match op
      case Tick => Told(s.(timers := s.timers.(now := s.timers.now + 1)), u, Notice(u.tick, 0))
      case Raise(n) => Told(s, u, n)
      case ForeignArm(h, count, repeat, arg) => s.(timers := Arm(s.timers, h, count, repeat, arg))
      case ForeignCancel(i) => s.(timers := Cancel(s.timers, i))
  }

  /** How many milliseconds pass. */
  function TickCount(ops: seq<EnvOp>): nat {
    if ops == [] then 0 else (if ops[0].Tick? then 1 else 0) + TickCount(ops[1..])
  }

  function HappenAll(s: Sys, u: Rules, ops: seq<EnvOp>): (r: Sys)
    ensures Keeps(s.queues, r.queues)
    decreases |ops|
  {
    if ops == [] then s else HappenAll(Happen(s, u, ops[0]), u, ops[1..])
  }

  /** The arguments of the futures, in order. */
  function Args(fs: seq<Future>): (r: seq<int>)
    ensures |r| == |fs|
  {
    if fs == [] then [] else [fs[0].arg] + Args(fs[1..])
  }

  function ToldEach(s: Sys, u: Rules, notes: seq<Future>): (r: Sys)
    ensures |r.queues| == |s.queues| && r.timers == s.timers
    decreases |notes|
  {
    if notes == [] then s else ToldEach(Told(s, u, Notice(notes[0].reactor, notes[0].arg)), u, notes[1..])
  }

  /** timer_dispatch and the notifications it makes. */
  function DispatchTimers(s: Sys, u: Rules): (r: Sys)
    ensures |r.queues| == |s.queues|
  {
    ToldEach(s.(timers := TimerModel.Dispatch(s.timers)), u, Fire(s.timers.live, s.timers.next, s.timers.now).notes)
  }

  // ---------------------------------------------------------------------------------------------
  // What stays true

  ghost predicate Base(s: Sys, u: Rules) {
    && Proper(u)
    && Sound(s.timers.live, s.timers.next)
    && Fits(s.queues, u.caps)
    && (forall f :: f in s.timers.live ==> f.reactor in u.own || f.reactor in u.foreign)
    && (forall h :: h in u.guarded && h < |s.queues| ==> forall x :: x in s.queues[h] ==> 0 <= x < u.limit)
  }

  /** Instances only grow, and one that was given out before does not come back. */
  ghost predicate Later(t: Timers, r: Timers) {
    && t.next <= r.next && t.now <= r.now
    && forall f :: f in r.live ==> f in t.live || t.next <= f.instance
  }

  /** The application's own timers and queues are as before. */
  ghost predicate Calm(s: Sys, r: Sys, u: Rules) {
    && Later(s.timers, r.timers) && |s.queues| == |r.queues|
    && forall h :: h in u.own && h < |s.queues| ==> For(s.timers.live, h) == For(r.timers.live, h) && s.queues[h] == r.queues[h]
  }

  lemma ToldKeeps(s: Sys, u: Rules, n: Notice)
    requires Base(s, u) && n.handle < |u.caps| && (n.handle in u.guarded ==> 0 <= n.arg < u.limit)
    ensures Base(Told(s, u, n), u)
    ensures forall h :: 0 <= h < |u.caps| && h != n.handle ==> Told(s, u, n).queues[h] == s.queues[h]
  {
    var q := s.queues[n.handle];
    assert forall x :: x in PushedRing(q, u.caps[n.handle], n.arg) ==> x in q || x == n.arg;
  }

  lemma MembersAfterRemove(live: seq<Future>, i: nat)
    ensures forall f :: f in Remove(live, i) ==> f in live
    ensures forall f :: f in live && f.instance != i ==> f in Remove(live, i)
  {
    var p := RemoveSplits(live, i);
    if p < |live| {
      assert live == live[..p] + [live[p]] + live[p + 1..];
      forall f | f in live && f.instance != i
        ensures f in Remove(live, i)
      {
        assert f in live[..p] || f in live[p + 1..];
      }
    }
  }

  lemma HappenKeeps(s: Sys, u: Rules, op: EnvOp)
    requires Base(s, u)
    ensures Base(Happen(s, u, op), u) && Calm(s, Happen(s, u, op), u)
  {
    if Allowed(s, u, op) {
      match op
      case Tick =>
        ToldKeeps(s.(timers := s.timers.(now := s.timers.now + 1)), u, Notice(u.tick, 0));
      case Raise(n) =>
        if n.handle < |u.caps| {
          ToldKeeps(s, u, n);
        }
      case ForeignArm(h, count, repeat, arg) =>
        var e := Future(h, s.timers.next, count, repeat, arg);
        InsertSound(s.timers.live, s.timers.next, e);
        MembersAfterInsert(s.timers.live, e);
        forall g | g in u.own
          ensures For(Insert(s.timers.live, e), g) == For(s.timers.live, g)
        {
          ForInsert(s.timers.live, e, g);
        }
      case ForeignCancel(i) =>
        RemoveSound(s.timers.live, s.timers.next, i);
        MembersAfterRemove(s.timers.live, i);
        forall g | g in u.own
          ensures For(Remove(s.timers.live, i), g) == For(s.timers.live, g)
        {
          ForRemoveOther(s.timers.live, i, g);
        }
    }
  }

  lemma {:induction false} HappenAllKeeps(s: Sys, u: Rules, ops: seq<EnvOp>)
    requires Base(s, u)
    ensures Base(HappenAll(s, u, ops), u) && Calm(s, HappenAll(s, u, ops), u)
    decreases |ops|
  {
    if ops != [] {
      HappenKeeps(s, u, ops[0]);
      HappenAllKeeps(Happen(s, u, ops[0]), u, ops[1..]);
    }
  }

  /** The application arms a timer for one of its handlers. */
  lemma OwnArm(t: Timers, s: Sys, u: Rules, h: Handle, count: nat, repeat: nat, arg: int)
    requires Base(s, u) && s.timers == t && h in u.own
    ensures var e, r := Future(h, t.next, count, repeat, arg), s.(timers := Arm(t, h, count, repeat, arg));
            && Base(r, u) && Later(t, r.timers)
            && (forall g :: g != h ==> For(r.timers.live, g) == For(t.live, g))
            && (forall f :: f in For(r.timers.live, h) <==> f in For(t.live, h) || f == e)
            && (For(t.live, h) == [] ==> For(r.timers.live, h) == [e])
  {
    var e := Future(h, t.next, count, repeat, arg);
    InsertSound(t.live, t.next, e);
    MembersAfterInsert(t.live, e);
    forall g
      ensures g != h ==> For(Insert(t.live, e), g) == For(t.live, g)
    {
      ForInsert(t.live, e, g);
    }
    ForInsert(t.live, e, h);
    ForMembers(t.live, h);
    ForMembers(Insert(t.live, e), h);
  }

  lemma ForMembers(live: seq<Future>, h: Handle)
    ensures forall f :: f in For(live, h) <==> f in live && f.reactor == h
  {
    forall f | f in live && f.reactor == h
      ensures f in For(live, h)
    {
      var i :| 0 <= i < |live| && live[i] == f;
      ForFindsAll(live, h, i);
    }
  }

  lemma NotLiveMembers(live: seq<Future>, i: nat)
    requires !IsLive(live, i)
    ensures forall f :: f in live ==> f.instance != i
  {
    forall f | f in live
      ensures f.instance != i
    {
      var k :| 0 <= k < |live| && live[k] == f;
    }
  }

  /** The application cancels an instance it was given for handler h. */
  lemma OwnCancel(t: Timers, s: Sys, u: Rules, h: Handle, i: nat)
    requires Base(s, u) && s.timers == t
    requires forall f :: f in t.live && f.instance == i ==> f.reactor == h
    ensures var r := s.(timers := Cancel(t, i));
            && Base(r, u) && Later(t, r.timers)
            && (forall g :: g != h ==> For(r.timers.live, g) == For(t.live, g))
            && (forall f :: f in For(r.timers.live, h) <==> f in For(t.live, h) && f.instance != i)
            && (|For(t.live, h)| == 1 && For(t.live, h)[0].instance == i ==> For(r.timers.live, h) == [])
            && ((forall f :: f in For(t.live, h) ==> f.instance != i) ==> For(r.timers.live, h) == For(t.live, h))
  {
    RemoveSound(t.live, t.next, i);
    MembersAfterRemove(t.live, i);
    ForMembers(t.live, h);
    ForMembers(Remove(t.live, i), h);
    NotLiveMembers(Remove(t.live, i), i);
    forall g
      ensures g != h ==> For(Remove(t.live, i), g) == For(t.live, g)
    {
      if g != h {
        ForRemoveOther(t.live, i, g);
      }
    }
    if |For(t.live, h)| == 1 && For(t.live, h)[0].instance == i {
      ForRemoveOnly(t.live, i, h);
    }
    if forall f :: f in For(t.live, h) ==> f.instance != i {
      ForRemoveOther(t.live, i, h);
    }
  }

  // ---------------------------------------------------------------------------------------------
  // The surroundings as the reactor sees them

  /** What a step of the surroundings notifies. */
  function NoticesOf(s: Sys, u: Rules, op: EnvOp): seq<Notice> {
    if !Allowed(s, u, op) then []
    else
      match op
      case Tick => [Notice(u.tick, 0)]
      case Raise(n) => if n.handle < |u.caps| then [n] else []
      case _ => []
  }

  function AllNotices(s: Sys, u: Rules, ops: seq<EnvOp>): seq<Notice>
    decreases |ops|
  {
    if ops == [] then [] else NoticesOf(s, u, ops[0]) + AllNotices(Happen(s, u, ops[0]), u, ops[1..])
  }

  lemma HappenReplays(s: Sys, u: Rules, op: EnvOp, events: seq<Event>)
    requires Base(s, u) && KnownEvents(events, |u.caps|) && s.queues == Replay(u.caps, events)
    ensures Known(NoticesOf(s, u, op), |u.caps|)
    ensures var told := events + ToldAll(NoticesOf(s, u, op));
            KnownEvents(told, |u.caps|) && Happen(s, u, op).queues == Replay(u.caps, told)
  {
    var notices := NoticesOf(s, u, op);
    assert notices == [] || notices == [notices[0]];
    if notices == [] {
      assert events + ToldAll(notices) == events;
    } else {
      assert events + ToldAll(notices) == events + [Event.Told(notices[0])];
      ReplayAppend(u.caps, events, Event.Told(notices[0]));
    }
  }

  /** The queues keep following the reactor's history. */
  lemma {:induction false} HappenAllReplays(s: Sys, u: Rules, ops: seq<EnvOp>, events: seq<Event>)
    requires Base(s, u) && KnownEvents(events, |u.caps|) && s.queues == Replay(u.caps, events)
    ensures Known(AllNotices(s, u, ops), |u.caps|)
    ensures var told := events + ToldAll(AllNotices(s, u, ops));
            KnownEvents(told, |u.caps|) && HappenAll(s, u, ops).queues == Replay(u.caps, told)
    decreases |ops|
  {
    hide Base, Happen, NoticesOf, Replay;
    if ops == [] {
      assert events + ToldAll([]) == events;
    } else {
      var first := NoticesOf(s, u, ops[0]);
      HappenReplays(s, u, ops[0], events);
      HappenKeeps(s, u, ops[0]);
      HappenAllReplays(Happen(s, u, ops[0]), u, ops[1..], events + ToldAll(first));
      var rest := AllNotices(Happen(s, u, ops[0]), u, ops[1..]);
      assert events + ToldAll(first + rest) == events + ToldAll(first) + ToldAll(rest);
    }
  }

  /**
   What the reactor's loop serves, seen from the application: after the surroundings have had their
   say the oldest item of the handler picked before is taken.
   */
  lemma ServedRound(s: Sys, u: Rules, order: seq<Handle>, isr: seq<EnvOp>, events: seq<Event>, call: Notice, events': seq<Event>)
    requires Base(s, u) && IsPermutation(order, |u.caps|)
    requires KnownEvents(events, |u.caps|) && s.queues == Replay(u.caps, events)
    ensures Known(AllNotices(s, u, isr), |u.caps|) && |s.queues| == |u.caps| == |HappenAll(s, u, isr).queues|
    ensures Serves(order, u.caps, events, AllNotices(s, u, isr), call, events') <==>
              var p, r := Pick(order, s.queues), HappenAll(s, u, isr);
              && p < |order| && call == Notice(order[p], r.queues[order[p]][0])
              && events' == events + ToldAll(AllNotices(s, u, isr)) + [Taken(order[p])]
    ensures Serves(order, u.caps, events, AllNotices(s, u, isr), call, events') ==>
              && KnownEvents(events', |u.caps|) && HappenAll(s, u, isr).queues[call.handle] != []
              && Replay(u.caps, events') == Popped(HappenAll(s, u, isr).queues, call.handle)
  {
    hide Replay, Pick, HappenAll, AllNotices;
    HappenAllReplays(s, u, isr, events);
    var told, p := events + ToldAll(AllNotices(s, u, isr)), Pick(order, s.queues);
    if p < |order| {
      PickHas(order, s.queues);
      ReplayAppend(u.caps, told, Taken(order[p]));
    }
  }

  // ---------------------------------------------------------------------------------------------
  // Handlers with room for one item: what single steps of the surroundings do

  function Ticks(n: nat): (r: seq<EnvOp>)
    ensures |r| == n && TickCount(r) == n
  {
    if n == 0 then [] else [Tick] + Ticks(n - 1)
  }

  lemma ToldSingle(s: Sys, u: Rules, h: Handle, x: int)
    requires |s.queues| == |u.caps| && h < |u.caps| && u.caps[h] == 1 && |s.queues[h]| <= 1
    ensures Told(s, u, Notice(h, x)) == s.(queues := s.queues[h := [x]])
  {
    assert PushedRing(s.queues[h], 1, x) == [x];
  }

  lemma RaisedSingle(s: Sys, u: Rules, h: Handle, x: int)
    requires |s.queues| == |u.caps| && h < |u.caps| && u.caps[h] == 1 && |s.queues[h]| <= 1
    requires h !in u.own && h !in u.guarded
    ensures HappenAll(s, u, [Raise(Notice(h, x))]) == s.(queues := s.queues[h := [x]])
  {
    var op := Raise(Notice(h, x));
    ToldSingle(s, u, h, x);
    assert Allowed(s, u, op);
    assert HappenAll(Happen(s, u, op), u, [op][1..]) == Happen(s, u, op);
  }

  /** While nothing runs, ticks only move the clock and leave the timer handler notified. */
  lemma {:induction false} TicksPass(s: Sys, u: Rules, n: nat)
    requires |s.queues| == |u.caps| && u.tick < |u.caps| && u.caps[u.tick] == 1 && s.queues[u.tick] == [0]
    ensures HappenAll(s, u, Ticks(n)) == s.(timers := s.timers.(now := s.timers.now + n))
    decreases n
  {
    if n > 0 {
      var later := s.(timers := s.timers.(now := s.timers.now + 1));
      ToldSingle(later, u, u.tick, 0);
      assert s.queues[u.tick := [0]] == s.queues;
      TicksPass(later, u, n - 1);
      assert Ticks(n)[1..] == Ticks(n - 1);
    }
  }

  lemma TicksWake(s: Sys, u: Rules, n: nat)
    requires |s.queues| == |u.caps| && u.tick < |u.caps| && u.caps[u.tick] == 1 && s.queues[u.tick] == [] && 0 < n
    ensures HappenAll(s, u, Ticks(n)) == Sys(s.timers.(now := s.timers.now + n), s.queues[u.tick := [0]])
  {
    var s1 := Sys(s.timers.(now := s.timers.now + 1), s.queues[u.tick := [0]]);
    ToldSingle(s.(timers := s.timers.(now := s.timers.now + 1)), u, u.tick, 0);
    TicksPass(s1, u, n - 1);
    assert Ticks(n)[1..] == Ticks(n - 1);
  }

  // ---------------------------------------------------------------------------------------------
  // Dispatch

  /** What notifications with these arguments make of a queue. */
  function PushedAll(q: seq<int>, cap: nat, args: seq<int>): (r: seq<int>)
    requires 1 <= cap && |q| <= cap
    ensures |r| <= cap && (q != [] || args != [] ==> r != [])
    decreases |args|
  {
    if args == [] then q else PushedAll(PushedRing(q, cap, args[0]), cap, args[1..])
  }

  lemma {:induction false} ToldEachEffect(s: Sys, u: Rules, notes: seq<Future>, h: Handle)
    requires Base(s, u) && h < |u.caps|
    requires forall f :: f in notes ==> f.reactor in u.own || f.reactor in u.foreign
    ensures var r := ToldEach(s, u, notes);
            Base(r, u) && r.queues[h] == PushedAll(s.queues[h], u.caps[h], Args(For(notes, h)))
    decreases |notes|
  {
    if notes != [] {
      var n := Notice(notes[0].reactor, notes[0].arg);
      assert notes[0] in notes;
      ToldKeeps(s, u, n);
      ToldEachEffect(Told(s, u, n), u, notes[1..], h);
      ForCons(notes[0], notes[1..], h);
      assert [notes[0]] + notes[1..] == notes;
      if n.handle == h {
        assert For(notes, h)[1..] == For(notes[1..], h);
        assert Args(For(notes, h))[1..] == Args(For(notes[1..], h));
      } else {
        assert For(notes, h) == For(notes[1..], h);
      }
    }
  }

  lemma {:induction false} FireMembers(live: seq<Future>, next: nat, now: nat, u: Rules)
    requires forall f :: f in live ==> f.reactor in u.own || f.reactor in u.foreign
    ensures var b := Fire(live, next, now);
            && (forall f :: f in b.notes ==> f.reactor in u.own || f.reactor in u.foreign)
            && (forall f :: f in b.live ==> f.reactor in u.own || f.reactor in u.foreign)
            && (forall f :: f in b.live ==> f in live || next <= f.instance)
    decreases TotalOverdue(live, now)
  {
    if HeadDue(live, now) {
      OverdueShrinks(live, next, now);
      if live[0].repeat > 0 {
        MembersAfterInsert(live[1..], Rearmed(live[0], next));
      }
      FireMembers(AfterHead(live, next), NextAfterHead(live, next), now, u);
    }
  }

  /** A dispatch, for one of the application's handlers. */
  lemma DispatchEffect(s: Sys, u: Rules, h: Handle)
    requires Base(s, u) && h < |u.caps|
    ensures var b, r := Fire(s.timers.live, s.timers.next, s.timers.now), DispatchTimers(s, u);
            && Base(r, u) && r.timers == Timers(s.timers.now, b.live, b.next) && Later(s.timers, r.timers)
            && r.queues[h] == PushedAll(s.queues[h], u.caps[h], Args(For(b.notes, h)))
            && (forall f :: f in For(b.notes, h) ==> f.count <= s.timers.now)
            && (OneShot(s.timers.live, h) ==> For(s.timers.live, h) == For(b.notes, h) + For(b.live, h))
  {
    var t, b := s.timers, Fire(s.timers.live, s.timers.next, s.timers.now);
    FireSound(t.live, t.next, t.now);
    FireMembers(t.live, t.next, t.now, u);
    ToldEachEffect(s.(timers := TimerModel.Dispatch(t)), u, b.notes, h);
    ForMembers(b.notes, h);
    if OneShot(t.live, h) {
      ForFire(t.live, t.next, t.now, h);
    }
  }

  lemma PopKeeps(s: Sys, u: Rules, h: Handle)
    requires Base(s, u) && h < |u.caps| && s.queues[h] != []
    ensures Base(s.(queues := Popped(s.queues, h)), u)
  {
    var r := s.(queues := Popped(s.queues, h));
    assert forall x :: x in r.queues[h] ==> x in s.queues[h];
  }

  lemma PushedAllOne(q: seq<int>, cap: nat, args: seq<int>)
    requires 1 <= cap && |q| + |args| <= cap
    ensures PushedAll(q, cap, args) == q + args
    decreases |args|
  {
    if args != [] {
      PushedAllOne(PushedRing(q, cap, args[0]), cap, args[1..]);
      assert q + [args[0]] + args[1..] == q + args;
    } else {
      assert q + args == q;
    }
  }

  /** A repeating timer that is its handler's only one stays so, and its deadlines do not drift. */
  lemma {:induction false} ForFireRepeating(live: seq<Future>, next: nat, now: nat, h: Handle, f: Future) returns (f': Future)
    requires For(live, h) == [f] && f.repeat > 0
    ensures var b := Fire(live, next, now);
            && For(b.live, h) == [f'] && f'.repeat == f.repeat
            && f'.count == f.count + f.repeat * |For(b.notes, h)|
    decreases TotalOverdue(live, now)
  {
    f' := f;
    if HeadDue(live, now) {
      OverdueShrinks(live, next, now);
      var head, rest := live[0], live[1..];
      assert live == [head] + rest;
      ForCons(head, rest, h);
      ForInsert(rest, Rearmed(head, next), h);
      var after, next' := AfterHead(live, next), NextAfterHead(live, next);
      ForCons(head, Fire(after, next', now).notes, h);
      if head.reactor == h {
        assert ([head] + For(rest, h))[0] == [f][0];
        assert ([head] + For(rest, h))[1..] == [f][1..];
        f' := ForFireRepeating(after, next', now, h, Rearmed(f, next));
        assert f.repeat * (1 + |For(Fire(after, next', now).notes, h)|)
            == f.repeat + f.repeat * |For(Fire(after, next', now).notes, h)|;
      } else {
        f' := ForFireRepeating(after, next', now, h, f);
      }
    }
  }

  /** Only its first notification carries the argument it was armed with. */
  lemma {:induction false} RepeatsForget(live: seq<Future>, next: nat, now: nat, h: Handle, f: Future)
    requires For(live, h) == [f] && f.repeat > 0
    ensures var notes := For(Fire(live, next, now).notes, h);
            (notes != [] ==> notes[0] == f) && forall i :: 1 <= i < |notes| ==> notes[i].arg == 0
    decreases TotalOverdue(live, now)
  {
    hide For, Insert, AfterHead, NextAfterHead, TotalOverdue, Rearmed;
    if HeadDue(live, now) {
      OverdueShrinks(live, next, now);
      var after, next' := AfterHead(live, next), NextAfterHead(live, next);
      ForAfterHead(live, next, h);
      ForCons(live[0], Fire(after, next', now).notes, h);
      RearmedIs(f, next);
      if live[0].reactor == h {
        assert live[0] == For(live, h)[0] == f;
        RepeatsForget(after, next', now, h, Rearmed(f, next));
      } else {
        RepeatsForget(after, next', now, h, f);
      }
    } else {
      NoNotes(h);
    }
  }

  lemma NoNotes(h: Handle)
    ensures For([], h) == []
  {
  }

  /** What a round of dispatch does to the timers of one handler. */
  lemma ForAfterHead(live: seq<Future>, next: nat, h: Handle)
    requires live != []
    ensures live[0].reactor != h ==> For(AfterHead(live, next), h) == For(live, h)
    ensures live[0].reactor == h && |For(live, h)| == 1 ==>
              && For(live, h) == [live[0]]
              && (live[0].repeat > 0 ==> For(AfterHead(live, next), h) == [Rearmed(live[0], next)])
  {
    var head, rest := live[0], live[1..];
    assert live == [head] + rest;
    ForCons(head, rest, h);
    ForInsert(rest, Rearmed(head, next), h);
    if head.reactor == h && |For(live, h)| == 1 {
      assert |For(rest, h)| == 0;
    }
  }

  /** A handler with no timer due is neither notified nor left with other timers. */
  lemma {:induction false} ForFireNotDue(live: seq<Future>, next: nat, now: nat, h: Handle)
    requires forall f :: f in For(live, h) ==> now < f.count
    ensures var b := Fire(live, next, now); For(b.live, h) == For(live, h) && For(b.notes, h) == []
    decreases TotalOverdue(live, now)
  {
    if HeadDue(live, now) {
      OverdueShrinks(live, next, now);
      if live[0].reactor == h {
        ForMembers(live, h);
        assert false;
      }
      var after, next' := AfterHead(live, next), NextAfterHead(live, next);
      ForAfterHead(live, next, h);
      ForCons(live[0], Fire(after, next', now).notes, h);
      ForFireNotDue(after, next', now, h);
    }
  }

  /** A handler's only repeating timer, due for less than a period, is notified once. */
  lemma {:induction false} ForFireOnce(live: seq<Future>, next: nat, now: nat, h: Handle, f: Future) returns (f': Future)
    requires Sound(live, next) && For(live, h) == [f] && f.repeat > 0
    requires f.count <= now < f.count + f.repeat
    ensures var b := Fire(live, next, now);
            && For(b.live, h) == [f'] && f'.count == f.count + f.repeat && f'.repeat == f.repeat && For(b.notes, h) == [f]
    decreases TotalOverdue(live, now)
  {
    hide Sound, For, Insert, AfterHead, NextAfterHead, TotalOverdue, Rearmed;
    HeadIsDue(live, next, now, h, f);
    OverdueShrinks(live, next, now);
    var after, next' := AfterHead(live, next), NextAfterHead(live, next);
    ForAfterHead(live, next, h);
    ForCons(live[0], Fire(after, next', now).notes, h);
    RearmedIs(f, next);
    assert live[0].reactor == h ==> live[0] == For(live, h)[0] == f;
    if live[0].reactor == h {
      f' := Rearmed(f, next);
      ForFireNotDue(after, next', now, h);
    } else {
      SoundAfterHead(live, next);
      f' := ForFireOnce(after, next', now, h, f);
    }
  }

  lemma RearmedIs(f: Future, next: nat)
    ensures Rearmed(f, next).count == f.count + f.repeat && Rearmed(f, next).repeat == f.repeat && Rearmed(f, next).arg == 0
  {
  }

  lemma HeadIsDue(live: seq<Future>, next: nat, now: nat, h: Handle, f: Future)
    requires Sound(live, next) && For(live, h) == [f] && f.count <= now
    ensures HeadDue(live, now)
  {
    ForMembers(live, h);
    assert f in For(live, h);
    var k :| 0 <= k < |live| && live[k] == f;
  }

  lemma SoundAfterHead(live: seq<Future>, next: nat)
    requires Sound(live, next) && live != []
    ensures Sound(AfterHead(live, next), NextAfterHead(live, next))
  {
    if live[0].repeat > 0 {
      InsertSound(live[1..], next, Rearmed(live[0], next));
    }
  }

  /** The same for the queues, for handlers that are neither notified nor armed here. */
  lemma DispatchNotDue(s: Sys, u: Rules, h: Handle)
    requires Base(s, u) && h < |u.caps| && forall f :: f in For(s.timers.live, h) ==> s.timers.now < f.count
    ensures var r := DispatchTimers(s, u);
            For(r.timers.live, h) == For(s.timers.live, h) && r.queues[h] == s.queues[h]
  {
    DispatchEffect(s, u, h);
    ForFireNotDue(s.timers.live, s.timers.next, s.timers.now, h);
  }

  lemma {:induction false} ForNone(live: seq<Future>, h: Handle)
    requires forall f :: f in live ==> f.reactor != h
    ensures For(live, h) == []
  {
    if live != [] {
      assert live[0] in live;
      ForNone(live[1..], h);
    }
  }

  /** Only the application's and the drivers' handlers have timers. */
  lemma NoTimersFor(s: Sys, u: Rules, h: Handle)
    requires Base(s, u) && h !in u.own && h !in u.foreign
    ensures For(s.timers.live, h) == []
  {
    ForNone(s.timers.live, h);
  }

  /** The same as ForFireOnce, with the queue. */
  lemma DispatchRepeating(s: Sys, u: Rules, h: Handle, f: Future) returns (f': Future)
    requires Base(s, u) && h < |u.caps| && For(s.timers.live, h) == [f] && f.repeat > 0
    requires f.count <= s.timers.now < f.count + f.repeat
    ensures var r := DispatchTimers(s, u);
            && For(r.timers.live, h) == [f'] && f'.count == f.count + f.repeat && f'.repeat == f.repeat
            && r.queues[h] != []
  {
    hide Fire, ToldEach, Sound;
    DispatchEffect(s, u, h);
    f' := ForFireOnce(s.timers.live, s.timers.next, s.timers.now, h, f);
  }

  // ---------------------------------------------------------------------------------------------
  // Variables that hold a timer instance

  /** A variable's instance was given out, and if it is live it is a timer of handler h. */
  ghost predicate Belongs(t: Timers, i: Instance, h: Handle) {
    i.Armed? ==> i.id < t.next && forall f :: f in t.live && f.instance == i.id ==> f.reactor == h
  }

  lemma BelongsLater(t: Timers, r: Timers, i: Instance, h: Handle)
    requires Belongs(t, i, h) && Later(t, r)
    ensures Belongs(r, i, h)
  {
  }

  /** No live timer has the instance the next arm gets. */
  lemma InstanceIsItsOwn(t: Timers, e: Future)
    requires Sound(t.live, t.next) && e.instance == t.next
    ensures forall f :: f in Insert(t.live, e) && f.instance == e.instance ==> f == e
  {
    MembersAfterInsert(t.live, e);
  }

  /** A timer is cancelled through the variable that holds its instance. */
  lemma CancelVariable(s: Sys, u: Rules, i: Instance, h: Handle)
    requires Base(s, u) && h in u.own && Belongs(s.timers, i, h)
    ensures var t := CancelInstance(s.timers, i);
            && Base(s.(timers := t), u) && Later(s.timers, t) && t.next == s.timers.next
            && (forall g :: g != h ==> For(t.live, g) == For(s.timers.live, g))
            && (forall f :: f in For(t.live, h) <==> f in For(s.timers.live, h) && i != Armed(f.instance))
            && (|For(s.timers.live, h)| == 1 && i == Armed(For(s.timers.live, h)[0].instance) ==> For(t.live, h) == [])
            && (For(s.timers.live, h) == [] ==> For(t.live, h) == [])
  {
    if i.Armed? {
      OwnCancel(s.timers, s, u, h, i.id);
    }
  }

  /** A handler's single timer is cancelled through its variable and armed again. */
  lemma Restarted(s: Sys, u: Rules, i: Instance, h: Handle, count: nat)
    requires Base(s, u) && h in u.own && Belongs(s.timers, i, h)
    requires var mine := For(s.timers.live, h); mine == [] || (|mine| == 1 && i == Armed(mine[0].instance))
    ensures var t := CancelInstance(s.timers, i); var r := Arm(t, h, count, 0, 0);
            && t.now == s.timers.now && t.next == s.timers.next
            && Base(s.(timers := r), u) && Later(s.timers, r)
            && For(r.live, h) == [Future(h, t.next, count, 0, 0)] && Belongs(r, Armed(t.next), h)
            && forall g :: g != h ==> For(r.live, g) == For(s.timers.live, g)
  {
    CancelVariable(s, u, i, h);
    var t := CancelInstance(s.timers, i);
    OwnArm(t, s.(timers := t), u, h, count, 0, 0);
    InstanceIsItsOwn(t, Future(h, t.next, count, 0, 0));
  }
}
