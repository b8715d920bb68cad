/** What the end of a movement does to its timeout, and what a timeout that is queued already does to the next movement. */
module DoorTimeouts {
  import opened TimerModel
  import opened ReactorModel
  import opened Runtime
  import opened ControllerModel
  import opened ControllerRuns

  ghost predicate Arrives(d: Door, ev: DoorEvent) {
    Moves(d) && Transition(d, ev).0 && !Moves(Transition(d, ev).1) && ev != Timeout
  }

  /** What is left of the movement timeouts: those queued, and the timers of other movements. */
  lemma ArrivalCancels(w: World, ev: DoorEvent, mid: seq<EnvOp>)
    requires Inv(w) && w.queues[COMMAND] == [] && Arrives(w.ctl.door, ev)
    ensures var r := ProcessDoor(w, ev, mid);
            && r.queues[MOVE_TIMEOUT] == w.queues[MOVE_TIMEOUT]
            && forall f :: f in For(r.ctl.timers.live, MOVE_TIMEOUT) <==>
                           f in For(w.ctl.timers.live, MOVE_TIMEOUT) && w.ctl.movement != Armed(f.instance)
  {
    var w1 := w.(ctl := Enter(w.ctl, ev));
    EnterKeeps(w, ev);
    EnterLeavesMovement(w, ev);
    HappenAllKeeps(SysOf(w1), RULES, mid);
    AroundKeeps(w1, mid, 0);
    var w2 := Around(w1, mid);
    assert MOVE_TIMEOUT in RULES.own;
    CancelVariable(SysOf(w2), RULES, w2.ctl.movement, MOVE_TIMEOUT);
  }

  lemma EnterLeavesMovement(w: World, ev: DoorEvent)
    requires Mid(w, 0) && w.queues[COMMAND] == []
    ensures var c := Enter(w.ctl, ev);
            && c.movement == w.ctl.movement && c.timers.now == w.ctl.timers.now
            && For(c.timers.live, MOVE_TIMEOUT) == For(w.ctl.timers.live, MOVE_TIMEOUT)
  {
    hide Base, Chain, Limited, Counted, Graced, InputChange, For;
    var (known, d) := Transition(w.ctl.door, ev);
    if d == Opening && w.ctl.door == Closed {
      InputChangeKeeps(w, DOOR_UP, true, d);
    } else if d == Closing && w.ctl.door == Opened {
      InputChangeKeeps(w, DOOR_DOWN, true, d);
    } else if w.ctl.door == Opening && d != Opening {
      InputChangeKeeps(w, DOOR_UP, false, d);
    } else if w.ctl.door == Closing && d != Closing {
      InputChangeKeeps(w, DOOR_DOWN, false, d);
    }
  }

  /** A handler call that processes a door event, with nothing else going on. */
  function Processed(w: World, ev: DoorEvent): World
    requires |w.ctl.rows| == |ROWS|
  {
    ProcessDoor(w, ev, [])
  }

  lemma ProcessedIs(w: World, ev: DoorEvent)
    requires |w.ctl.rows| == |ROWS|
    ensures Processed(w, ev) == w.(ctl := Settle(w.ctl.door, ev, Enter(w.ctl, ev)))
  {
    hide Enter, Settle;
  }

  lemma Opens(w: World)
    requires Inv(w) && w.queues[COMMAND] == [] && w.ctl.door == Opening
    ensures var r := Processed(w, IsUp); Inv(r) && r.ctl.door == Opened && r.queues == w.queues
  {
    ProcessDoorKeeps(w, IsUp, []);
    EnterKeeps(w, IsUp);
    ProcessedIs(w, IsUp);
  }

  /** The movement's own timer is live, with all of its time to run. */
  ghost predicate FullTime(c: Ctl, delay: nat) {
    exists f :: f in For(c.timers.live, MOVE_TIMEOUT) && c.movement == Armed(f.instance) && f.count == c.timers.now + delay
  }

  ghost predicate JustStarted(c: Ctl) {
    FullTime(c, MOVING_TIMEOUT)
  }

  lemma Starts(w: World)
    requires Mid(w, 0)
    ensures JustStarted(ArmMovement(w.ctl, MOVING_TIMEOUT))
  {
    hide Chain, Limited, Arbitrated, Counted, Graced, For, Insert, Sound, Fits;
    var t := w.ctl.timers;
    OwnArm(t, SysOf(w), RULES, MOVE_TIMEOUT, t.now + MOVING_TIMEOUT, 0, 0);
    var f := Future(MOVE_TIMEOUT, t.next, t.now + MOVING_TIMEOUT, 0, 0);
    assert f in For(ArmMovement(w.ctl, MOVING_TIMEOUT).timers.live, MOVE_TIMEOUT);
  }

  lemma Closes(w: World)
    requires Inv(w) && w.queues[COMMAND] == [] && w.ctl.door == Opened
    ensures var r := Processed(w, Close);
            Inv(r) && r.ctl.door == Closing && r.queues == w.queues && JustStarted(r.ctl)
  {
    ProcessDoorKeeps(w, Close, []);
    EnterKeeps(w, Close);
    ProcessedIs(w, Close);
    Starts(w.(ctl := Enter(w.ctl, Close)));
    hide Inv, Mid, Enter, Processed, ArmMovement, JustStarted;
  }

  lemma StartedStill(c: Ctl, c': Ctl)
    requires JustStarted(c) && c'.movement == c.movement && c'.timers.now == c.timers.now
    requires For(c'.timers.live, MOVE_TIMEOUT) == For(c.timers.live, MOVE_TIMEOUT)
    ensures JustStarted(c')
  {
  }

  lemma RowsFollow(w: World)
    requires Mid(w, 0)
    ensures |w.ctl.rows| == |ROWS| && (w.ctl.rows[DOOR_DOWN] <==> w.ctl.door == Closing)
  {
  }

  /** The expiry of a closing, in a state from which its notification has been taken. */
  lemma Expires(w: World)
    requires Mid(w, 0) && w.queues[COMMAND] == [] && w.ctl.door == Closing && JustStarted(w.ctl)
    ensures var r := Processed(w, Timeout); r.ctl.door == Unknown && !r.ctl.rows[DOOR_DOWN] && JustStarted(r.ctl)
  {
    assert |w.queues| == |CAPS| && |w.ctl.rows| == |ROWS|;
    ExpiryIs(w);
    hide *;
    EnterKeeps(w, Timeout);
    EnterLeavesMovement(w, Timeout);
    RowsFollow(w.(ctl := Enter(w.ctl, Timeout)));
    StartedStill(w.ctl, Enter(w.ctl, Timeout));
  }

  lemma ExpiryIs(w: World)
    requires |w.ctl.rows| == |ROWS| && w.ctl.door == Closing
    ensures Transition(w.ctl.door, Timeout) == (true, Unknown)
    ensures Processed(w, Timeout) == w.(ctl := Enter(w.ctl, Timeout))
    ensures Unknown != Closing
  {
    ProcessedIs(w, Timeout);
    hide Enter;
  }

  /**
   A timeout queued when an opening ends outlives it: once the next movement has begun, it is that
   movement that it ends, whose own timer still has its full time to run.
   */
  lemma StaleTimeoutEndsNextMovement(w: World)
    requires Inv(w) && w.queues[COMMAND] == [] && w.ctl.door == Opening && w.queues[MOVE_TIMEOUT] != []
    ensures var closing := Processed(Processed(w, IsUp), Close);
            && closing.ctl.door == Closing && closing.queues[MOVE_TIMEOUT] == w.queues[MOVE_TIMEOUT]
            && var ended := Processed(closing.(queues := Popped(closing.queues, MOVE_TIMEOUT)), Timeout);
               ended.ctl.door == Unknown && !ended.ctl.rows[DOOR_DOWN] && JustStarted(ended.ctl)
  {
    Opens(w);
    Closes(Processed(w, IsUp));
    var closing := Processed(Processed(w, IsUp), Close);
    PopKeepsMid(closing, MOVE_TIMEOUT);
    Expires(closing.(queues := Popped(closing.queues, MOVE_TIMEOUT)));
  }
}
