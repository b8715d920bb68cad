/** The ring buffer behind every reactor handler (asx/src/queue.c). */
module RingQueues {
  import opened Rings

  /** The reference queue operations, on the sequence of queued items, oldest first. */
  function PushedRing(q: seq<int>, cap: nat, d: int): (r: seq<int>)
    requires 1 <= cap && |q| <= cap
    ensures 1 <= |r| <= cap && r[|r| - 1] == d
  {
    (if |q| < cap then q else q[1..]) + [d]
  }

  /** What the overwriting push does to the slots of a ring. */
  lemma PushedRingSlots(s: seq<int>, head: nat, length: nat, d: int)
    requires head < |s| && length <= |s|
    ensures var q, t := Ring(s, head, length), s[Wrap(head + length, |s|) := d];
            PushedRing(q, |s|, d) ==
            if length < |s| then Ring(t, head, length + 1) else Ring(t, Wrap(head + 1, |s|), length)
  {
    if length < |s| {
      RingAppend(s, head, length, d);
    } else {
      RingDropFirst(s, head, length);
      RingAppend(s, Wrap(head + 1, |s|), length - 1, d);
      assert Wrap(Wrap(head + 1, |s|) + (length - 1), |s|) == Wrap(head + length, |s|);
    }
  }

  class RingQueue {
    const buffer: array<int>
    const nelem: nat
    var head: nat     // first position with useful data
    var tail: nat     // first free position
    var length: nat

    ghost predicate Valid()
      reads this
    {
      && 1 <= nelem <= 128 && buffer.Length == nelem
      && head < nelem && length <= nelem
      && tail == Wrap(head + length, nelem)
    }

    ghost function Contents(): (s: seq<int>)
      requires Valid()
      reads this, buffer
      ensures |s| == length
    {
      Ring(buffer[..], head, length)
    }

    /** queue_init; the positions are int8_t, hence the bound on nelem. */
    constructor (nelem: nat)
      requires 1 <= nelem <= 128
      ensures Valid() && fresh(buffer) && this.nelem == nelem && Contents() == []
    {
      this.nelem := nelem;
      buffer := new int[nelem](_ => -1);
      head, tail, length := 0, 0, 0;
    }

    method IsEmpty() returns (empty: bool)
      requires Valid()
      ensures empty == (Contents() == [])
    {
      empty := length == 0;
    }

    /** queue_push: refuses when full. */
    method Push(d: int) returns (ok: bool)
      requires Valid()
      modifies this`tail, this`length, buffer
      ensures Valid() && ok == (old(|Contents()|) < nelem)
      ensures Contents() == if ok then old(Contents()) + [d] else old(Contents())
    {
      if length >= nelem {
        return false;
      }
      RingAppend(buffer[..], head, length, d);
      ModSteps(tail, nelem);
      buffer[tail] := d;
      tail := (tail + 1) % nelem;
      length := length + 1;
      return true;
    }

    /** queue_pop_front: takes the newest item. */
    method PopFront() returns (ok: bool, d: int)
      requires Valid()
      modifies this`tail, this`length
      ensures Valid() && ok == (old(Contents()) != [])
      ensures ok ==> old(Contents()) == Contents() + [d]
      ensures !ok ==> Contents() == old(Contents())
    {
      d := 0;
      if length <= 0 {
        return false, d;
      }
      RingDropLast(buffer[..], head, length);
      ModSteps(tail, nelem);
      tail := (tail - 1 + nelem) % nelem;
      d := buffer[tail];
      length := length - 1;
      return true, d;
    }

    /** queue_push_back: puts an item before the oldest one, refuses when full. */
    method PushBack(d: int) returns (ok: bool)
      requires Valid()
      modifies this`head, this`length, buffer
      ensures Valid() && ok == (old(|Contents()|) < nelem)
      ensures Contents() == if ok then [d] + old(Contents()) else old(Contents())
    {
      if length >= nelem {
        return false;
      }
      RingPrepend(buffer[..], head, length, d);
      ModSteps(head, nelem);
      head := (head - 1 + nelem) % nelem;
      buffer[head] := d;
      length := length + 1;
      return true;
    }

    /** queue_pop: takes the oldest item. */
    method Pop() returns (ok: bool, d: int)
      requires Valid()
      modifies this`head, this`length
      ensures Valid() && ok == (old(Contents()) != [])
      ensures ok ==> old(Contents()) == [d] + Contents()
      ensures !ok ==> Contents() == old(Contents())
    {
      d := 0;
      if length <= 0 {
        return false, d;
      }
      RingDropFirst(buffer[..], head, length);
      d := buffer[head];
      ModSteps(head, nelem);
      head := (head + 1) % nelem;
      length := length - 1;
      return true, d;
    }

    /** queue_push_ring: when full, the oldest item makes room. */
    method PushRing(d: int)
      requires Valid()
      modifies this, buffer
      ensures Valid()
      ensures Contents() == PushedRing(old(Contents()), nelem, d)
    {
      PushedRingSlots(buffer[..], head, length, d);
      ModSteps(tail, nelem);
      ModSteps(head, nelem);
      buffer[tail] := d;
      tail := (tail + 1) % nelem;
      if length < nelem {
        length := length + 1;
      } else {
        head := (head + 1) % nelem;
      }
    }
  }
}
