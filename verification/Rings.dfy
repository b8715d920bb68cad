/** Index arithmetic of circular arrays, shared by the ring queues and the timer slots. */
module Rings {

  /** The slot reached from 0 after i steps to the right in a ring of n slots, for i < 2n. */
  function Wrap(i: nat, n: nat): (r: nat)
    requires 0 < n && i < 2 * n
    ensures r < n
  {
    if i < n then i else i - n
  }

  /** The len items found from start onwards, wrapping at the end of s. */
  function Ring<T>(s: seq<T>, start: nat, len: nat): (r: seq<T>)
    requires start < |s| && len <= |s|
    ensures |r| == len
    ensures forall j :: 0 <= j < len ==> r[j] == s[Wrap(start + j, |s|)]
  {
    seq(len, j requires 0 <= j < len => s[Wrap(start + j, |s|)])
  }

  lemma WrapDistinct(start: nat, i: nat, j: nat, n: nat)
    requires start < n && i < n && j < n && i != j
    ensures Wrap(start + i, n) != Wrap(start + j, n)
  {
  }

  lemma SmallMod(x: nat, n: nat)
    requires x < 2 * n
    ensures x % n == Wrap(x, n)
  {
    if n <= x {
      var q := x / n;
      assert x == q * n + x % n;
      assert q >= 2 ==> q * n >= 2 * n;
    }
  }

  /** The C expressions (i + 1) % n and (i - 1 + n) % n step one slot right and left. */
  lemma ModSteps(i: nat, n: nat)
    requires i < n
    ensures (i + 1) % n == Wrap(i + 1, n)
    ensures (i - 1 + n) % n == Wrap(i - 1 + n, n)
  {
    SmallMod(i + 1, n);
    SmallMod(i - 1 + n, n);
  }

  /** Writing the first free slot appends; the other items stay. */
  lemma RingAppend<T>(s: seq<T>, start: nat, len: nat, d: T)
    requires start < |s| && len < |s|
    ensures Ring(s[Wrap(start + len, |s|) := d], start, len + 1) == Ring(s, start, len) + [d]
  {
    var t := s[Wrap(start + len, |s|) := d];
    forall j | 0 <= j < len
      ensures Ring(t, start, len + 1)[j] == Ring(s, start, len)[j]
    {
      WrapDistinct(start, j, len, |s|);
    }
  }

  /** Writing the slot left of the first one prepends. */
  lemma RingPrepend<T>(s: seq<T>, start: nat, len: nat, d: T)
    requires start < |s| && len < |s|
    ensures var first := Wrap(start - 1 + |s|, |s|);
            Ring(s[first := d], first, len + 1) == [d] + Ring(s, start, len)
  {
    var first := Wrap(start - 1 + |s|, |s|);
    var t := s[first := d];
    forall j | 0 <= j < len
      ensures Ring(t, first, len + 1)[1..][j] == Ring(s, start, len)[j]
    {
      WrapDistinct(first, 0, j + 1, |s|);
      assert Wrap(first + (j + 1), |s|) == Wrap(start + j, |s|);
    }
  }

  /** Stepping start to the right drops the first item. */
  lemma RingDropFirst<T>(s: seq<T>, start: nat, len: nat)
    requires start < |s| && 0 < len <= |s|
    ensures Ring(s, Wrap(start + 1, |s|), len - 1) == Ring(s, start, len)[1..]
    ensures Ring(s, start, len)[0] == s[start]
  {
    var second := Wrap(start + 1, |s|);
    forall j | 0 <= j < len - 1
      ensures Ring(s, second, len - 1)[j] == Ring(s, start, len)[1..][j]
    {
      assert Wrap(second + j, |s|) == Wrap(start + (j + 1), |s|);
    }
  }

  lemma RingDropLast<T>(s: seq<T>, start: nat, len: nat)
    requires start < |s| && 0 < len <= |s|
    ensures Ring(s, start, len) == Ring(s, start, len - 1) + [s[Wrap(start + len - 1, |s|)]]
  {
  }

  /** Writing the slot j steps from start replaces item j of the whole ring. */
  lemma RingUpdate<T>(s: seq<T>, start: nat, j: nat, v: T)
    requires start < |s| && j < |s|
    ensures Ring(s[Wrap(start + j, |s|) := v], start, |s|) == Ring(s, start, |s|)[j := v]
  {
    var t := s[Wrap(start + j, |s|) := v];
    forall k | 0 <= k < |s|
      ensures Ring(t, start, |s|)[k] == Ring(s, start, |s|)[j := v][k]
    {
      if k != j {
        WrapDistinct(start, j, k, |s|);
      }
    }
  }

  /** Moving start one slot right rotates the ring. */
  lemma RingRotate<T>(s: seq<T>, start: nat)
    requires start < |s|
    ensures Ring(s, Wrap(start + 1, |s|), |s|) == Ring(s, start, |s|)[1..] + [s[start]]
  {
    var second, n := Wrap(start + 1, |s|), |s|;
    forall k | 0 <= k < n
      ensures Ring(s, second, n)[k] == (Ring(s, start, n)[1..] + [s[start]])[k]
    {
      assert Wrap(second + k, n) == if k < n - 1 then Wrap(start + (k + 1), n) else start;
    }
  }
}
