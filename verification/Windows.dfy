/**
 Counters that go up and down but not below zero. Such a counter is the largest sum over a window
 that ends now, so it reaches a threshold exactly when some window's sum does.
 */
module Windows {

  function Sum(log: seq<int>): int {
    if log == [] then 0 else Sum(log[..|log| - 1]) + log[|log| - 1]
  }

  function NotBelowZero(x: int): nat {
    if x < 0 then 0 else x
  }

  /** The counter after the steps of the log. */
  function Level(log: seq<int>): nat {
    if log == [] then 0 else NotBelowZero(Level(log[..|log| - 1]) + log[|log| - 1])
  }

  lemma LevelAppend(log: seq<int>, x: int)
    ensures Level(log + [x]) == NotBelowZero(Level(log) + x)
  {
    assert (log + [x])[..|log|] == log;
  }

  /** The level is the maximum over all windows that end now, the empty one included. */
  lemma {:induction false} LevelIsLargestWindow(log: seq<int>)
    ensures forall i :: 0 <= i <= |log| ==> Sum(log[i..]) <= Level(log)
    ensures exists i :: 0 <= i <= |log| && Sum(log[i..]) == Level(log)
  {
    if log == [] {
      assert Sum(log[0..]) == 0;
    } else {
      var last := |log| - 1;
      var before := log[..last];
      LevelIsLargestWindow(before);
      forall i | 0 <= i <= last
        ensures Sum(log[i..]) == Sum(before[i..]) + log[last]
      {
        assert log[i..][..last - i] == before[i..];
      }
      assert Sum(log[|log|..]) == 0;
      var i :| 0 <= i <= last && Sum(before[i..]) == Level(before);
      assert Sum(log[i..]) == Level(before) + log[last];
    }
  }

  /** Some window of the log adds up to the threshold. */
  ghost predicate Reached(log: seq<int>, threshold: int) {
    exists i, j :: 0 <= i <= j <= |log| && Sum(log[i..j]) >= threshold
  }

  /** Whether the counter ever was at the threshold, seen from the windows. */
  lemma ReachedAppend(log: seq<int>, x: int, threshold: int)
    ensures Reached(log + [x], threshold) <==> Reached(log, threshold) || Level(log + [x]) >= threshold
  {
    var all := log + [x];
    assert all[..|all|] == all;
    LevelIsLargestWindow(all);
    if Reached(all, threshold) {
      var i, j :| 0 <= i <= j <= |all| && Sum(all[i..j]) >= threshold;
      if j <= |log| {
        assert all[i..j] == log[i..j];
      } else {
        assert all[i..j] == all[i..];
      }
    }
    if Reached(log, threshold) {
      var i, j :| 0 <= i <= j <= |log| && Sum(log[i..j]) >= threshold;
      assert all[i..j] == log[i..j];
    }
    if Level(all) >= threshold {
      var i :| 0 <= i <= |all| && Sum(all[i..]) == Level(all);
      assert all[i..|all|] == all[i..];
    }
  }

  lemma NothingReached(threshold: int)
    ensures Reached([], threshold) <==> threshold <= 0
  {
    var none: seq<int> := [];
    assert Sum(none[0..0]) == 0;
  }
}
