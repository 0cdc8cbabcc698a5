/** Throttling of frame analysis: the times at which analyses start, and
    how many of them can fall inside a window of wall-clock time. */
module ScanSchedule {

  /** Minimum time, in milliseconds, between the starts of two analyses. */
  const AnalysisIntervalMs: int := 500

  /** Consecutive start times are at least one interval apart. */
  ghost predicate Spaced(starts: seq<int>)
  {
    forall i :: 0 <= i < |starts| - 1 ==> starts[i] + AnalysisIntervalMs <= starts[i + 1]
  }

  /** Number of start times inside the closed window [lo, hi]. */
  function CountIn(starts: seq<int>, lo: int, hi: int): nat
  {
    if starts == [] then 0
    else (if lo <= starts[0] <= hi then 1 else 0) + CountIn(starts[1..], lo, hi)
  }

  /** Every start after the first is at least one interval after the first. */
  lemma {:induction false} LaterStartsAfterFirst(starts: seq<int>, k: nat)
    requires Spaced(starts)
    requires 0 < k < |starts|
    ensures starts[0] + AnalysisIntervalMs <= starts[k]
  {
    if k > 1 {
      LaterStartsAfterFirst(starts[..k], k - 1);
    }
  }

  /** A window that lies wholly below every start holds none of them. */
  lemma {:induction false} NoneInWindow(starts: seq<int>, lo: int, hi: int)
    requires forall k :: 0 <= k < |starts| ==> hi < starts[k]
    ensures CountIn(starts, lo, hi) == 0
  {
    if starts != [] {
      NoneInWindow(starts[1..], lo, hi);
    }
  }

  /** Raising the lower end of the window up to the smallest start does
      not change the count. */
  lemma {:induction false} RaiseWindowStart(starts: seq<int>, lo: int, lo': int, hi: int)
    requires lo <= lo'
    requires forall k :: 0 <= k < |starts| ==> lo' <= starts[k]
    ensures CountIn(starts, lo, hi) == CountIn(starts, lo', hi)
  {
    if starts != [] {
      RaiseWindowStart(starts[1..], lo, lo', hi);
    }
  }

  /** However frames arrive, a window of wall-clock time [lo, hi] holds at
      most (hi - lo) / 500 + 1 analysis starts. */
  lemma {:induction false} StartsInWindow(starts: seq<int>, lo: int, hi: int)
    requires Spaced(starts)
    requires lo <= hi
    ensures CountIn(starts, lo, hi) <= (hi - lo) / AnalysisIntervalMs + 1
    decreases |starts|
  {
    if starts == [] {
      return;
    }
    var rest := starts[1..];
    assert Spaced(rest) by {
      forall i | 0 <= i < |rest| - 1 ensures rest[i] + AnalysisIntervalMs <= rest[i + 1] {
        assert rest[i] == starts[i + 1] && rest[i + 1] == starts[i + 2];
      }
    }
    forall k | 0 <= k < |rest| ensures starts[0] + AnalysisIntervalMs <= rest[k] {
      LaterStartsAfterFirst(starts, k + 1);
    }
    if starts[0] < lo {
      StartsInWindow(rest, lo, hi);
    } else if hi < starts[0] {
      NoneInWindow(starts, lo, hi);
    } else if hi < starts[0] + AnalysisIntervalMs {
      NoneInWindow(rest, lo, hi);
    } else {
      var lo' := starts[0] + AnalysisIntervalMs;
      RaiseWindowStart(rest, lo, lo', hi);
      StartsInWindow(rest, lo', hi);
      assert (hi - lo') / AnalysisIntervalMs + 1 == (hi - starts[0]) / AnalysisIntervalMs;
      assert (hi - starts[0]) / AnalysisIntervalMs <= (hi - lo) / AnalysisIntervalMs;
    }
  }
}
