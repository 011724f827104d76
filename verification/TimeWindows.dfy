/**
 Counting log entries in sliding time windows.

 The circuit breaker, the misdispatch guard and the login limiter all decide by
 counting the rows of a log that are recent at the moment of the decision. Their
 logs are written in clock order, so a count taken "now" over the recent rows
 bounds the count in every window of that width, wherever it is placed.
 */
module TimeWindows {

  ghost predicate Sorted(times: seq<int>) {
    forall i, j :: 0 <= i < j < |times| ==> times[i] <= times[j]
  }

  /** Number of entries at or after the cutoff. */
  function CountSince(times: seq<int>, cutoff: int): (n: nat)
    ensures n <= |times|
  {
    if times == [] then 0
    else CountSince(times[..|times| - 1], cutoff) + (if times[|times| - 1] >= cutoff then 1 else 0)
  }

  /** Number of entries in the closed window from lo to hi. */
  function CountWithin(times: seq<int>, lo: int, hi: int): nat {
    if times == [] then 0
    else CountWithin(times[..|times| - 1], lo, hi) + (if lo <= times[|times| - 1] <= hi then 1 else 0)
  }

  /** Number of entries in the window of the given width that starts at lo. */
  function WindowCount(times: seq<int>, lo: int, width: nat): nat {
    CountWithin(times, lo, lo + width)
  }

  /** The decision count at entry i: what the log holds, looking back one width, once entry i is written. */
  function CountAtEntry(times: seq<int>, i: nat, width: nat): nat
    requires i < |times|
  {
    CountSince(times[..i + 1], times[i] - width)
  }

  /** No entry saw more than k entries when it was written. */
  ghost predicate EveryEntrySawAtMost(times: seq<int>, width: nat, k: nat) {
    forall i :: 0 <= i < |times| ==> CountAtEntry(times, i, width) <= k
  }

  /** Appending an entry leaves what the earlier entries saw, and the new one sees the longer log. */
  lemma {:induction false} AppendedEntry(times: seq<int>, now: int, width: nat)
    ensures var longer := times + [now];
            && (forall i :: 0 <= i < |times| ==> CountAtEntry(longer, i, width) == CountAtEntry(times, i, width))
            && CountAtEntry(longer, |times|, width) == CountSince(longer, now - width)
  {
    var longer := times + [now];
    assert longer[..|times| + 1] == longer;
    forall i | 0 <= i < |times|
      ensures CountAtEntry(longer, i, width) == CountAtEntry(times, i, width)
    {
      assert longer[..i + 1] == times[..i + 1];
    }
  }

  lemma {:induction false} CountSinceAntitone(times: seq<int>, earlier: int, later: int)
    requires earlier <= later
    ensures CountSince(times, later) <= CountSince(times, earlier)
  {
    if times != [] {
      CountSinceAntitone(times[..|times| - 1], earlier, later);
    }
  }

  lemma {:induction false} CountWithinIsCountSince(times: seq<int>, lo: int, hi: int)
    requires forall i :: 0 <= i < |times| ==> times[i] <= hi
    ensures CountWithin(times, lo, hi) == CountSince(times, lo)
  {
    if times != [] {
      CountWithinIsCountSince(times[..|times| - 1], lo, hi);
    }
  }

  lemma {:induction false} CountWithinPrefix(times: seq<int>, n: nat, lo: int, hi: int)
    requires n <= |times|
    ensures CountWithin(times[..n], lo, hi) <= CountWithin(times, lo, hi)
  {
    if n < |times| {
      assert times[..|times| - 1][..n] == times[..n];
      CountWithinPrefix(times[..|times| - 1], n, lo, hi);
    } else {
      assert times[..n] == times;
    }
  }

  /**
   If no entry ever saw more than k entries when it was written, no window of
   that width holds more than k, wherever it starts.
   */
  lemma {:induction false} EntryCountsBoundEveryWindow(times: seq<int>, width: nat, k: nat, lo: int)
    requires Sorted(times)
    requires EveryEntrySawAtMost(times, width, k)
    ensures WindowCount(times, lo, width) <= k
  {
    if times != [] {
      var n := |times| - 1;
      var last := times[n];
      if lo <= last <= lo + width {
        CountWithinIsCountSince(times, lo, lo + width);
        CountSinceAntitone(times, last - width, lo);
        assert times[..n + 1] == times;
        assert CountAtEntry(times, n, width) <= k;
      } else {
        forall i | 0 <= i < n
          ensures CountAtEntry(times[..n], i, width) <= k
        {
          assert times[..n][..i + 1] == times[..i + 1];
          assert CountAtEntry(times, i, width) <= k;
        }
        EntryCountsBoundEveryWindow(times[..n], width, k, lo);
      }
    }
  }

  lemma {:induction false} WiderWindowHoldsMore(times: seq<int>, lo: int, hi: int, further: int)
    requires hi <= further
    ensures CountWithin(times, lo, hi) <= CountWithin(times, lo, further)
  {
    if times != [] {
      WiderWindowHoldsMore(times[..|times| - 1], lo, hi, further);
    }
  }

  /** A window is covered by two that overlap or touch. */
  lemma {:induction false} TwoWindowsCover(times: seq<int>, lo: int, hi: int, lo2: int, hi2: int)
    requires lo <= lo2 <= hi + 1
    ensures CountWithin(times, lo, hi2) <= CountWithin(times, lo, hi) + CountWithin(times, lo2, hi2)
  {
    if times != [] {
      TwoWindowsCover(times[..|times| - 1], lo, hi, lo2, hi2);
    }
  }

  /** The count an entry saw is reached by a window that ends at that entry. */
  lemma {:induction false} EntryCountIsAWindow(times: seq<int>, width: nat, i: nat)
    requires Sorted(times) && i < |times|
    ensures CountAtEntry(times, i, width) <= WindowCount(times, times[i] - width, width)
  {
    CountWithinIsCountSince(times[..i + 1], times[i] - width, times[i]);
    CountWithinPrefix(times, i + 1, times[i] - width, times[i]);
  }

  /** Some entry saw at least k entries exactly when some window of the width holds at least k. */
  lemma {:induction false} ThresholdSeenIffWindowFull(times: seq<int>, width: nat, k: nat)
    requires Sorted(times) && k > 0
    ensures (exists i :: 0 <= i < |times| && CountAtEntry(times, i, width) >= k)
       <==> (exists lo :: WindowCount(times, lo, width) >= k)
  {
    if i :| 0 <= i < |times| && CountAtEntry(times, i, width) >= k {
      EntryCountIsAWindow(times, width, i);
      assert WindowCount(times, times[i] - width, width) >= k;
    } else {
      forall lo
        ensures WindowCount(times, lo, width) < k
      {
        EntryCountsBoundEveryWindow(times, width, k - 1, lo);
      }
    }
  }
}
