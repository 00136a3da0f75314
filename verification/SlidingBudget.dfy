/** A budget over every window: any `cap` + 1 entries in a row span at least the window. */
module SlidingBudget {
  type Time = int

  ghost predicate Ordered(times: seq<Time>) {
    forall i, j :: 0 <= i < j < |times| ==> times[i] <= times[j]
  }

  ghost predicate Spaced(times: seq<Time>, cap: nat, window: int) {
    forall i :: 0 <= i && i + cap < |times| ==> times[i + cap] - times[i] >= window
  }

  /** The entries at or after `from` and before `from` + `window`. */
  function CountIn(times: seq<Time>, from: Time, window: int): nat {
    if times == [] then 0
    else
      var last := times[|times| - 1];
      CountIn(times[..|times| - 1], from, window) + if from <= last < from + window then 1 else 0
  }

  /** In an ordered list the last n entries counted in a window are n entries in a row. */
  lemma {:induction false} CountedAreLate(times: seq<Time>, from: Time, window: int, n: nat)
    requires Ordered(times) && times != [] && times[|times| - 1] < from + window
    requires 0 < n <= CountIn(times, from, window)
    ensures n <= |times| && times[|times| - n] >= from
  {
    var before, last := times[..|times| - 1], times[|times| - 1];
    CountIsBounded(before, from, window);
    if last >= from && n > 1 {
      CountedAreLate(before, from, window, n - 1);
    }
    if last < from {
      NothingEarlier(before, from, window, last);
    }
  }

  lemma {:induction false} CountIsBounded(times: seq<Time>, from: Time, window: int)
    ensures CountIn(times, from, window) <= |times|
  {
    if times != [] {
      CountIsBounded(times[..|times| - 1], from, window);
    }
  }

  lemma {:induction false} NothingEarlier(times: seq<Time>, from: Time, window: int, last: Time)
    requires last < from && forall i :: 0 <= i < |times| ==> times[i] <= last
    ensures CountIn(times, from, window) == 0
  {
    if times != [] {
      NothingEarlier(times[..|times| - 1], from, window, last);
    }
  }

  /** A spaced list has at most `cap` entries in any window. */
  lemma {:induction false} SpacedMeansCapped(times: seq<Time>, cap: nat, window: int, from: Time)
    requires Ordered(times) && Spaced(times, cap, window)
    ensures CountIn(times, from, window) <= cap
  {
    if times != [] {
      var before, last := times[..|times| - 1], times[|times| - 1];
      SpacedMeansCapped(before, cap, window, from);
      if from <= last < from + window && CountIn(times, from, window) > cap {
        CountedAreLate(times, from, window, cap + 1);
      }
    }
  }

  /** One entry more keeps the budget when all but fewer than `cap` of the others are a window old. */
  lemma AppendKeepsSpaced(times: seq<Time>, cap: nat, window: int, kept: nat, now: Time)
    requires Ordered(times) && Spaced(times, cap, window) && kept <= |times| && kept < cap
    requires forall i :: 0 <= i < |times| ==> times[i] <= now
    requires forall i :: 0 <= i < |times| - kept ==> now - times[i] >= window
    ensures Ordered(times + [now]) && Spaced(times + [now], cap, window)
  {}

  /** Taking one entry out only moves the others further apart. */
  lemma RemoveKeepsSpaced(times: seq<Time>, cap: nat, window: int, k: nat)
    requires Ordered(times) && Spaced(times, cap, window) && k < |times|
    ensures var rest := times[..k] + times[k + 1..]; Ordered(rest) && Spaced(rest, cap, window)
  {
    var rest := times[..k] + times[k + 1..];
    forall i | 0 <= i && i + cap < |rest|
      ensures rest[i + cap] - rest[i] >= window
    {
      if i < k <= i + cap {
        assert rest[i + cap] == times[i + cap + 1] && rest[i] == times[i];
        assert times[i + cap + 1] >= times[i + cap];
      }
    }
  }

  /** The entries younger than the window, in order. */
  function Recent(times: seq<Time>, now: Time, window: int): seq<Time> {
    if times == [] then []
    else if now - times[0] < window then [times[0]] + Recent(times[1..], now, window)
    else Recent(times[1..], now, window)
  }

  lemma {:induction false} AllRecent(times: seq<Time>, now: Time, window: int)
    requires forall i :: 0 <= i < |times| ==> now - times[i] < window
    ensures Recent(times, now, window) == times
    decreases |times|
  {
    if times != [] {
      AllRecent(times[1..], now, window);
      assert times == [times[0]] + times[1..];
    }
  }

  lemma {:induction false} RecentAreYoung(times: seq<Time>, now: Time, window: int)
    ensures forall i :: 0 <= i < |Recent(times, now, window)| ==> now - Recent(times, now, window)[i] < window
    decreases |times|
  {
    if times != [] {
      RecentAreYoung(times[1..], now, window);
    }
  }

  /** Of an ordered list the recent entries are the tail. */
  lemma {:induction false} RecentIsTail(times: seq<Time>, now: Time, window: int)
    requires Ordered(times)
    ensures var kept := |Recent(times, now, window)|;
            && kept <= |times| && Recent(times, now, window) == times[|times| - kept..]
            && (forall i :: 0 <= i < |times| - kept ==> now - times[i] >= window)
    decreases |times|
  {
    if times != [] {
      if now - times[0] < window {
        AllRecent(times, now, window);
      } else {
        var rest := times[1..];
        RecentIsTail(rest, now, window);
        var kept := |Recent(rest, now, window)|;
        assert rest[|rest| - kept..] == times[|times| - kept..];
        forall i | 0 <= i < |times| - kept
          ensures now - times[i] >= window
        {
          assert i > 0 ==> rest[i - 1] == times[i];
        }
      }
    }
  }
}
