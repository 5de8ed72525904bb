/** The one-second sliding windows behind the receive and delivery rates. */
module RateWindow {

  const WINDOW := 1.0

  /** Pops old receipts off the front only. */
  function Prune(times: seq<real>, now: real): seq<real> {
    if times != [] && now - times[0] > WINDOW then Prune(times[1..], now) else times
  }

  method PruneRateWindow(times: seq<real>, now: real) returns (kept: seq<real>)
    ensures kept == Prune(times, now)
  {
    kept := times;
    while kept != [] && now - kept[0] > WINDOW
      invariant Prune(kept, now) == Prune(times, now)
      decreases |kept|
    {
      kept := kept[1..];
    }
  }

  /** The plain filter: every receipt of the log that is at most a second old, wherever it stands. */
  function Recent(log: seq<real>, now: real): seq<real> {
    if log == [] then [] else
      var rest := Recent(log[1..], now);
      if now - log[0] <= 1.0 then [log[0]] + rest else rest
  }

  ghost predicate Sorted(log: seq<real>) {
    forall i, j | 0 <= i < j < |log| :: log[i] <= log[j]
  }

  ghost predicate UpTo(log: seq<real>, clock: real) {
    forall i | 0 <= i < |log| :: log[i] <= clock
  }

  /** The window is what is left of the log, and what is gone was already more than a second old. */
  ghost predicate Faithful(times: seq<real>, log: seq<real>, clock: real) {
    Sorted(log) && UpTo(log, clock) && DroppedOld(log, times, clock)
  }

  /** Only a front part of before is missing from after, all of it more than a second old. */
  ghost predicate DroppedOld(before: seq<real>, after: seq<real>, clock: real) {
    |after| <= |before| &&
    after == before[|before| - |after|..] &&
    forall i | 0 <= i < |before| - |after| :: clock - before[i] > 1.0
  }

  lemma {:induction false} PruneDropsOld(times: seq<real>, now: real, clock: real)
    requires now <= clock
    ensures DroppedOld(times, Prune(times, now), clock)
  {
    if times != [] && now - times[0] > 1.0 {
      PruneDropsOld(times[1..], now, clock);
    }
  }

  lemma DroppedOldComposes(a: seq<real>, b: seq<real>, c: seq<real>, earlier: real, clock: real)
    requires earlier <= clock && DroppedOld(a, b, earlier) && DroppedOld(b, c, clock)
    ensures DroppedOld(a, c, clock)
  {
    forall i | 0 <= i < |a| - |c| ensures clock - a[i] > 1.0 {
      if i >= |a| - |b| {
        assert a[i] == b[i - (|a| - |b|)];
      }
    }
  }

  lemma DroppingIsFaithful(before: seq<real>, after: seq<real>, log: seq<real>, clock: real)
    requires Faithful(before, log, clock) && DroppedOld(before, after, clock)
    ensures Faithful(after, log, clock)
  {
    DroppedOldComposes(log, before, after, clock, clock);
  }

  lemma FaithfulLater(times: seq<real>, log: seq<real>, clock: real, later: real)
    requires Faithful(times, log, clock) && clock <= later
    ensures Faithful(times, log, later)
  {
  }

  lemma PruneIsFaithful(times: seq<real>, log: seq<real>, now: real, clock: real)
    requires Faithful(times, log, clock) && now <= clock
    ensures Faithful(Prune(times, now), log, clock)
  {
    PruneDropsOld(times, now, clock);
    DroppedOldComposes(log, times, Prune(times, now), clock, clock);
  }

  lemma PushIsFaithful(times: seq<real>, log: seq<real>, t: real, clock: real)
    requires Faithful(times, log, clock) && t <= clock
    requires log == [] || log[|log| - 1] <= t
    ensures Faithful(times + [t], log + [t], clock)
  {
    hide Sorted, DroppedOld, UpTo;
    PushIsSorted(log, t);
    PushIsUpTo(log, t, clock);
    PushDropsNothing(times, log, t, clock);
  }

  lemma PushIsSorted(log: seq<real>, t: real)
    requires Sorted(log) && (log == [] || log[|log| - 1] <= t)
    ensures Sorted(log + [t])
  {
    var all := log + [t];
    forall i, j | 0 <= i < j < |all| ensures all[i] <= all[j] {
      if j == |log| {
        assert all[i] == log[i] && (i == |log| - 1 || log[i] <= log[|log| - 1]);
      } else {
        assert all[i] == log[i] && all[j] == log[j];
      }
    }
  }

  lemma PushIsUpTo(log: seq<real>, t: real, clock: real)
    requires UpTo(log, clock) && t <= clock
    ensures UpTo(log + [t], clock)
  {
  }

  lemma PushDropsNothing(times: seq<real>, log: seq<real>, t: real, clock: real)
    requires DroppedOld(log, times, clock)
    ensures DroppedOld(log + [t], times + [t], clock)
  {
    var dropped := |log| - |times|;
    assert (log + [t])[dropped..] == log[dropped..] + [t];
    forall i | 0 <= i < dropped ensures clock - (log + [t])[i] > 1.0 {
      assert (log + [t])[i] == log[i];
    }
  }

  lemma {:induction false} RecentOfOld(log: seq<real>, now: real)
    requires forall i | 0 <= i < |log| :: now - log[i] > 1.0
    ensures Recent(log, now) == []
  {
    if log != [] {
      RecentOfOld(log[1..], now);
    }
  }

  lemma {:induction false} RecentSplits(a: seq<real>, b: seq<real>, now: real)
    ensures Recent(a + b, now) == Recent(a, now) + Recent(b, now)
  {
    if a == [] {
      assert a + b == b;
    } else {
      assert (a + b)[1..] == a[1..] + b;
      RecentSplits(a[1..], b, now);
    }
  }

  lemma {:induction false} PruneIsRecent(times: seq<real>, now: real)
    requires Sorted(times)
    ensures Prune(times, now) == Recent(times, now)
  {
    if times != [] {
      PruneIsRecent(times[1..], now);
      if now - times[0] <= 1.0 {
        RecentOfFresh(times, now);
      }
    }
  }

  lemma {:induction false} RecentOfFresh(times: seq<real>, now: real)
    requires forall i | 0 <= i < |times| :: now - times[i] <= 1.0
    ensures Recent(times, now) == times
  {
    if times != [] {
      RecentOfFresh(times[1..], now);
    }
  }

  /** Sliding window equals filter: pruning only the front, at any earlier times, loses nothing that counts. */
  lemma WindowEqualsFilter(times: seq<real>, log: seq<real>, now: real)
    requires Faithful(times, log, now)
    ensures Prune(times, now) == Recent(log, now)
  {
    var dropped := log[..|log| - |times|];
    assert log == dropped + times;
    RecentOfOld(dropped, now);
    RecentSplits(dropped, times, now);
    PruneIsRecent(times, now);
  }

  /** Two windows that differ only in dropped old receipts show the same rate from then on. */
  lemma DroppedOldSameRate(before: seq<real>, after: seq<real>, clock: real, now: real)
    requires DroppedOld(before, after, clock) && clock <= now
    ensures Recent(before, now) == Recent(after, now)
  {
    var dropped := before[..|before| - |after|];
    assert before == dropped + after;
    RecentOfOld(dropped, now);
    RecentSplits(dropped, after, now);
  }
}

/** Deliveries held apart by a rate limit. */
module RateLimit {

  ghost predicate Spaced(times: seq<real>, gap: real) {
    forall i, j | 0 <= i < j < |times| :: times[j] - times[i] >= gap
  }

  /** The deliveries that fall into a closed time window. */
  function Between(times: seq<real>, low: real, high: real): seq<real> {
    if times == [] then [] else
      var rest := Between(times[1..], low, high);
      if low <= times[0] <= high then [times[0]] + rest else rest
  }

  lemma {:induction false} BetweenIsInside(times: seq<real>, low: real, high: real)
    ensures forall t | t in Between(times, low, high) :: low <= t <= high && t in times
  {
    if times != [] {
      BetweenIsInside(times[1..], low, high);
      assert forall t | t in times[1..] :: t in times;
    }
  }

  lemma SpacedTail(times: seq<real>, gap: real)
    requires Spaced(times, gap) && times != []
    ensures Spaced(times[1..], gap)
    ensures forall t | t in times[1..] :: t - times[0] >= gap
  {
  }

  lemma SpacedCons(first: real, rest: seq<real>, gap: real)
    requires Spaced(rest, gap) && forall t | t in rest :: t - first >= gap
    ensures Spaced([first] + rest, gap)
  {
    forall j | 0 <= j < |rest| ensures rest[j] - first >= gap {
      assert rest[j] in rest;
    }
  }

  lemma {:induction false} BetweenIsSpaced(times: seq<real>, low: real, high: real, gap: real)
    requires Spaced(times, gap)
    ensures Spaced(Between(times, low, high), gap)
  {
    if times != [] {
      hide Spaced;
      SpacedTail(times, gap);
      BetweenIsSpaced(times[1..], low, high, gap);
      BetweenIsInside(times[1..], low, high);
      SpacedCons(times[0], Between(times[1..], low, high), gap);
    } else {
      assert Between(times, low, high) == times;
    }
  }

  lemma {:induction false} SpacedSpan(times: seq<real>, gap: real)
    requires Spaced(times, gap) && times != []
    ensures times[|times| - 1] - times[0] >= (|times| - 1) as real * gap
  {
    if |times| > 1 {
      var init := times[..|times| - 1];
      SpacedSpan(init, gap);
      assert times[|times| - 1] - init[|init| - 1] >= gap;
      assert (|times| - 1) as real * gap == (|init| - 1) as real * gap + gap;
    }
  }

  lemma SpanHolds(times: seq<real>, gap: real, low: real, span: real)
    requires Spaced(times, gap)
    ensures Between(times, low, low + span) == [] ||
            (|Between(times, low, low + span)| - 1) as real * gap <= span
  {
    hide Between, Spaced;
    var inside := Between(times, low, low + span);
    BetweenIsSpaced(times, low, low + span, gap);
    BetweenIsInside(times, low, low + span);
    if inside != [] {
      SpacedSpan(inside, gap);
      assert inside[0] in inside && inside[|inside| - 1] in inside;
    }
  }

  lemma GapsFit(n: int, gap: real, limit: real, span: real)
    requires limit > 0.0 && gap * limit == 1.0 && n as real * gap <= span
    ensures n <= (span * limit).Floor
  {
    assert n as real * gap * limit <= span * limit;
    assert n as real * gap * limit == n as real * (gap * limit);
  }

  /** Rate limit: any window of length span holds at most floor(span * limit) + 1 deliveries. */
  lemma WindowHoldsAtMost(times: seq<real>, limit: real, low: real, span: real)
    requires limit > 0.0 && span >= 0.0 && Spaced(times, 1.0 / limit)
    ensures |Between(times, low, low + span)| <= (span * limit).Floor + 1
  {
    SpanHolds(times, 1.0 / limit, low, span);
    var n := |Between(times, low, low + span)| - 1;
    if n < 0 {
      GapsFit(0, 1.0 / limit, limit, span);
    } else {
      GapsFit(n, 1.0 / limit, limit, span);
    }
  }
}
