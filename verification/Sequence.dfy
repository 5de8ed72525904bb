/** The two sequence trackers: 32-bit counters compared across wrap-around. */
module Sequence {
  import opened Types

  const WRAP := 0x1_0000_0000
  const HALF := 0x8000_0000
  const RESTART_LOW_MAX := 0xffff
  const RESTART_MIN_BASELINE := 0x1_0000

  /** Unsigned 32-bit arithmetic. */
  function Wrap(n: int): U32 {
    n % WRAP
  }

  /** The step in the half-open half range that leads from one counter value to another. */
  function Distance(from: U32, to: U32): (d: int)
    ensures -HALF <= d < HALF
    ensures Wrap(from + d) == to
  {
    if to - from < -HALF then to - from + WRAP
    else if to - from >= HALF then to - from - WRAP
    else to - from
  }

  lemma DistanceIsUnique(from: U32, to: U32, d: int)
    requires -HALF <= d < HALF && Wrap(from + d) == to
    ensures d == Distance(from, to)
  {
    assert (from + d) / WRAP * WRAP + to == from + d;
  }

  /** A value lies ahead when the unsigned step to it is short of half the range, and behind otherwise. */
  lemma AheadOrBehind(from: U32, to: U32)
    ensures Distance(from, to) > 0 <==> from != to && (to - from) % 0x1_0000_0000 < 0x8000_0000
  {
  }

  // ---------------------------------------------------------------- RDT

  datatype RdtKind = RdtFirst | Contiguous | Gap | Duplicate | OutOfOrder

  datatype RdtObservation = RdtObservation(kind: RdtKind, gap: nat)

  datatype RdtState = RdtState(hasLast: bool, previous: U32)

  predicate Accepts(kind: RdtKind) {
    kind == RdtFirst || kind == Contiguous || kind == Gap
  }

  function RdtObserve(s: RdtState, current: U32): RdtObservation {
    var d := Distance(s.previous, current);
    if !s.hasLast then RdtObservation(RdtFirst, 0)
    else if d == 0 then RdtObservation(Duplicate, 0)
    else if d < 0 then RdtObservation(OutOfOrder, 0)
    else if d == 1 then RdtObservation(Contiguous, 0)
    else RdtObservation(Gap, d - 1)
  }

  function RdtNext(s: RdtState, current: U32): RdtState {
    if Accepts(RdtObserve(s, current).kind) then RdtState(true, current) else s
  }

  function RdtReset(s: RdtState): RdtState {
    s.(hasLast := false)
  }

  const RDT_FRESH := RdtState(false, 0)

  class RdtSequenceTracker {
    var hasLast: bool
    var previous: U32

    function State(): RdtState
      reads this
    {
      RdtState(hasLast, previous)
    }

    constructor ()
      ensures !hasLast && previous == 0
    {
      hasLast, previous := false, 0;
    }

    method Observe(current: U32) returns (o: RdtObservation)
      modifies this
      ensures o == RdtObserve(old(State()), current)
      ensures State() == RdtNext(old(State()), current)
    {
      if !hasLast {
        hasLast := true;
        previous := current;
        return RdtObservation(RdtFirst, 0);
      }
      var delta := Wrap(current - previous);
      if delta == 0 {
        return RdtObservation(Duplicate, 0);
      }
      if delta < HALF {
        previous := current;
        return if delta == 1 then RdtObservation(Contiguous, 0) else RdtObservation(Gap, delta - 1);
      }
      return RdtObservation(OutOfOrder, 0);
    }

    method Reset()
      modifies this
      ensures State() == RdtReset(old(State()))
    {
      hasLast := false;
    }
  }

  /** The highest sensor number seen. */
  function High(ns: seq<int>): int
    requires ns != []
  {
    var n := ns[|ns| - 1];
    if |ns| == 1 then n else
      var before := High(ns[..|ns| - 1]);
      if n > before then n else before
  }

  /** Every number lies within half the counter range of the highest one before it. */
  ghost predicate WithinHalfRange(ns: seq<int>) {
    forall i | 1 <= i < |ns| :: -0x8000_0000 <= ns[i] - High(ns[..i]) < 0x8000_0000
  }

  /** What an observer of the unbounded numbers would say about the last one. */
  function UnboundedObservation(ns: seq<int>): RdtObservation
    requires ns != []
  {
    if |ns| == 1 then RdtObservation(RdtFirst, 0) else
      var step := ns[|ns| - 1] - High(ns[..|ns| - 1]);
      if step == 0 then RdtObservation(Duplicate, 0)
      else if step < 0 then RdtObservation(OutOfOrder, 0)
      else if step == 1 then RdtObservation(Contiguous, 0)
      else RdtObservation(Gap, step - 1)
  }

  /** A run of the tracker over the 32-bit images of unbounded numbers. */
  datatype RdtRun = RdtRun(state: RdtState, last: RdtObservation, lost: nat, accepted: seq<int>)

  function Extend(run: RdtRun, n: int): RdtRun {
    var o := RdtObserve(run.state, Wrap(n));
    RdtRun(
      RdtNext(run.state, Wrap(n)), o, run.lost + o.gap,
      if Accepts(o.kind) then run.accepted + [n] else run.accepted)
  }

  function RunOver(start: RdtState, ns: seq<int>): RdtRun
    requires ns != []
  {
    var init := if |ns| == 1 then RdtRun(start, RdtObservation(RdtFirst, 0), 0, []) else RunOver(start, ns[..|ns| - 1]);
    Extend(init, ns[|ns| - 1])
  }

  ghost predicate StrictlyIncreasing(ns: seq<int>) {
    forall i, j | 0 <= i < j < |ns| :: ns[i] < ns[j]
  }

  /** The run stands at the given highest number, with every number since the first accepted or counted lost. */
  ghost predicate StandsAt(run: RdtRun, first: int, high: int) {
    run.state == RdtState(true, Wrap(high)) &&
    run.lost + |run.accepted| == high - first + 1 &&
    StrictlyIncreasing(run.accepted) &&
    run.accepted != [] && run.accepted[|run.accepted| - 1] == high
  }

  lemma WrapAbsorbs(n: int, k: int)
    ensures Wrap(n + k * WRAP) == Wrap(n)
  {
    var q, r := n / WRAP, n % WRAP;
    assert n + k * WRAP == (q + k) * WRAP + r;
    assert (n + k * WRAP) / WRAP == q + k;
  }

  lemma WrapMoves(high: int, step: int)
    requires -HALF <= step < HALF
    ensures Distance(Wrap(high), Wrap(high + step)) == step
  {
    assert high / WRAP * WRAP + Wrap(high) == high;
    WrapAbsorbs(Wrap(high) + step, high / WRAP);
    DistanceIsUnique(Wrap(high), Wrap(high + step), step);
  }

  lemma ExtendStands(run: RdtRun, first: int, high: int, n: int)
    requires StandsAt(run, first, high) && -HALF <= n - high < HALF
    ensures StandsAt(Extend(run, n), first, if n > high then n else high)
  {
    WrapMoves(high, n - high);
  }

  lemma ExtendSees(run: RdtRun, ns: seq<int>)
    requires |ns| > 1
    requires var high := High(ns[..|ns| - 1]);
             run.state == RdtState(true, Wrap(high)) && -HALF <= ns[|ns| - 1] - high < HALF
    ensures Extend(run, ns[|ns| - 1]).last == UnboundedObservation(ns)
  {
    hide Distance, Wrap, High;
    var high := High(ns[..|ns| - 1]);
    WrapMoves(high, ns[|ns| - 1] - high);
  }

  /** RDT refinement: over any run between resets the wrapped tracker agrees with unbounded counting. */
  lemma {:induction false} RdtRefinesUnbounded(start: RdtState, ns: seq<int>)
    requires !start.hasLast && ns != [] && WithinHalfRange(ns)
    ensures StandsAt(RunOver(start, ns), ns[0], High(ns))
    ensures RunOver(start, ns).last == UnboundedObservation(ns)
  {
    if |ns| > 1 {
      hide RdtObserve, RdtNext, UnboundedObservation, StrictlyIncreasing, Wrap;
      var init, n := ns[..|ns| - 1], ns[|ns| - 1];
      WithinHalfRangeOfPrefix(ns, |ns| - 1);
      RdtRefinesUnbounded(start, init);
      ExtendStands(RunOver(start, init), ns[0], High(init), n);
      ExtendSees(RunOver(start, init), ns);
    }
  }

  /** Outside the half range the wrapped comparison is wrong, except about old numbers whose image looks old too. */
  lemma ComparesRightExactly(high: int, n: int)
    ensures RdtObserve(RdtState(true, Wrap(high)), Wrap(n)) == UnboundedObservation([high, n]) <==>
            (if n >= high then n - high < 0x8000_0000 else (n - high) % 0x1_0000_0000 >= 0x8000_0000)
  {
    assert [high, n][..1] == [high];
    var q, r := (n - high) / WRAP, (n - high) % WRAP;
    var step := if r < HALF then r else r - WRAP;
    assert n == high + step + (if r < HALF then q else q + 1) * WRAP;
    WrapAbsorbs(high + step, if r < HALF then q else q + 1);
    WrapMoves(high, step);
  }

  lemma WithinHalfRangeOfPrefix(ns: seq<int>, k: nat)
    requires k <= |ns| && WithinHalfRange(ns)
    ensures WithinHalfRange(ns[..k])
  {
    forall i | 1 <= i < k ensures -HALF <= ns[..k][i] - High(ns[..k][..i]) < HALF {
      assert ns[..k][..i] == ns[..i];
    }
  }

  lemma {:induction false} HighIsHighest(ns: seq<int>, i: nat)
    requires i < |ns|
    ensures ns[i] <= High(ns)
  {
    if |ns| > 1 && i < |ns| - 1 {
      HighIsHighest(ns[..|ns| - 1], i);
    }
  }

  /** The record at this place of the run was let through. */
  predicate AcceptedAt(seen: seq<int>, k: nat) {
    k < |seen| && Accepts(RunOver(RDT_FRESH, seen[..k + 1]).last.kind)
  }

  /** Two runs over numbers with the same 32-bit images classify and count alike. */
  lemma {:induction false} SameImagesSameRun(start: RdtState, ns: seq<int>, ms: seq<int>)
    requires ns != [] && |ns| == |ms| && forall i | 0 <= i < |ns| :: Wrap(ns[i]) == Wrap(ms[i])
    ensures var a, b := RunOver(start, ns), RunOver(start, ms);
            a.state == b.state && a.last == b.last && a.lost == b.lost && |a.accepted| == |b.accepted|
  {
    if |ns| > 1 {
      SameImagesSameRun(start, ns[..|ns| - 1], ms[..|ms| - 1]);
    }
  }

  /** What is let through later was sent later. */
  lemma AcceptedMovesForward(ns: seq<int>, seen: seq<int>, i: nat, j: nat)
    requires |ns| == |seen| && WithinHalfRange(ns) && forall k | 0 <= k < |ns| :: Wrap(ns[k]) == Wrap(seen[k])
    requires i < j && AcceptedAt(seen, j)
    ensures ns[i] < ns[j]
  {
    hide RunOver, StandsAt, High, WithinHalfRange, Wrap;
    var upTo := ns[..j + 1];
    WithinHalfRangeOfPrefix(ns, j + 1);
    RdtRefinesUnbounded(RDT_FRESH, upTo);
    SameImagesSameRun(RDT_FRESH, upTo, seen[..j + 1]);
    HighIsHighest(upTo[..j], i);
  }

  /** Every classification of a run, not just the last one, is the unbounded one. */
  lemma EveryClassificationIsUnbounded(start: RdtState, ns: seq<int>, i: nat)
    requires !start.hasLast && i < |ns| && WithinHalfRange(ns)
    ensures RunOver(start, ns[..i + 1]).last == UnboundedObservation(ns[..i + 1])
  {
    WithinHalfRangeOfPrefix(ns, i + 1);
    RdtRefinesUnbounded(start, ns[..i + 1]);
  }

  // ---------------------------------------------------------------- FT

  datatype FtKind = FtFirst | Forward | Stall | Backward | Restart

  datatype FtState = FtState(hasLast: bool, previous: U32, hasCandidate: bool, candidate: U32)

  /** The kinds after which the observed value becomes the new baseline. */
  predicate Advances(kind: FtKind) {
    kind == FtFirst || kind == Forward || kind == Restart
  }

  function FtObserve(s: FtState, current: U32): FtKind {
    if !s.hasLast then FtFirst
    else if current == s.previous then Stall
    else if Distance(s.previous, current) > 0 then Forward
    else if s.previous >= RESTART_MIN_BASELINE && s.hasCandidate && s.candidate < current <= RESTART_LOW_MAX
    then Restart
    else Backward
  }

  function FtNext(s: FtState, current: U32): FtState {
    match FtObserve(s, current)
    case FtFirst => s.(hasLast := true, previous := current)
    case Stall => s.(hasCandidate := false)
    case Backward => s.(hasCandidate := true, candidate := current)
    case Forward => s.(previous := current, hasCandidate := false)
    case Restart => s.(previous := current, hasCandidate := false)
  }

  function FtBeginSession(s: FtState): FtState {
    s.(hasCandidate := false)
  }

  const FT_FRESH := FtState(false, 0, false, 0)

  class FtSequenceTracker {
    var hasLast: bool
    var previous: U32
    var hasCandidate: bool
    var candidate: U32

    function State(): FtState
      reads this
    {
      FtState(hasLast, previous, hasCandidate, candidate)
    }

    constructor ()
      ensures State() == FT_FRESH
    {
      hasLast, previous, hasCandidate, candidate := false, 0, false, 0;
    }

    method BeginSession()
      modifies this
      ensures State() == FtBeginSession(old(State()))
    {
      hasCandidate := false;
    }

    method Observe(current: U32) returns (kind: FtKind)
      modifies this
      ensures kind == FtObserve(old(State()), current)
      ensures State() == FtNext(old(State()), current)
    {
      if !hasLast {
        hasLast := true;
        previous := current;
        return FtFirst;
      }
      if current == previous {
        hasCandidate := false;
        return Stall;
      }
      var delta := Wrap(current - previous);
      if delta < HALF {
        previous := current;
        hasCandidate := false;
        return Forward;
      }
      if previous >= RESTART_MIN_BASELINE && hasCandidate && candidate <= RESTART_LOW_MAX &&
         current <= RESTART_LOW_MAX
      {
        var candidateDelta := Wrap(current - candidate);
        if 0 < candidateDelta < HALF {
          previous := current;
          hasCandidate := false;
          return Restart;
        }
      }
      candidate := current;
      hasCandidate := true;
      return Backward;
    }
  }
}

/** What an FT observation means in terms of everything observed before it. */
module FtHistory {
  import opened Types
  import opened Sequence

  datatype FtEvent = SessionBegins | Observed(value: U32)

  function TrackerAfter(h: seq<FtEvent>): FtState {
    if h == [] then FT_FRESH else
      var before := TrackerAfter(h[..|h| - 1]);
      match h[|h| - 1]
      case SessionBegins => FtBeginSession(before)
      case Observed(value) => FtNext(before, value)
  }

  /** The value last accepted as progress. */
  function Baseline(h: seq<FtEvent>): Option<U32>
    decreases |h|, 1
  {
    if h == [] then None else
      var before := h[..|h| - 1];
      match h[|h| - 1]
      case SessionBegins => Baseline(before)
      case Observed(value) => if Advances(KindByHistory(before, value)) then Some(value) else Baseline(before)
  }

  /** The unsigned 32-bit step from one value to the other is short of half the range. */
  predicate IsAhead(from: U32, to: U32) {
    (to - from) % 0x1_0000_0000 < 0x8000_0000
  }

  /** The meaning of an observation, read off the history alone. */
  function KindByHistory(h: seq<FtEvent>, value: U32): FtKind
    decreases |h|, 2
  {
    match Baseline(h)
    case None => FtFirst
    case Some(baseline) =>
      if value == baseline then Stall
      else if IsAhead(baseline, value) then Forward
      else if ConfirmsRestart(h, baseline, value) then Restart
      else Backward
  }

  /** The event just before was a backward value below this one, both are low and the baseline is not. */
  predicate ConfirmsRestart(h: seq<FtEvent>, baseline: U32, value: U32)
    decreases |h|, 0
  {
    h != [] && h[|h| - 1].Observed? &&
    KindByHistory(h[..|h| - 1], h[|h| - 1].value) == Backward &&
    h[|h| - 1].value < value && value <= 0xffff && baseline >= 0x1_0000
  }

  /** The tracker's fields are exactly the baseline and the pending backward value of the history. */
  lemma {:induction false} TrackerFollowsHistory(h: seq<FtEvent>)
    ensures TrackerAfter(h).hasLast == Baseline(h).Some?
    ensures Baseline(h).Some? ==> TrackerAfter(h).previous == Baseline(h).value
    ensures TrackerAfter(h).hasCandidate ==
            (h != [] && h[|h| - 1].Observed? && KindByHistory(h[..|h| - 1], h[|h| - 1].value) == Backward)
    ensures TrackerAfter(h).hasCandidate ==> TrackerAfter(h).candidate == h[|h| - 1].value
    ensures forall v: U32 :: FtObserve(TrackerAfter(h), v) == KindByHistory(h, v)
    ensures !TrackerAfter(h).hasLast ==> !TrackerAfter(h).hasCandidate
  {
    if h != [] {
      TrackerFollowsHistory(h[..|h| - 1]);
    }
    if Baseline(h).Some? {
      forall v: U32
        ensures Distance(Baseline(h).value, v) > 0 <==> Baseline(h).value != v && IsAhead(Baseline(h).value, v)
      {
        AheadOrBehind(Baseline(h).value, v);
      }
    }
  }

  /** FT history: a restart is reported exactly when the history confirms one, and then the baseline is bounded. */
  lemma RestartExactly(h: seq<FtEvent>, value: U32)
    ensures FtObserve(TrackerAfter(h), value) == Restart <==>
            (Baseline(h).Some? &&
             !IsAhead(Baseline(h).value, value) &&
             ConfirmsRestart(h, Baseline(h).value, value))
    ensures FtObserve(TrackerAfter(h), value) == Restart ==> 0x1_0000 <= Baseline(h).value <= 0x8000_ffff
  {
    TrackerFollowsHistory(h);
  }

  /** Where the sensor stands: how often it restarted, and its unwrapped position since. */
  datatype Progress = Progress(epoch: nat, position: int)

  predicate Before(a: Progress, b: Progress) {
    a.epoch < b.epoch || (a.epoch == b.epoch && a.position < b.position)
  }

  function Advance(p: Progress, s: FtState, value: U32): Progress {
    match FtObserve(s, value)
    case FtFirst => Progress(p.epoch, value)
    case Forward => Progress(p.epoch, p.position + Distance(s.previous, value))
    case Restart => Progress(p.epoch + 1, value)
    case Stall => p
    case Backward => p
  }

  /** The unwrapped position always shows the baseline in its low 32 bits and every advance moves it forward. */
  lemma AdvanceMovesForward(p: Progress, s: FtState, value: U32)
    requires s.hasLast ==> Wrap(p.position) == s.previous
    ensures FtNext(s, value).hasLast && Wrap(Advance(p, s, value).position) == FtNext(s, value).previous
    ensures s.hasLast && Advances(FtObserve(s, value)) ==> Before(p, Advance(p, s, value))
    ensures !Advances(FtObserve(s, value)) ==> Advance(p, s, value) == p
  {
    if FtObserve(s, value) == Forward {
      var d := Distance(s.previous, value);
      WrapAbsorbs(s.previous + d, p.position / WRAP);
      assert p.position == p.position / WRAP * WRAP + s.previous;
    }
  }
}
