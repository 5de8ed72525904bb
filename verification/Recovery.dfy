/** The recovery loop: sessions, faults and back-offs of one worker. */
module Recovery {
  import opened Types
  import opened Events = Pipeline
  import opened ClientRecords
  import opened ReceiveLoop

  /** One session as the loop sees it: how it ended, and whether stopping_ was set before and after it. */
  datatype Session = Session(stoppingBefore: bool, end: SessionEnd, stoppingAfter: bool)

  function Pow2(k: nat): (r: real)
    ensures r >= 1.0
  {
    if k == 0 then 1.0 else 2.0 * Pow2(k - 1)
  }

  /** The delay before the reconnect that follows k others without a valid record in between. */
  function Delay(config: Config, k: nat): real {
    var doubled := config.reconnectInitialDelay * Pow2(k);
    if doubled < config.reconnectMaxDelay then doubled else config.reconnectMaxDelay
  }

  /** How many back-offs in a row precede the one after session k: none if that session had a valid record. */
  function Streak(sessions: seq<Session>, k: nat): nat
    requires k < |sessions|
  {
    if sessions[k].end.valid || k == 0 then 0 else Streak(sessions, k - 1) + 1
  }

  predicate ValidDelays(config: Config) {
    0.0 < config.reconnectInitialDelay <= config.reconnectMaxDelay
  }

  /** After such a session the worker backs off and tries again. */
  predicate BacksOff(config: Config, s: Session) {
    !s.stoppingBefore && s.end.result != SessionStopped && !s.stoppingAfter && config.policy == Reconnect
  }

  /** After such a session the worker faults. */
  predicate Faults(config: Config, s: Session) {
    !s.stoppingBefore && s.end.result != SessionStopped && config.policy == FailStop
  }

  function MessageOf(end: SessionEnd): string {
    if end.message == "" then MessageFor(end.result) else end.message
  }

  /** Doubling and clamping the previous delay gives the next one of the closed form. */
  lemma DelayDoubles(config: Config, k: nat)
    requires ValidDelays(config)
    ensures Delay(config, k + 1) ==
            if Delay(config, k) * 2.0 < config.reconnectMaxDelay then Delay(config, k) * 2.0
            else config.reconnectMaxDelay
  {
    var initial, p := config.reconnectInitialDelay, Pow2(k);
    assert initial * (2.0 * p) == initial * p * 2.0;
  }

  /** Every delay is within the configured bounds, and it only grows along a streak. */
  lemma {:induction false} DelayIsBounded(config: Config, j: nat, k: nat)
    requires ValidDelays(config) && j <= k
    ensures config.reconnectInitialDelay <= Delay(config, j) <= Delay(config, k) <= config.reconnectMaxDelay
    decreases k
  {
    var initial := config.reconnectInitialDelay;
    assert initial * Pow2(j) >= initial by {
      assert initial * (Pow2(j) - 1.0) >= 0.0;
    }
    if j < k {
      DelayIsBounded(config, j, k - 1);
      DelayDoubles(config, k - 1);
    }
  }

  /** These waits belong to sessions that back off, and each is the delay of its streak and within the bounds. */
  ghost predicate WaitsOut(config: Config, sessions: seq<Session>, waits: seq<real>) {
    |waits| <= |sessions| &&
    forall k | 0 <= k < |waits| ::
      BacksOff(config, sessions[k]) && waits[k] == Delay(config, Streak(sessions, k)) &&
      config.reconnectInitialDelay <= waits[k] <= config.reconnectMaxDelay
  }

  /** The delay in hand before session i. */
  function NextDelay(config: Config, sessions: seq<Session>, i: nat): real
    requires i <= |sessions|
  {
    if i == 0 then config.reconnectInitialDelay else Delay(config, Streak(sessions, i - 1) + 1)
  }

  lemma NothingWaited(config: Config, sessions: seq<Session>)
    ensures WaitsOut(config, sessions, []) && NextDelay(config, sessions, 0) == config.reconnectInitialDelay
  {
  }

  lemma WaitsOnceMore(config: Config, sessions: seq<Session>, waits: seq<real>)
    requires ValidDelays(config) && WaitsOut(config, sessions, waits)
    requires |waits| < |sessions| && BacksOff(config, sessions[|waits|])
    ensures var i := |waits|;
            var backoff := if sessions[i].end.valid then config.reconnectInitialDelay
                           else NextDelay(config, sessions, i);
            WaitsOut(config, sessions, waits + [backoff]) &&
            NextDelay(config, sessions, i + 1) ==
            if backoff * 2.0 < config.reconnectMaxDelay then backoff * 2.0 else config.reconnectMaxDelay
  {
    var i := |waits|;
    assert Delay(config, 0) == config.reconnectInitialDelay;
    DelayIsBounded(config, 0, Streak(sessions, i));
    DelayDoubles(config, Streak(sessions, i));
  }

  /** The state after backing off from the first n sessions. */
  function AfterBackOffs(p: Events.Pipeline, sessions: seq<Session>, n: nat): Events.Pipeline
    requires n <= |sessions|
  {
    if n == 0 then p else EnterBackoff(AfterBackOffs(p, sessions, n - 1), MessageOf(sessions[n - 1].end))
  }

  /** Each back-off counts one reconnect and shows its message; nothing else changes. */
  lemma {:induction false} BackOffsCount(p: Events.Pipeline, sessions: seq<Session>, n: nat)
    requires n <= |sessions|
    ensures var q := AfterBackOffs(p, sessions, n);
            q == p.(health := q.health) &&
            q.health.counters == p.health.counters.(reconnect := p.health.counters.reconnect + n) &&
            (n > 0 ==> q.health.state == Backoff && q.health.lastError == MessageOf(sessions[n - 1].end))
  {
    if n > 0 {
      BackOffsCount(p, sessions, n - 1);
    }
  }

  /** run(): waits lists the back-offs it made.

    The back-offs are those of the longest run of sessions that back off; each waits the clamped power of two of its
    streak; and under FailStop the first failed session ends the loop with its fault. */
  method RunSessions(client: ClientData, sessions: seq<Session>) returns (waits: seq<real>)
    requires ValidDelays(client.config)
    modifies client, client.faultLatch
    ensures WaitsOut(client.config, sessions, waits)
    ensures client.config.policy == FailStop ==> waits == []
    ensures old(client.faultLatch.Faulted()) ==>
              waits == [] && client.View() == old(client.View()) &&
              client.faultLatch.code == old(client.faultLatch.code)
    ensures !old(client.faultLatch.Faulted()) ==>
              (|waits| == |sessions| || !BacksOff(client.config, sessions[|waits|])) &&
              var q := AfterBackOffs(old(client.View()), sessions, |waits|);
              if |waits| < |sessions| && Faults(client.config, sessions[|waits|]) then
                var fault := Fault(FaultFor(sessions[|waits|].end.result), MessageOf(sessions[|waits|].end));
                client.View() == ShowFault(q, fault) && client.faultLatch.code == fault.code
              else
                client.View() == q && client.faultLatch.code == NoFault
  {
    hide WaitsOut, NextDelay, Delay, Streak, AfterBackOffs, EnterBackoff, ShowFault, MessageFor, FaultFor;
    waits := [];
    NothingWaited(client.config, sessions);
    BackOffsBegin(client.View(), sessions);
    var backoff := client.config.reconnectInitialDelay;
    var i := 0;
    while i < |sessions|
      invariant i == |waits| <= |sessions|
      invariant client.config.policy == FailStop ==> waits == []
      invariant backoff == NextDelay(client.config, sessions, i)
      invariant WaitsOut(client.config, sessions, waits)
      invariant client.faultLatch.code == old(client.faultLatch.code)
      invariant client.faultLatch.Faulted() ==> waits == []
      invariant client.View() == AfterBackOffs(old(client.View()), sessions, i)
    {
      if sessions[i].stoppingBefore || client.faultLatch.Faulted() {
        break;
      }
      var outcome := sessions[i].end;
      if outcome.message == "" {
        outcome := outcome.(message := MessageFor(outcome.result));
      }
      if outcome.result != SessionStopped && client.config.policy == FailStop {
        client.SetFault(Fault(FaultFor(outcome.result), outcome.message));
        break;
      }
      if outcome.result == SessionStopped || sessions[i].stoppingAfter {
        break;
      }

      if outcome.valid {
        backoff := client.config.reconnectInitialDelay;
      }
      client.BackOff(outcome.message);
      BackOffOnceMore(old(client.View()), sessions, i);
      WaitsOnceMore(client.config, sessions, waits);
      waits := waits + [backoff];
      backoff := if backoff * 2.0 < client.config.reconnectMaxDelay then backoff * 2.0
                 else client.config.reconnectMaxDelay;
      i := i + 1;
    }
  }

  lemma BackOffsBegin(p: Events.Pipeline, sessions: seq<Session>)
    ensures AfterBackOffs(p, sessions, 0) == p
  {
  }

  lemma BackOffOnceMore(p: Events.Pipeline, sessions: seq<Session>, i: nat)
    requires i < |sessions|
    ensures AfterBackOffs(p, sessions, i + 1) == EnterBackoff(AfterBackOffs(p, sessions, i), MessageOf(sessions[i].end))
  {
  }
}
