/** The receive loop of a session, from the started stream to the session's result. */
module ReceiveLoop {
  import opened Types
  import opened Events = Pipeline
  import opened PipelineInvariants
  import opened ClientRecords

  /** What one call of receive() gives the worker. */
  datatype Incoming =
    | Silence
    | Broken(error: string)
    | Garbled
    | Arrived(record: RawRecord, finite: bool, thrown: Option<string>)

  /** One turn of the loop as the environment plays it: the clock before and after receive(), what it received, and
    whether stopping_ is set at the top, after receive() and under the data mutex. */
  datatype Turn = Turn(stopAtTop: bool, now: real, incoming: Incoming, stopAfter: bool, stopLocked: bool, at: real)

  datatype SessionEnd = SessionEnd(result: SessionResult, valid: bool, message: string)

  predicate IsPacket(incoming: Incoming) {
    incoming.Garbled? || incoming.Arrived?
  }

  /** Whether each turn's packet decoded. */
  function PacketsOf(turns: seq<Turn>): seq<bool> {
    seq(|turns|, i requires 0 <= i < |turns| => turns[i].incoming.Arrived?)
  }

  /** When the last valid record of these turns came, or the stream began. */
  function LastValid(start: real, turns: seq<Turn>): real {
    if turns == [] then start
    else if turns[|turns| - 1].incoming.Arrived? then turns[|turns| - 1].at
    else LastValid(start, turns[..|turns| - 1])
  }

  function AfterTurn(config: Config, p: Events.Pipeline, turn: Turn): Events.Pipeline {
    match turn.incoming
    case Garbled => CountMalformed(p)
    case Arrived(record, finite, thrown) =>
      if p.health.configuration.None? then p else Handled(config, NoteValid(p), record, turn.at, finite, thrown).0
    case _ => p
  }

  /** The state after the packets of these turns. */
  function AfterTurns(config: Config, p: Events.Pipeline, turns: seq<Turn>): Events.Pipeline {
    if turns == [] then p else AfterTurn(config, AfterTurns(config, p, turns[..|turns| - 1]), turns[|turns| - 1])
  }

  lemma HandledKeeps(config: Config, p: Events.Pipeline, r: RawRecord, at: real, finite: bool, thrown: Option<string>)
    requires p.health.configuration.Some?
    ensures var (q, outcome) := Handled(config, p, r, at, finite, thrown);
            q.health.configuration == p.health.configuration && q.history.packets == p.history.packets &&
            q.consecutiveMalformed == p.consecutiveMalformed &&
            outcome != Some(MalformedStorm) && outcome != Some(TimedOut) && outcome != Some(SocketFailed) &&
            outcome != Some(SessionStopped)
  {
  }

  lemma TurnExtends(config: Config, p: Events.Pipeline, turns: seq<Turn>, start: real, i: nat)
    requires i < |turns|
    ensures AfterTurns(config, p, turns[..i + 1]) == AfterTurn(config, AfterTurns(config, p, turns[..i]), turns[i])
    ensures PacketsOf(turns[..i + 1]) == PacketsOf(turns[..i]) + [turns[i].incoming.Arrived?]
    ensures LastValid(start, turns[..i + 1]) ==
            if turns[i].incoming.Arrived? then turns[i].at else LastValid(start, turns[..i])
  {
    assert turns[..i + 1][..i] == turns[..i];
  }

  /** Every one of these turns brought a packet in time, with no stop in its way. */
  ghost predicate AllRead(turns: seq<Turn>, n: nat, start: real, timeout: real)
    requires n <= |turns|
  {
    forall j | 0 <= j < n ::
      IsPacket(turns[j].incoming) && !turns[j].stopAtTop && !turns[j].stopAfter &&
      turns[j].now < LastValid(start, turns[..j]) + timeout
  }

  /** No valid record came for the length of the timeout. */
  predicate IsLate(turns: seq<Turn>, n: nat, start: real, timeout: real)
    requires n < |turns|
  {
    turns[n].now >= LastValid(start, turns[..n]) + timeout
  }

  /** The turn shows the stop: at its top, after receive(), or under the data mutex. */
  predicate ShowsStop(turn: Turn, late: bool) {
    turn.stopAtTop ||
    if late then turn.stopLocked else turn.stopAfter || (turn.incoming.Silence? && turn.stopLocked)
  }

  /** In this turn the loop gives up waiting for a valid record. */
  predicate GivesUp(turn: Turn, late: bool) {
    !turn.stopAtTop && !turn.stopLocked && (late || (turn.incoming.Silence? && !turn.stopAfter))
  }

  /** In this turn receive() fails. */
  predicate Breaks(turn: Turn, late: bool) {
    !turn.stopAtTop && !late && turn.incoming.Broken?
  }

  /** The end a turn without a packet in time makes. */
  predicate EndsWait(turn: Turn, late: bool, end: SessionEnd) {
    (end.result == SessionStopped <==> ShowsStop(turn, late)) &&
    (end.result == TimedOut <==> GivesUp(turn, late)) &&
    (end.result == SocketFailed <==> Breaks(turn, late) && !turn.stopAfter) &&
    (end.result == SessionStopped || end.result == TimedOut || end.result == SocketFailed) &&
    end.message == if Breaks(turn, late) then turn.incoming.error else ""
  }

  /** What a packet means for its session: nothing, or its end. */
  function PacketOutcome(config: Config, p: Events.Pipeline, turn: Turn): Option<SessionResult> {
    match turn.incoming
    case Garbled =>
      if TrailingMalformed(p.history.packets + [false]) >= 10 then Some(MalformedStorm) else None
    case Arrived(record, finite, thrown) =>
      if p.health.configuration.None? then None
      else Handled(config, NoteValid(p), record, turn.at, finite, thrown).1
    case _ => None
  }

  /** What the packet of turn k means for the session, after the packets before it. */
  function OutcomeAt(config: Config, p: Events.Pipeline, turns: seq<Turn>, k: nat): Option<SessionResult>
    requires k < |turns|
  {
    PacketOutcome(config, AfterTurns(config, p, turns[..k]), turns[k])
  }

  /** The last packet read ended the session. */
  predicate LastPacketEnds(config: Config, p: Events.Pipeline, turns: seq<Turn>, read: nat)
    requires read <= |turns|
  {
    read > 0 && OutcomeAt(config, p, turns, read - 1).Some?
  }

  /** Where the loop ends and with what: it reads packet after packet in time until one of them ends the session, or
    until the first turn that brings a stop, no record in time, or a failure. */
  ghost predicate LoopEnds(config: Config, p: Events.Pipeline, turns: seq<Turn>, start: real, timeout: real, read: nat,
                           end: SessionEnd)
  {
    read <= |turns| && AllRead(turns, read, start, timeout) &&
    (forall k | 0 <= k && k + 1 < read :: OutcomeAt(config, p, turns, k).None?) &&
    (end.valid <==> exists k | 0 <= k < read :: turns[k].incoming.Arrived?) &&
    if LastPacketEnds(config, p, turns, read) then
      OutcomeAt(config, p, turns, read - 1) == Some(end.result) && end.message == ""
    else if read == |turns| then end.result == SessionStopped && end.message == ""
    else EndsWait(turns[read], IsLate(turns, read, start, timeout), end)
  }

  /** The loop has read this many packets and none of them ended the session. */
  ghost predicate ReadSoFar(config: Config, p: Events.Pipeline, turns: seq<Turn>, start: real, timeout: real, read: nat,
                            valid: bool)
  {
    read <= |turns| && AllRead(turns, read, start, timeout) &&
    (forall k | 0 <= k < read :: OutcomeAt(config, p, turns, k).None?) &&
    (valid <==> exists k | 0 <= k < read :: turns[k].incoming.Arrived?)
  }

  lemma EndsBeforePacket(config: Config, p: Events.Pipeline, turns: seq<Turn>, start: real, timeout: real, read: nat,
                         end: SessionEnd)
    requires ReadSoFar(config, p, turns, start, timeout, read, end.valid)
    requires if read == |turns| then end.result == SessionStopped && end.message == ""
             else EndsWait(turns[read], IsLate(turns, read, start, timeout), end)
    ensures LoopEnds(config, p, turns, start, timeout, read, end)
  {
    hide OutcomeAt, EndsWait;
  }

  predicate ReadsInTime(turns: seq<Turn>, i: nat, start: real, timeout: real)
    requires i < |turns|
  {
    IsPacket(turns[i].incoming) && !turns[i].stopAtTop && !turns[i].stopAfter && !IsLate(turns, i, start, timeout)
  }

  lemma EndsWithPacket(config: Config, p: Events.Pipeline, turns: seq<Turn>, start: real, timeout: real, i: nat,
                       valid: bool, result: SessionResult)
    requires ReadSoFar(config, p, turns, start, timeout, i, valid) && i < |turns| &&
             ReadsInTime(turns, i, start, timeout)
    requires OutcomeAt(config, p, turns, i) == Some(result)
    requires result != SessionStopped && result != TimedOut && result != SocketFailed
    ensures LoopEnds(config, p, turns, start, timeout, i + 1,
                     SessionEnd(result, valid || turns[i].incoming.Arrived?, ""))
  {
    hide OutcomeAt;
  }

  lemma ReadsOn(config: Config, p: Events.Pipeline, turns: seq<Turn>, start: real, timeout: real, i: nat, valid: bool)
    requires ReadSoFar(config, p, turns, start, timeout, i, valid) && i < |turns| &&
             ReadsInTime(turns, i, start, timeout)
    requires OutcomeAt(config, p, turns, i).None?
    ensures ReadSoFar(config, p, turns, start, timeout, i + 1, valid || turns[i].incoming.Arrived?)
  {
    hide OutcomeAt;
  }

  /** This settles the loop: there is one place where it ends, and one end. */
  lemma LoopEndsOnce(config: Config, p: Events.Pipeline, turns: seq<Turn>, start: real, timeout: real,
                     a: nat, x: SessionEnd, b: nat, y: SessionEnd)
    requires LoopEnds(config, p, turns, start, timeout, a, x) && LoopEnds(config, p, turns, start, timeout, b, y)
    ensures a == b && x == y
  {
    hide AfterTurns, PacketOutcome, OutcomeAt;
    if a < b {
      EndsNoLater(config, p, turns, start, timeout, a, x, b);
    } else if b < a {
      EndsNoLater(config, p, turns, start, timeout, b, y, a);
    }
  }

  lemma EndsNoLater(config: Config, p: Events.Pipeline, turns: seq<Turn>, start: real, timeout: real,
                    a: nat, x: SessionEnd, b: nat)
    requires LoopEnds(config, p, turns, start, timeout, a, x) && b <= |turns| && AllRead(turns, b, start, timeout)
    requires forall k | 0 <= k && k + 1 < b :: OutcomeAt(config, p, turns, k).None?
    ensures b <= a
  {
    hide AfterTurns, PacketOutcome, OutcomeAt;
  }

  /** A packet: a malformed one may complete a storm, a valid one clears the count and is handled. */
  method ReadPacket(client: ClientData, turn: Turn) returns (outcome: Option<SessionResult>)
    requires IsPacket(turn.incoming) && client.health.configuration.Some? && CountsTrailingRun(client.View())
    modifies client, client.rdtSequence, client.ftSequence
    ensures client.View() == AfterTurn(client.config, old(client.View()), turn)
    ensures client.health.configuration.Some? && CountsTrailingRun(client.View())
    ensures client.history.packets == old(client.history.packets) + [turn.incoming.Arrived?]
    ensures outcome == PacketOutcome(client.config, old(client.View()), turn)
    ensures outcome == Some(MalformedStorm) <==>
            turn.incoming.Garbled? && TrailingMalformed(client.history.packets) >= 10
    ensures outcome != Some(TimedOut) && outcome != Some(SocketFailed) && outcome != Some(SessionStopped)
  {
    hide CountsTrailingRun, Handled, TrailingMalformed;
    PacketCounted(client.View());
    if turn.incoming.Garbled? {
      var storm := client.CountMalformed();
      return if storm then Some(MalformedStorm) else None;
    }
    client.NoteValid();
    ghost var noted := client.View();
    HandledKeeps(client.config, noted, turn.incoming.record, turn.at, turn.incoming.finite, turn.incoming.thrown);
    var handled := client.HandleRecord(turn.incoming.record, turn.at, turn.incoming.finite, turn.incoming.thrown);
    SameRun(noted, client.View());
    return handled.value;
  }

  /** The part of a turn up to its packet: a stop, the end of the wait or a failure ends the session. */
  method AwaitPacket(client: ClientData, turn: Turn, late: bool, valid: bool) returns (end: Option<SessionEnd>)
    requires CountsTrailingRun(client.View())
    modifies client
    ensures end.None? ==>
              IsPacket(turn.incoming) && !turn.stopAtTop && !turn.stopAfter && !late &&
              client.View() == old(client.View())
    ensures end.Some? ==>
              end.value.valid == valid && end.value.result != MalformedStorm && EndsWait(turn, late, end.value) &&
              client.View() == if end.value.result == TimedOut then CountTimeout(old(client.View()))
                               else old(client.View())
    ensures CountsTrailingRun(client.View()) && client.history.packets == old(client.history.packets)
  {
    hide CountsTrailingRun;
    if turn.stopAtTop {
      return Some(SessionEnd(SessionStopped, valid, ""));
    }
    ghost var waiting := client.View();
    if late {
      if turn.stopLocked {
        return Some(SessionEnd(SessionStopped, valid, ""));
      }
      client.CountTimeout();
      SameRun(waiting, client.View());
      return Some(SessionEnd(TimedOut, valid, ""));
    }
    if turn.incoming.Broken? {
      var result := if turn.stopAfter then SessionStopped else SocketFailed;
      return Some(SessionEnd(result, valid, turn.incoming.error));
    }
    if turn.stopAfter {
      return Some(SessionEnd(SessionStopped, valid, ""));
    }
    if turn.incoming.Silence? {
      if turn.stopLocked {
        return Some(SessionEnd(SessionStopped, valid, ""));
      }
      client.CountTimeout();
      SameRun(waiting, client.View());
      return Some(SessionEnd(TimedOut, valid, ""));
    }
    return None;
  }

  /** The loop itself, over what the environment plays; at the end of the script the client is stopping.

    It ends at the one place and with the one end that LoopEnds names, and leaves the state of the packets it read. */
  method RunReceiveLoop(client: ClientData, timeout: real, start: real, turns: seq<Turn>)
    returns (end: SessionEnd, read: nat)
    requires client.health.configuration.Some?
    requires CountsTrailingRun(client.View())
    modifies client, client.rdtSequence, client.ftSequence
    ensures LoopEnds(client.config, old(client.View()), turns, start, timeout, read, end)
    ensures var q := AfterTurns(client.config, old(client.View()), turns[..read]);
            client.View() == if end.result == TimedOut then CountTimeout(q) else q
    ensures client.history.packets == old(client.history.packets) + PacketsOf(turns[..read])
    ensures CountsTrailingRun(client.View())
    ensures end.result == MalformedStorm <==>
            read > 0 && turns[read - 1].incoming.Garbled? && TrailingMalformed(client.history.packets) >= 10
  {
    hide AfterTurns, AfterTurn, LastValid, CountsTrailingRun, PacketsOf, PacketOutcome, OutcomeAt, TrailingMalformed,
      LoopEnds, ReadSoFar, EndsWait;
    var valid, deadline, i := false, start + timeout, 0;
    ghost var config, p := client.config, client.View();
    Beginning(config, p, turns, start, timeout);
    while i < |turns|
      invariant i <= |turns| && ReadSoFar(config, p, turns, start, timeout, i, valid)
      invariant client.health.configuration.Some? && CountsTrailingRun(client.View())
      invariant client.View() == AfterTurns(config, p, turns[..i])
      invariant client.history.packets == p.history.packets + PacketsOf(turns[..i])
      invariant i > 0 && turns[i - 1].incoming.Garbled? ==> TrailingMalformed(client.history.packets) < 10
      invariant deadline == LastValid(start, turns[..i]) + timeout
    {
      var turn := turns[i];
      var waited := AwaitPacket(client, turn, turn.now >= deadline, valid);
      if waited.Some? {
        EndsBeforePacket(config, p, turns, start, timeout, i, waited.value);
        return waited.value, i;
      }
      TurnExtends(config, p, turns, start, i);
      var outcome := ReadPacket(client, turn);
      OutcomeHere(config, p, turns, i);
      if outcome.Some? {
        EndsWithPacket(config, p, turns, start, timeout, i, valid, outcome.value);
      } else {
        ReadsOn(config, p, turns, start, timeout, i, valid);
      }
      if turn.incoming.Arrived? {
        valid := true;
        deadline := turn.at + timeout;
      }
      i := i + 1;
      if outcome.Some? {
        return SessionEnd(outcome.value, valid, ""), i;
      }
    }
    end := SessionEnd(SessionStopped, valid, "");
    EndsBeforePacket(config, p, turns, start, timeout, i, end);
    return end, i;
  }

  lemma OutcomeHere(config: Config, p: Events.Pipeline, turns: seq<Turn>, i: nat)
    requires i < |turns|
    ensures OutcomeAt(config, p, turns, i) == PacketOutcome(config, AfterTurns(config, p, turns[..i]), turns[i])
  {
  }

  lemma Beginning(config: Config, p: Events.Pipeline, turns: seq<Turn>, start: real, timeout: real)
    ensures AfterTurns(config, p, turns[..0]) == p && PacketsOf(turns[..0]) == []
    ensures LastValid(start, turns[..0]) == start && ReadSoFar(config, p, turns, start, timeout, 0, false)
  {
  }

  lemma SameRun(p: Events.Pipeline, q: Events.Pipeline)
    requires CountsTrailingRun(p) && q.history.packets == p.history.packets &&
             q.consecutiveMalformed == p.consecutiveMalformed
    ensures CountsTrailingRun(q)
  {
  }
}
