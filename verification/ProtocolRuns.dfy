/** What holds in every state that any interleaving of the client's threads can reach. */
module ProtocolRuns {
  import opened Types
  import opened RateWindow
  import opened RateLimit
  import opened Sequence
  import opened Pipeline
  import opened PipelineInvariants
  import opened PipelineMeaning
  import opened Protocol
  import opened ProtocolLocks
  import opened ProtocolWorkers
  import opened ProtocolWire
  import opened ProtocolRecords
  import opened ProtocolRollback
  import opened ProtocolData
  import opened ProtocolReclaim
  import opened FtHistory
  import opened ProtocolDeadlock
  import opened ProtocolStop

  ghost predicate Ok(s: State) {
    Consistent(s) && ReclaimAgrees(s.reclaim, s.agents)
  }

  lemma InitialIsOk(s: State)
    requires Initial(s)
    ensures Ok(s)
  {
    FreshIsSound(s.config, s.clock);
    assert SpellReading(Closed([])) == [];
    assert Reads([], false, false);
    assert !SomeoneBiased(s.agents);
  }

  lemma StepKeepsOk(s: State, action: Action)
    requires Ok(s) && Enabled(s, action)
    ensures Ok(Apply(s, action))
  {
    hide DataOk, SessionsBracketed, ReclaimAgrees, Apply;
    StepKeepsConsistent(s, action);
    StepKeepsReclaim(s, action);
  }

  lemma {:induction false} RunKeepsOk(s: State, actions: seq<Action>)
    requires Ok(s) && IsRun(s, actions)
    ensures Ok(After(s, actions))
    decreases |actions|
  {
    hide Ok, Apply;
    if actions != [] {
      StepKeepsOk(s, actions[0]);
      RunKeepsOk(Apply(s, actions[0]), actions[1..]);
    }
  }

  ghost predicate Reachable(s: State) {
    exists start: State, actions: seq<Action> :: Initial(start) && IsRun(start, actions) && s == After(start, actions)
  }

  /** Every reachable state is consistent. */
  lemma ReachableIsOk(s: State)
    requires Reachable(s)
    ensures Ok(s)
  {
    var start, actions :| Initial(start) && IsRun(start, actions) && s == After(start, actions);
    InitialIsOk(start);
    RunKeepsOk(start, actions);
  }

  lemma OkAgrees(s: State)
    requires Ok(s)
    ensures WorkersAgree(s)
  {
  }

  // ---------------------------------------------------------------- threads

  /** At most one unjoined worker; the handle or the one caller that set joining_ holds it; nobody joins itself. */
  lemma OneWorkerOneOwner(s: State, w: Tid)
    requires Reachable(s) && Worker(w) in s.agents
    ensures forall x: Tid | Worker(x) in s.agents :: x == w
    ensures if s.control.joining then s.control.handle.None? else s.control.handle == Some(w)
    ensures s.control.joining ==> exists t: Tid ::
              t != w && Caller(t) in s.agents && RoleOf(s.agents[Caller(t)].point) == Joining(w) &&
              forall u: Tid | Caller(u) in s.agents && RoleOf(s.agents[Caller(u)].point).Joining? :: u == t
  {
    hide Ok, Reachable, HasExited, SavedExited;
    ReachableIsOk(s);
    OkAgrees(s);
    assert Owned(s.control, s.agents, w);
    forall x: Tid | Worker(x) in s.agents ensures x == w {
      WorkerIsUnique(s, w, x);
    }
    if s.control.joining {
      var t := s.control.joiner.value;
      assert RoleHolds(s.control, s.agents, t, RoleOf(s.agents[Caller(t)].point));
      forall u: Tid | Caller(u) in s.agents && RoleOf(s.agents[Caller(u)].point).Joining? ensures u == t {
        assert RoleHolds(s.control, s.agents, u, RoleOf(s.agents[Caller(u)].point));
      }
    }
  }

  /** callback_, generation_ and stopping_ = false are written only while no worker exists. */
  lemma WritesNeedNoWorker(s: State, action: Action)
    requires Reachable(s) && Enabled(s, action)
    requires var t := Apply(s, action);
             t.control.callback != s.control.callback || t.pipe.generation != s.pipe.generation ||
             (s.control.stopping && !t.control.stopping)
    ensures NoWorkers(s.agents)
  {
    hide Ok, Apply;
    ReachableIsOk(s);
    WritersAreAlone(s, action);
  }

  lemma WritersAreAlone(s: State, action: Action)
    requires Ok(s) && Enabled(s, action)
    requires var t := Apply(s, action);
             t.control.callback != s.control.callback || t.pipe.generation != s.pipe.generation ||
             (s.control.stopping && !t.control.stopping)
    ensures NoWorkers(s.agents)
  {
    hide Ok, HasExited, SavedExited, Body;
    OkAgrees(s);
    match action
    case Run(a, env) =>
      WritersAreCreating(s, a, s.agents[a], env);
      if Speaks(s.agents[a].point) {
        SpeakersHaveNoWorker(s, a);
      } else {
        assert Holds(s.agents, a, Lifecycle);
        UnownedMeansNone(s, a);
      }
  }

  lemma WritersAreCreating(s: State, a: Agent, f: Frame, env: Env)
    requires var t := Body(s, a, f, env).state;
             t.control.callback != s.control.callback || t.pipe.generation != s.pipe.generation ||
             (s.control.stopping && !t.control.stopping)
    ensures Speaks(f.point) ||
            (f.point.Starting? && f.point.Guard() == Some(Lifecycle) && s.control.handle.None? && !s.control.joining)
    ensures f.point.Starting?
  {
    hide StartBody, StopBody, CallBody, SessionBody, RecordBody, ClosingBody;
    match f.point
    case Starting(p) =>
      if !InCreation(p) {
        DecidingWrites(s, a.tid, p, env);
      }
    case Stopping(use, p) => StopKeepsWritten(s, a.tid, use, p, env);
    case Calling(p) => CallKeepsWritten(s, p, env);
    case Opening(p) => SessionKeepsWritten(s, p, env);
    case Handling(p) => RecordKeepsWritten(s, f.run, p, env);
    case Leaving(p) => ClosingKeepsWritten(s, p, env);
  }

  ghost predicate KeepsWritten(s: State, e: Effect) {
    e.state.control.callback == s.control.callback && e.state.pipe.generation == s.pipe.generation &&
    (s.control.stopping ==> e.state.control.stopping)
  }

  lemma DecidingWrites(s: State, t: Tid, p: StartPoint, env: Env)
    requires !InCreation(p)
    ensures KeepsWritten(s, StartBody(s, t, p, env)) ||
            (p.Guard() == Some(Lifecycle) && s.control.handle.None? && !s.control.joining)
  {
  }

  lemma CallKeepsWritten(s: State, p: CallPoint, env: Env)
    ensures KeepsWritten(s, CallBody(s, p, env))
  {
    hide Snapshot;
  }

  lemma SessionKeepsWritten(s: State, p: SessionPoint, env: Env)
    ensures KeepsWritten(s, SessionBody(s, p, env))
  {
  }

  lemma StopKeepsWritten(s: State, t: Tid, use: StopUse, p: StopPoint, env: Env)
    ensures KeepsWritten(s, StopBody(s, t, use, p, env))
  {
  }

  lemma RecordKeepsWritten(s: State, run: nat, p: RecordPoint, env: Env)
    ensures KeepsWritten(s, RecordBody(s, run, p, env))
  {
    hide RecordBody, WellShaped;
    RecordMovesOn(s, run, p, env);
  }

  lemma ClosingKeepsWritten(s: State, p: ClosingPoint, env: Env)
    ensures KeepsWritten(s, ClosingBody(s, p, env))
  {
  }

  // ---------------------------------------------------------------- progress

  /** No deadlock: no thread waits, directly or through others, for itself. */
  lemma NeverDeadlocked(s: State, chain: seq<Agent>)
    requires Reachable(s) && WaitChain(s, chain) && |chain| >= 2
    ensures chain[0] != chain[|chain| - 1]
  {
    hide *;
    ReachableIsOk(s);
    OkAgrees(s);
    NoDeadlock(s, chain);
  }

  /** While any thread is unfinished, some thread waits for nobody and has an enabled step. */
  lemma AlwaysSomeoneCanMove(s: State, unfinished: Agent)
    requires Reachable(s) && unfinished in s.agents && s.agents[unfinished].point != Leaving(WorkDone)
    ensures exists a: Agent :: Unblocked(s, a) && (Enabled(s, Acquire(a)) || exists env :: Enabled(s, Run(a, env)))
  {
    hide *;
    ReachableIsOk(s);
    OkAgrees(s);
    var a := SomeoneCanMove(s, unfinished);
  }

  /** A worker that calls into its client from the callback never waits for a join or for joining_. */
  lemma CallbackNeverWaitsForJoin(s: State, t: Tid)
    requires Reachable(s) && Caller(t) in s.agents && Worker(t) in s.agents
    ensures var p := s.agents[Caller(t)].point; !AwaitsJoin(p) && !AwaitsExit(p) && JoinTarget(p).None?
  {
    hide Ok, Reachable, HasExited, SavedExited;
    ReachableIsOk(s);
    OkAgrees(s);
    assert RoleHolds(s.control, s.agents, t, RoleOf(s.agents[Caller(t)].point));
  }

  // ---------------------------------------------------------------- faults

  /** Once latched, a fault stays as first published until a start() resets it. */
  lemma FirstFaultStays(s: State, action: Action)
    requires Reachable(s) && Enabled(s, action) && s.control.latch != NoFault
    requires action.Run? ==> !(s.agents[action.agent].point.Starting? && s.agents[action.agent].point.start.StartReset?)
    ensures var t := Apply(s, action);
            t.control.latch == s.control.latch && t.control.published == s.control.published &&
            t.pipe.health.state == Faulted && t.pipe.health.faultCode == s.control.latch &&
            Some(Fault(s.control.latch, t.pipe.health.lastError)) == s.control.published
  {
    hide Ok, Reachable, Healthy, TruePlace, WorkersAgree, StartBody, StopBody, CallBody, SessionBody, RecordBody,
      ClosingBody;
    ReachableIsOk(s);
    StepKeepsOk(s, action);
    OkShowsFault(s);
    OkShowsFault(Apply(s, action));
    if action.Run? {
      OkIsTrue(s, action.agent);
      OkIsPlaced(s, action.agent);
      BodyKeepsLatch(s, action.agent, s.agents[action.agent], action.env);
    }
  }

  lemma OkShowsFault(s: State)
    requires Ok(s)
    ensures FaultOnShow(s.control.latch, s.control.published, s.pipe.health)
  {
  }

  lemma OkIsPlaced(s: State, a: Agent)
    requires Ok(s) && a in s.agents
    ensures a.Worker? <==> s.agents[a].point.IsWorkers()
  {
  }

  lemma BodyKeepsLatch(s: State, a: Agent, f: Frame, env: Env)
    requires s.control.latch != NoFault && TruePlace(s, a, f)
    requires a.Worker? <==> f.point.IsWorkers()
    requires !(f.point.Starting? && f.point.start.StartReset?)
    ensures var c := Body(s, a, f, env).state.control; c.latch == s.control.latch && c.published == s.control.published
  {
    match f.point
    case Starting(p) => StartKeepsLatch(s, a.tid, p, env);
    case Stopping(use, p) => StopLooksAtLatch(s, a.tid, use, p, env);
    case Calling(p) =>
    case Opening(p) =>
    case Handling(p) => RecordLooksAtLatch(s, f.run, p, env);
    case Leaving(p) =>
  }

  lemma StartKeepsLatch(s: State, t: Tid, p: StartPoint, env: Env)
    requires s.control.latch != NoFault && CreatorPlace(s, p) && !p.StartReset?
    ensures var c := StartBody(s, t, p, env).state.control;
            c.latch == s.control.latch && c.published == s.control.published
  {
    hide Sound, PrunedFrom, FaultOnShow;
  }

  lemma StopLooksAtLatch(s: State, t: Tid, use: StopUse, p: StopPoint, env: Env)
    ensures var c := StopBody(s, t, use, p, env).state.control;
            c.latch == s.control.latch && c.published == s.control.published
  {
  }

  lemma RecordLooksAtLatch(s: State, run: nat, p: RecordPoint, env: Env)
    ensures RecordBody(s, run, p, env).state.control == s.control
  {
    hide RecordBody;
    RecordStepsOn(s, run, p, env);
  }

  /** What health() returns: the stored snapshot, with the latched fault as Faulted and as first published, the rates of
    the last second and the time since the last record of the run. */
  lemma HealthIsTrue(s: State, a: Agent, env: Env)
    requires Reachable(s) && Enabled(s, Run(a, env)) && s.agents[a].point == Calling(HealthEnter)
    ensures var latch, receipts := s.control.latch, s.pipe.history.receipts;
            Body(s, a, s.agents[a], env).observed == HealthReturned(s.pipe.health.(
              faultCode := latch,
              state := if latch == NoFault then s.pipe.health.state else Faulted,
              receiveRate := |Recent(receipts, s.clock)|,
              deliveryRate := |Recent(s.pipe.history.deliveries, s.clock)|,
              lastRecordAge := if receipts == [] then None else Some(s.clock - receipts[|receipts| - 1])))
    ensures s.control.latch != NoFault ==>
              s.control.published == Some(Fault(s.control.latch, s.pipe.health.lastError))
  {
    hide Sound, PlacesTrue, PublishedIsLatched, SessionOk, ReclaimAgrees, Snapshot, PruneWindows, Recent;
    ReachableIsOk(s);
    assert Body(s, a, s.agents[a], env).observed ==
           HealthReturned(Snapshot(PruneWindows(s.pipe, s.clock), s.control.latch, s.clock));
    SoundForHealth(s);
    SnapshotExactly(s.pipe, s.control.latch, s.clock);
  }

  lemma SoundForHealth(s: State)
    requires Healthy(s)
    ensures WindowsFaithful(s.pipe, s.clock) && Logged(s.pipe)
  {
  }

  // ---------------------------------------------------------------- generations

  /** wait_for_first_sample returns true only for a delivery of the run that is current at its return. */
  lemma WaitMeansDelivered(s: State, a: Agent, env: Env)
    requires Reachable(s) && Enabled(s, Run(a, env))
    requires Body(s, a, s.agents[a], env).observed == WaitReturned(true)
    ensures s.pipe.latest.Some? && s.pipe.deliveredGeneration == s.pipe.generation
    ensures s.pipe.history.latestRun == s.pipe.history.run
    ensures s.pipe.history.deliveries != [] && s.pipe.history.delivered != []
    ensures s.pipe.latest.value == s.pipe.history.delivered[|s.pipe.history.delivered| - 1].sample
  {
    ReachableIsOk(s);
    assert GenerationsAgree(s.pipe);
    WaitsCapture(s, a, s.agents[a], env);
    assert TruePlace(s, a, s.agents[a]);
  }

  lemma WaitsCapture(s: State, a: Agent, f: Frame, env: Env)
    requires Body(s, a, f, env).observed == WaitReturned(true)
    ensures s.pipe.deliveredGeneration == s.pipe.generation
    ensures f.point == Calling(WaitEnter) ==> s.pipe.generation != 0
    ensures f.point.Calling? && (f.point.call.WaitEnter? || f.point.call == Waiting(s.pipe.generation))
  {
    match f.point
    case Starting(p) =>
    case Stopping(use, p) => StopIsSilent(s, a.tid, use, p, env);
    case Calling(p) =>
    case Opening(p) =>
    case Handling(p) => RecordIsSilent(s, f.run, p, env);
    case Leaving(p) =>
  }

  lemma StopIsSilent(s: State, t: Tid, use: StopUse, p: StopPoint, env: Env)
    ensures StopBody(s, t, use, p, env).observed == Silent
  {
  }

  lemma RecordIsSilent(s: State, run: nat, p: RecordPoint, env: Env)
    ensures RecordBody(s, run, p, env).observed == Silent
  {
    hide RecordBody;
    RecordStepsOn(s, run, p, env);
  }

  /** A delivery is credited to the run of the worker that made it, which is the current run. */
  lemma DeliveryIsCreditedToItsRun(s: State, w: Tid, flight: Flight, env: Env)
    requires Reachable(s) && Enabled(s, Run(Worker(w), env))
    requires s.agents[Worker(w)].point == Handling(WorkDeliverData(flight))
    ensures var q := Apply(s, Run(Worker(w), env)).pipe;
            q.latest == Some(flight.sample) && q.deliveredGeneration == q.generation == s.pipe.generation != 0 &&
            q.history.latestRun == q.history.run == s.agents[Worker(w)].run &&
            q.history.delivered ==
              s.pipe.history.delivered + [Delivered(flight.sample, flight.progress, flight.arrival, flight.receipt)]
  {
    hide Ok, Reachable, Healthy, Prune, StartBody, StopBody, CallBody, SessionBody, ClosingBody;
    ReachableIsOk(s);
    OkIsTrue(s, Worker(w));
  }

  // ---------------------------------------------------------------- records

  /** Conservation over the client life: every received record is accounted for, with at most one in flight. */
  lemma RecordsAreConserved(s: State)
    requires Reachable(s)
    ensures var c, h := s.pipe.health.counters, s.pipe.history;
            c.received ==
              c.delivered + c.rateLimited + c.callbackError + h.suppressed + h.nonFinite + One(h.inFlight.Some?) &&
            h.suppressed <= c.duplicate + c.outOfOrder + c.ftStall + c.ftBackward + c.deviceError
    ensures s.pipe.history.inFlight.Some? <==>
            exists w: Tid :: Worker(w) in s.agents && FlightAt(s.agents[Worker(w)].point).Some?
  {
    ReachableIsOk(s);
    assert Conserved(s.pipe);
    if s.pipe.history.inFlight.Some? {
      assert !NoWorkers(s.agents);
      var w: Tid :| Worker(w) in s.agents;
      assert TruePlace(s, Worker(w), s.agents[Worker(w)]);
    }
    forall w: Tid | Worker(w) in s.agents && FlightAt(s.agents[Worker(w)].point).Some?
      ensures s.pipe.history.inFlight.Some?
    {
      assert TruePlace(s, Worker(w), s.agents[Worker(w)]);
    }
  }

  /** The "configuration is unavailable" throw is unreachable. */
  lemma StreamingHasConfiguration(s: State, w: Tid)
    requires Reachable(s) && Worker(w) in s.agents && s.agents[Worker(w)].point.Handling?
    ensures s.pipe.health.configuration.Some?
  {
    hide Ok, Reachable, Healthy;
    ReachableIsOk(s);
    OkIsTrue(s, Worker(w));
  }

  /** The revision in force is one more than the calibration changes. */
  lemma RevisionCountsChanges(s: State)
    requires Reachable(s)
    ensures s.pipe.health.configuration.Some? ==>
              s.pipe.health.configuration.value.revision == s.pipe.health.counters.calibrationChange + 1
    ensures s.pipe.health.configuration.None? ==>
              s.pipe.health.counters.calibrationChange == 0 && s.pipe.history.delivered == []
  {
    hide Ok, Reachable;
    ReachableIsOk(s);
    OkIsSound(s);
    assert RevisionsMeanCalibrations(s.pipe);
    if s.pipe.history.delivered != [] {
      assert OfRevision(s.pipe.history.delivered[0].sample, s.pipe.history.calibrations);
    }
  }

  /** Revisions never decrease over deliveries and never pass the one in force; one revision, one scaling. */
  lemma RevisionsAreFaithful(s: State, i: nat, j: nat)
    requires Reachable(s) && i <= j < |s.pipe.history.delivered|
    ensures var a, b := s.pipe.history.delivered[i].sample, s.pipe.history.delivered[j].sample;
            s.pipe.health.configuration.Some? &&
            a.configurationRevision <= b.configurationRevision <= s.pipe.health.configuration.value.revision &&
            (a.configurationRevision == b.configurationRevision ==>
              exists c: Calibration :: ScaledBy(a, c) && ScaledBy(b, c))
  {
    hide Ok, Reachable, ScaledBy, Conserved, WindowsFaithful, DeliveredInOrder, ArrivalsInOrder, DeliveriesSpaced,
      CountsTrailingRun, GenerationsAgree;
    ReachableIsOk(s);
    OkIsSound(s);
    var samples := s.pipe.history.delivered;
    assert RevisionsMeanCalibrations(s.pipe);
    assert OfRevision(samples[i].sample, s.pipe.history.calibrations) &&
           OfRevision(samples[j].sample, s.pipe.history.calibrations);
    if samples[i].sample.configurationRevision == samples[j].sample.configurationRevision {
      SameRevisionSameScales(s.pipe, i, j);
    }
  }

  /** Delivered samples strictly increase in (restart epoch, unwrapped FT position), across reconnects and restarts. */
  lemma DeliveriesMoveForward(s: State, i: nat, j: nat)
    requires Reachable(s) && i < j < |s.pipe.history.delivered|
    ensures Before(s.pipe.history.delivered[i].progress, s.pipe.history.delivered[j].progress)
    ensures Wrap(s.pipe.history.delivered[i].progress.position) == s.pipe.history.delivered[i].sample.ftSequence
  {
    ReachableIsOk(s);
    assert DeliveredInOrder(s.pipe);
  }

  /** RDT refinement, for every stream between two resets of the tracker, also of samples delivered after the reset. */
  lemma StreamsRefineUnbounded(s: State, epoch: nat, ns: seq<int>)
    requires Reachable(s) && epoch <= |s.pipe.history.past|
    requires var seen := StreamAt(s.pipe.history.past, s.pipe.history.stream, epoch).seen;
             ns != [] && |ns| == |seen| && WithinHalfRange(ns) && forall i | 0 <= i < |ns| :: Wrap(ns[i]) == seen[i]
    ensures epoch == |s.pipe.history.past| ==> s.pipe.rdt == RdtState(true, Wrap(High(ns)))
    ensures var h, lost := s.pipe.history, s.pipe.health.counters.lost;
            var stream := StreamAt(h.past, h.stream, epoch);
            LostAfter(h.past, h.stream, lost, epoch) - stream.lostBefore + |RunOver(RDT_FRESH, stream.seen).accepted| ==
            High(ns) - ns[0] + 1
    ensures DeliveredAlong(ns, s.pipe.history.delivered, epoch)
  {
    hide *;
    ReachableIsOk(s);
    OkIsSound(s);
    SoundIsInOrder(s);
    StreamRefinesUnbounded(s.pipe, epoch, ns);
  }

  /** Deliveries of different streams come in the order of the streams. */
  lemma StreamsFollowOneAnother(s: State, i: nat, j: nat)
    requires Reachable(s) && i < j < |s.pipe.history.delivered|
    ensures ArrivedBefore(s.pipe.history.delivered[i].arrival, s.pipe.history.delivered[j].arrival)
    ensures var a := s.pipe.history.delivered[i].arrival;
            a.epoch <= |s.pipe.history.past| &&
            AcceptedAt(StreamAt(s.pipe.history.past, s.pipe.history.stream, a.epoch).seen, a.index)
  {
    hide Ok, Reachable, AcceptedAt;
    ReachableIsOk(s);
    OkIsSound(s);
    assert ArrivalsInOrder(s.pipe);
    assert Arrived(s.pipe.history.past, s.pipe.history.stream, s.pipe.history.delivered[i].arrival,
                   s.pipe.history.delivered[i].sample);
  }

  lemma SoundIsInOrder(s: State)
    requires Sound(s.config, s.pipe, s.clock)
    ensures ArrivalsInOrder(s.pipe)
  {
  }

  lemma OkIsSound(s: State)
    requires Ok(s)
    ensures Sound(s.config, s.pipe, s.clock)
  {
  }

  lemma SoundCountsTrailing(s: State)
    requires Sound(s.config, s.pipe, s.clock)
    ensures CountsTrailingRun(s.pipe)
  {
  }

  lemma SoundIsSpaced(s: State)
    requires Sound(s.config, s.pipe, s.clock)
    ensures DeliveriesSpaced(s.config, s.pipe)
  {
  }

  /** Rate limit: in one run, any window of length span holds at most floor(span * limit) + 1 deliveries. */
  lemma RateIsLimited(s: State, low: real, span: real)
    requires Reachable(s) && s.config.sampleRateLimitHz > 0.0 && span >= 0.0
    ensures |Between(s.pipe.history.deliveries, low, low + span)| <= (span * s.config.sampleRateLimitHz).Floor + 1
  {
    hide *;
    ReachableIsOk(s);
    OkIsSound(s);
    SoundIsSpaced(s);
    DeliveriesAreLimited(s.config, s.pipe, low, span);
  }

  /** A session ends in a malformed storm exactly when the run of malformed packets since the last valid one,
    or since start(), reaches the threshold, however many sessions it spans. */
  lemma StormExactly(s: State, w: Tid, valid: bool, env: Env)
    requires Reachable(s) && Enabled(s, Run(Worker(w), env))
    requires s.agents[Worker(w)].point == Handling(WorkGarbled(valid))
    ensures Apply(s, Run(Worker(w), env)).agents[Worker(w)].point ==
            if TrailingMalformed(s.pipe.history.packets + [false]) >= 10
            then Leaving(WorkClose(ThenDecide(MalformedStorm, valid, "")))
            else Handling(WorkReceive(valid))
  {
    hide Ok, Reachable, Sound, TrailingMalformed, StartBody, StopBody, CallBody, SessionBody, ClosingBody;
    ReachableIsOk(s);
    OkIsSound(s);
    SoundCountsTrailing(s);
    PacketCounted(s.pipe);
  }

  /** FailStop never counts a reconnect. */
  lemma FailStopNeverReconnects(s: State)
    requires Reachable(s) && s.config.policy == FailStop
    ensures s.pipe.health.counters.reconnect == 0
  {
    ReachableIsOk(s);
  }

  /** Under FailStop no action leads a worker back to the head of its loop: it runs one session at most. */
  lemma FailStopRunsOneSession(s: State, action: Action, w: Tid)
    requires Reachable(s) && s.config.policy == FailStop && Enabled(s, action) && Worker(w) in s.agents
    requires s.agents[Worker(w)].point == Opening(WorkLoop) ==> action.Run? && action.agent == Worker(w)
    ensures var t := Apply(s, action); Worker(w) in t.agents ==> t.agents[Worker(w)].point != Opening(WorkLoop)
  {
    hide Ok, Reachable, Sound, Body, SessionOk, TruePlace, Healthy;
    ReachableIsOk(s);
    OkIsTrue(s, Worker(w));
    OkAgrees(s);
    SessionsAreOk(s);
    if (action.Run? || action.Acquire?) && action.agent == Worker(w) {
      if action.Run? {
        WorkerGoesOn(s, w, s.agents[Worker(w)], action.env);
      }
    } else {
      OthersLeaveWorker(s, w, action);
    }
  }

  lemma WorkerGoesOn(s: State, w: Tid, f: Frame, env: Env)
    requires s.config.policy == FailStop && f.point.IsWorkers() && WorkerPlace(s, f.point, f.run)
    ensures Body(s, Worker(w), f, env).next != Some(Opening(WorkLoop))
  {
    hide Synced, StampFits, FaultFor, MessageFor, ShowFault, EnterBackoff, MarkState, SessionBody, RecordBody;
    match f.point
    case Opening(p) => OpeningGoesOn(s, p, env);
    case Handling(p) => RecordStepsOn(s, f.run, p, env);
    case Leaving(p) =>
  }

  lemma OpeningGoesOn(s: State, p: SessionPoint, env: Env)
    ensures SessionBody(s, p, env).next != Some(Opening(WorkLoop))
  {
    hide ApplyConfiguration, BeginStream, MarkState;
  }

  lemma OkIsTrue(s: State, a: Agent)
    requires Ok(s) && a in s.agents
    ensures Healthy(s) && TruePlace(s, a, s.agents[a])
  {
  }

  // ---------------------------------------------------------------- the wire, stops and failed starts

  lemma WireIsAlwaysBracketed(s: State)
    requires Reachable(s)
    ensures IsComplete(s.link.wire) || IsComplete(s.link.wire + [StopStreaming])
    ensures (forall w: Tid | Worker(w) in s.agents :: HasExited(s.agents[Worker(w)].point)) ==> IsComplete(s.link.wire)
  {
    ReachableIsOk(s);
    WireIsBracketed(s);
    if w: Tid :| Worker(w) in s.agents {
      if HasExited(s.agents[Worker(w)].point) {
        WireIsCompleteAfterExit(s, w);
      }
    } else {
      assert NoWorkers(s.agents);
    }
  }

  /** From the moment a stop() leaves its command-locked section, and until a start() asks for a new run, no command is
    sent, and the worker it stopped takes at most so many more steps as its place has left. */
  lemma StopHolds(s: State, u: Tid, env: Env, actions: seq<Action>)
    requires Reachable(s) && Enabled(s, Run(Caller(u), env))
    requires s.agents[Caller(u)].point.Stopping? && s.agents[Caller(u)].point.stop.StopShutdown?
    requires var t := Apply(s, Run(Caller(u), env)); IsRun(t, actions) && NeverRearms(t, actions)
    ensures var t := Apply(s, Run(Caller(u), env));
            After(t, actions).link.wire == t.link.wire && !After(t, actions).link.sessionStarted &&
            forall w: Tid | Lives(t, actions, w) ::
              StepsOf(actions, w) <= StepsLeft(t.agents[Worker(w)]) &&
              (StepsOf(actions, w) == StepsLeft(t.agents[Worker(w)]) ==>
                Worker(w) in After(t, actions).agents && After(t, actions).agents[Worker(w)].point == Leaving(WorkDone))
  {
    hide DataOk, SessionsBracketed, ReclaimAgrees, Apply, StepsLeft, StepsOf, SessionOk;
    ReachableIsOk(s);
    var action := Run(Caller(u), env);
    var t := Apply(s, action);
    assert SessionOk(s) by { SessionsAreOk(s); }
    StopQuiets(s, Caller(u), env);
    StepKeepsSessions(s, action);
    StopIsNeverLost(t, actions);
    forall w: Tid | Lives(t, actions, w)
      ensures StepsOf(actions, w) <= StepsLeft(t.agents[Worker(w)])
      ensures StepsOf(actions, w) == StepsLeft(t.agents[Worker(w)]) ==>
                Worker(w) in After(t, actions).agents && After(t, actions).agents[Worker(w)].point == Leaving(WorkDone)
    {
      StoppedWorkerWindsDown(t, actions, w);
      if StepsOf(actions, w) == StepsLeft(t.agents[Worker(w)]) {
        StoppedWorkerFinishes(t, actions, w);
      }
    }
  }

  lemma SessionsAreOk(s: State)
    requires Ok(s)
    ensures SessionOk(s)
  {
  }

  /** Storage is released only when no worker and no call is left, and nothing happens to it afterwards. */
  lemma FreedAfterJoin(s: State, action: Action)
    requires Reachable(s) && s.reclaim == Freed && Enabled(s, action)
    ensures s.agents == map[] && action.Tick?
  {
    ReachableIsOk(s);
    FreedIsFinal(s, action);
  }

  /** A stop() that returns to a thread other than the worker's has joined the worker and left a complete wire. */
  lemma StopReturnsWhenDone(s: State, u: Tid, env: Env)
    requires Reachable(s) && Enabled(s, Run(Caller(u), env)) && s.agents[Caller(u)].point.Stopping?
    requires Worker(u) !in s.agents && Caller(u) !in Apply(s, Run(Caller(u), env)).agents
    ensures var t := Apply(s, Run(Caller(u), env)); NoWorkers(t.agents) && IsComplete(t.link.wire)
  {
    hide Ok, Reachable, Body, IsComplete, WorkersAgree, SessionsBracketed;
    ReachableIsOk(s);
    OkAgrees(s);
    SessionsAreOk(s);
    var action := Run(Caller(u), env);
    StopLeavesNoWorker(s, u, env);
    BodyThreads(s, Caller(u), s.agents[Caller(u)], env);
    StepKeepsSessions(s, action);
    WireIsBracketed(Apply(s, action));
    OpenNeedsWorker(Apply(s, action));
  }

  lemma OpenNeedsWorker(s: State)
    requires SessionOk(s) && NoWorkers(s.agents)
    ensures !s.link.sessionStarted
  {
  }

  // ---------------------------------------------------------------- failed starts

  /** What a thread in the creation branch of start() compares the client with when it rolls back. */
  function EntryAt(p: Point): Option<Entry> {
    match p
    case Starting(q) => (
      match q
      case StartRecord(_, saved) => Some(saved.entry)
      case StartReset(_, saved) => Some(saved.entry)
      case StartArm(_, saved) => Some(saved.entry)
      case StartCreate(_, saved) => Some(saved.entry)
      case UndoAtomics(saved) => Some(saved.entry)
      case UndoRecord(saved) => Some(saved.entry)
      case UndoData(saved) => Some(saved.entry)
      case UndoLatch(saved) => Some(saved.entry)
      case UndoFault(saved) => Some(saved.entry)
      case _ => None
    )
    case _ => None
  }

  function EntryOf(s: State): Entry {
    Entry(s.control.stopping, s.control.exited, s.control.latch, s.control.callback, s.pipe, s.control.published)
  }

  ghost predicate InBranch(s: State, u: Tid) {
    Caller(u) in s.agents && EntryAt(s.agents[Caller(u)].point).Some?
  }

  /** The thread is in the creation branch in every state of the run. */
  ghost predicate StaysInBranch(s: State, actions: seq<Action>, u: Tid)
    requires IsRun(s, actions)
    decreases |actions|
  {
    InBranch(s, u) && (actions != [] ==> StaysInBranch(Apply(s, actions[0]), actions[1..], u))
  }

  lemma StartKeepsEntry(s: State, t: Tid, p: StartPoint, env: Env)
    requires EntryAt(Starting(p)).Some?
    ensures var next := StartBody(s, t, p, env).next;
            next.Some? && EntryAt(next.value).Some? ==> EntryAt(next.value) == EntryAt(Starting(p))
  {
    hide ForgetDelivery, ResetForRun, CountRun, ShowFault;
  }

  /** No action changes the entry of a thread that stays in the branch. */
  lemma StepKeepsEntry(s: State, action: Action, u: Tid)
    requires WorkersAgree(s) && Enabled(s, action) && InBranch(s, u) && InBranch(Apply(s, action), u)
    ensures EntryAt(Apply(s, action).agents[Caller(u)].point) == EntryAt(s.agents[Caller(u)].point)
  {
    hide Body, EntryAt, WorkersAgree;
    match action
    case Run(a, env) =>
      if a == Caller(u) {
        OwnStepKeepsEntry(s, u, env);
      } else {
        OthersStayPut(s, a, env);
      }
    case Begin(_, _) =>
    case Acquire(_) =>
    case Tick(_) =>
  }

  lemma OwnStepKeepsEntry(s: State, u: Tid, env: Env)
    requires Enabled(s, Run(Caller(u), env)) && InBranch(s, u) && InBranch(Apply(s, Run(Caller(u), env)), u)
    ensures EntryAt(Apply(s, Run(Caller(u), env)).agents[Caller(u)].point) == EntryAt(s.agents[Caller(u)].point)
  {
    hide StartBody, StopBody, CallBody, SessionBody, RecordBody, ClosingBody;
    var f := s.agents[Caller(u)];
    BodyThreads(s, Caller(u), f, env);
    StartKeepsEntry(s, u, f.point.start, env);
  }

  lemma {:induction false} RunKeepsEntry(s: State, actions: seq<Action>, u: Tid)
    requires Ok(s) && IsRun(s, actions) && StaysInBranch(s, actions, u)
    ensures InBranch(After(s, actions), u)
    ensures EntryAt(After(s, actions).agents[Caller(u)].point) == EntryAt(s.agents[Caller(u)].point)
    decreases |actions|
  {
    hide Ok, Apply, EntryAt;
    if actions != [] {
      OkAgrees(s);
      StepKeepsEntry(s, actions[0], u);
      StepKeepsOk(s, actions[0]);
      RunKeepsEntry(Apply(s, actions[0]), actions[1..], u);
    }
  }

  /** The last step of a roll-back leaves the client as the thread's entry has it. */
  lemma RollBackEnds(s: State, u: Tid, env: Env)
    requires Ok(s) && Enabled(s, Run(Caller(u), env)) && s.agents[Caller(u)].point.Starting?
    requires s.agents[Caller(u)].point.start.UndoLatch? || s.agents[Caller(u)].point.start.UndoFault?
    ensures var t := Apply(s, Run(Caller(u), env));
            Caller(u) !in t.agents ==> AsEntered(t, EntryAt(s.agents[Caller(u)].point).value)
  {
    hide Sound, SessionsBracketed, OneWorker, Announced;
    var p := s.agents[Caller(u)].point;
    assert TruePlace(s, Caller(u), s.agents[Caller(u)]);
    SpeakersHaveNoWorker(s, Caller(u));
    FailedStartChangesNothing(s, u, p.start, env);
  }

  /** The creation branch is entered with the state as it is. */
  lemma BranchBegins(s: State, u: Tid, env: Env)
    requires Enabled(s, Run(Caller(u), env))
    requires var t := Apply(s, Run(Caller(u), env));
             Caller(u) in t.agents && t.agents[Caller(u)].point.Starting? &&
             t.agents[Caller(u)].point.start.StartRecord?
    ensures EntryAt(Apply(s, Run(Caller(u), env)).agents[Caller(u)].point) == Some(EntryOf(s))
  {
    hide StartBody, StopBody, CallBody, SessionBody, RecordBody, ClosingBody;
    var f := s.agents[Caller(u)];
    BodyThreads(s, Caller(u), f, env);
    BodyShape(s, Caller(u), f, env);
    BodyEntersCreation(s, Caller(u), f, env);
  }

  lemma BodyEntersCreation(s: State, a: Agent, f: Frame, env: Env)
    requires var n := Body(s, a, f, env).next; n.Some? && n.value.Starting? && n.value.start.StartRecord?
    ensures Body(s, a, f, env).next.value.start.saved.entry == EntryOf(s)
  {
    BodyShape(s, a, f, env);
    hide Receive, FlightOf, FateOf, Deliver, CountMalformed, NoteValid, CallbackFailureOutcome, IsStorm, CountTimeout,
      DropNonFinite, RecordCallbackError, ShowFault, EnterBackoff, MarkState, FaultFor, MessageFor, ApplyConfiguration,
      BeginStream, PruneWindows, Snapshot, ResetAfterBias, ForgetDelivery, ResetForRun, CountRun;
    hide SessionBody, RecordBody, ClosingBody;
  }

  /** Failed start is a no-op: from the step by which u enters the creation branch to the one by which its roll-back
    returns, whatever the other threads did in between, the client comes back to the state u entered with. */
  lemma FailedStartIsNoOp(s: State, u: Tid, enter: Env, actions: seq<Action>, leave: Env)
    requires Reachable(s) && Enabled(s, Run(Caller(u), enter))
    requires var entered := Apply(s, Run(Caller(u), enter));
             Caller(u) in entered.agents && entered.agents[Caller(u)].point.Starting? &&
             entered.agents[Caller(u)].point.start.StartRecord? &&
             IsRun(entered, actions) && StaysInBranch(entered, actions, u)
    requires var last := After(Apply(s, Run(Caller(u), enter)), actions);
             Enabled(last, Run(Caller(u), leave)) && last.agents[Caller(u)].point.Starting? &&
             (last.agents[Caller(u)].point.start.UndoLatch? || last.agents[Caller(u)].point.start.UndoFault?) &&
             Caller(u) !in Apply(last, Run(Caller(u), leave)).agents
    ensures var last := After(Apply(s, Run(Caller(u), enter)), actions);
            AsEntered(Apply(last, Run(Caller(u), leave)), EntryOf(s))
  {
    hide *;
    ReachableIsOk(s);
    var entered := Apply(s, Run(Caller(u), enter));
    BranchBegins(s, u, enter);
    StepKeepsOk(s, Run(Caller(u), enter));
    RunKeepsEntry(entered, actions, u);
    RunKeepsOk(entered, actions);
    RollBackEnds(After(entered, actions), u, leave);
  }
}
