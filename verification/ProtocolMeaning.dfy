/** What the worker's steps mean for the records, the calibration and the session, in every interleaving. */
module ProtocolMeaning {
  import opened Types
  import opened Sequence
  import opened FtHistory
  import opened RateWindow
  import opened Pipeline
  import opened PipelineInvariants
  import opened PipelineMeaning
  import opened Protocol
  import opened ProtocolLocks
  import opened ProtocolWorkers
  import opened ProtocolRecords
  import opened ProtocolData
  import opened ProtocolReclaim
  import opened ProtocolStop
  import opened ProtocolRuns

  lemma SoundMeans(s: State)
    requires Ok(s)
    ensures Logged(s.pipe) && WindowsFaithful(s.pipe, s.clock) && RevisionsMeanCalibrations(s.pipe)
  {
  }

  lemma RunnerIsThere(s: State, a: Agent, env: Env)
    requires Enabled(s, Run(a, env))
    ensures a in s.agents
  {
  }

  /** The state in which the worker meets a record. */
  lemma WorkerIsReady(s: State, w: Tid)
    requires Ok(s) && Worker(w) in s.agents
    ensures Synced(s.pipe) && s.pipe.history.inFlight == FlightAt(s.agents[Worker(w)].point) &&
            s.pipe.generation != 0 && s.agents[Worker(w)].point.IsWorkers() &&
            (NeedsConfiguration(s.agents[Worker(w)].point) ==> s.pipe.health.configuration.Some?)
  {
    hide Healthy, StampFits;
    OkIsTrue(s, Worker(w));
    OkIsPlaced(s, Worker(w));
  }

  // ---------------------------------------------------------------- one record

  /** Where the worker goes when a record has this outcome. */
  function GoesOn(outcome: Option<SessionResult>): Point {
    if outcome.None? then Handling(WorkReceive(true)) else Leaving(WorkClose(ThenDecide(outcome.value, true, "")))
  }

  /** A record the worker counts is logged as received, and turned into a sample of itself exactly when nothing is wrong
    with it and it is in time; otherwise it ends the session or not by what it says. */
  lemma RecordIsJudged(s: State, w: Tid, record: RawRecord, at: real, env: Env)
    requires Reachable(s) && Enabled(s, Run(Worker(w), env))
    requires s.agents[Worker(w)].point == Handling(WorkRecord(record, at))
    ensures var t := Apply(s, Run(Worker(w), env));
            s.pipe.health.configuration.Some? && Worker(w) in t.agents &&
            t.pipe.history.received == s.pipe.history.received + [Receipt(record, at)] &&
            if !IsRefused(s.config, s.pipe, record) && IsInTime(s.config, s.pipe, at) then
              FlightAt(t.agents[Worker(w)].point).Some? &&
              var f := FlightAt(t.agents[Worker(w)].point).value;
              t.agents[Worker(w)].point == Handling(WorkConvert(f)) &&
              IsSampleOf(f.sample, record, at, s.pipe.health.configuration.value) &&
              f.outcome == EndsWith(s.config, s.pipe, record)
            else
              t.agents[Worker(w)].point == GoesOn(EndsWith(s.config, s.pipe, record))
  {
    hide *;
    ReachableIsOk(s);
    SoundMeans(s);
    RunnerIsThere(s, Worker(w), env);
    WorkerIsReady(s, w);
    assert s.pipe.health.configuration.Some? by { RecordPlaceNeeds(record, at); }
    FateExactly(s.config, s.pipe, record, at, s.clock);
    OutcomeExactly(s.config, s.pipe, record, at);
    FlightShowsRecord(s.config, s.pipe, record, at);
    RecordStep(s, w, record, at, env);
  }

  lemma RecordPlaceNeeds(record: RawRecord, at: real)
    ensures NeedsConfiguration(Handling(WorkRecord(record, at)))
  {
  }

  lemma RecordStep(s: State, w: Tid, record: RawRecord, at: real, env: Env)
    requires Enabled(s, Run(Worker(w), env)) && s.agents[Worker(w)].point == Handling(WorkRecord(record, at))
    requires s.pipe.health.configuration.Some?
    ensures var t := Apply(s, Run(Worker(w), env));
            var flight := FlightOf(s.config, s.pipe, record, at);
            t.pipe == Receive(s.config, s.pipe, record, at) && Worker(w) in t.agents &&
            t.pipe.history.received == s.pipe.history.received + [Receipt(record, at)] &&
            t.agents[Worker(w)].point ==
              if FateOf(s.config, s.pipe, record, at) == Deliverable then Handling(WorkConvert(flight))
              else GoesOn(flight.outcome)
    ensures forall f :: FlightAt(Handling(WorkConvert(f))) == Some(f)
  {
    hide FateOf, FlightOf, CountRecord, StartBody, StopBody, CallBody, SessionBody, ClosingBody;
  }

  /** One record at the worker raises exactly these counters, whatever callers do meanwhile. */
  lemma RecordCounts(s: State, w: Tid, record: RawRecord, at: real, env: Env)
    requires Reachable(s) && Enabled(s, Run(Worker(w), env))
    requires s.agents[Worker(w)].point == Handling(WorkRecord(record, at))
    ensures var c, ft := s.pipe.health.counters, KindByHistory(s.pipe.history.ftEvents, record.ftSequence);
            Apply(s, Run(Worker(w), env)).pipe.health.counters == c.(
              received := c.received + 1,
              lost := c.lost + Missing(s.pipe.rdt, record.rdtSequence),
              duplicate := c.duplicate + One(RepeatsLast(s.pipe.rdt, record.rdtSequence)),
              outOfOrder := c.outOfOrder + One(CameLate(s.pipe.rdt, record.rdtSequence)),
              ftStall := c.ftStall + One(ft == Stall),
              ftBackward := c.ftBackward + One(ft == Backward),
              ftRestart := c.ftRestart + One(ft == Restart),
              warning := c.warning + One(IsWarning(record.status)),
              deviceError := c.deviceError + One(IsDeviceError(record.status)),
              rateLimited := c.rateLimited +
                One(!IsRefused(s.config, s.pipe, record) && !IsInTime(s.config, s.pipe, at)))
  {
    hide *;
    ReachableIsOk(s);
    SoundMeans(s);
    RunnerIsThere(s, Worker(w), env);
    WorkerIsReady(s, w);
    assert s.pipe.health.configuration.Some? by { RecordPlaceNeeds(record, at); }
    RecordIsCounted(s.config, s.pipe, record, at, s.clock);
    RecordStep(s, w, record, at, env);
  }

  /** A sample on its way goes to the callback if every axis is finite, and becomes the latest if the callback returns;
    then its session goes on or ends as the record said. */
  lemma SampleGoesOn(s: State, w: Tid, env: Env)
    requires Reachable(s) && Enabled(s, Run(Worker(w), env)) && FlightAt(s.agents[Worker(w)].point).Some?
    ensures var f, p := FlightAt(s.agents[Worker(w)].point).value, s.agents[Worker(w)].point.record;
            var t := Apply(s, Run(Worker(w), env));
            Worker(w) in t.agents &&
            var q := t.agents[Worker(w)].point;
            (p.WorkConvert? ==> q == if env.ok then Handling(WorkCallback(f)) else GoesOn(Some(ConfigurationFailed))) &&
            (p.WorkCallback? ==>
              q == if s.control.callback.Some? && env.thrown then Handling(WorkCallbackError(f, env.message))
                   else Handling(WorkDeliver(f))) &&
            (p.WorkCallbackError? ==>
              t.pipe.latest == s.pipe.latest && t.pipe.health.lastError == p.message &&
              t.pipe.health.counters ==
                s.pipe.health.counters.(callbackError := s.pipe.health.counters.callbackError + 1) &&
              q == if f.outcome.None? && s.config.policy == FailStop then GoesOn(Some(CallbackFailed))
                   else GoesOn(f.outcome)) &&
            (p.WorkDeliver? ==> q == Handling(WorkDeliverData(f))) &&
            (p.WorkDeliverData? ==> t.pipe.latest == Some(f.sample) && q == GoesOn(f.outcome))
  {
    hide FateOf, FlightOf, CountRecord, StartBody, StopBody, CallBody, SessionBody, ClosingBody, Ok, Reachable;
  }

  /** Every delivered sample shows one received record, each record at most once and in order, and carries the revision
    of the calibration whose divisors, times its forces and torques, give back the counts. */
  lemma DeliveriesShowRecords(s: State, i: nat)
    requires Reachable(s) && i < |s.pipe.history.delivered|
    ensures var h, d := s.pipe.history, s.pipe.history.delivered[i];
            d.receipt < |h.received| && Shows(d.sample, h.received[d.receipt]) &&
            1 <= d.sample.configurationRevision <= |h.calibrations| &&
            ScaledBy(d.sample, h.calibrations[d.sample.configurationRevision - 1])
    ensures forall j | 0 <= j < i :: s.pipe.history.delivered[j].receipt < s.pipe.history.delivered[i].receipt
  {
    hide Ok, Reachable, TimesOf, TrackerAfter, WindowsFaithful, Shows, ScaledBy;
    ReachableIsOk(s);
    SoundMeans(s);
    var d := s.pipe.history.delivered[i];
    assert ShowsOne(d.sample, d.receipt, s.pipe.history.received);
    assert OfRevision(d.sample, s.pipe.history.calibrations);
  }

  /** The client's FT tracker stands where the life-long history of FT values leads it. */
  lemma ClientKnowsRestarts(s: State, value: U32)
    requires Reachable(s)
    ensures var h := s.pipe.history.ftEvents;
            FtObserve(s.pipe.ft, value) == KindByHistory(h, value) &&
            (FtObserve(s.pipe.ft, value) == Restart <==>
              Baseline(h).Some? && !IsAhead(Baseline(h).value, value) && ConfirmsRestart(h, Baseline(h).value, value))
  {
    hide *;
    ReachableIsOk(s);
    SoundMeans(s);
    FtKinds(s.pipe, value);
    assert s.pipe.ft == TrackerAfter(s.pipe.history.ftEvents) by { LoggedTracks(s.pipe); }
    RestartExactly(s.pipe.history.ftEvents, value);
  }

  lemma LoggedTracks(p: Pipeline)
    requires Logged(p)
    ensures p.ft == TrackerAfter(p.history.ftEvents)
  {
  }

  // ---------------------------------------------------------------- the calibration of a session

  /** A calibration that a session discovered is in force after the worker's section, whoever else runs. */
  lemma DiscoveredComesIntoForce(s: State, w: Tid, name: string, c: Calibration, env: Env)
    requires Reachable(s) && Enabled(s, Run(Worker(w), env))
    requires s.agents[Worker(w)].point == Opening(WorkApply(name, c))
    ensures var t := Apply(s, Run(Worker(w), env));
            InForce(s.pipe, t.pipe, name, c) && Worker(w) in t.agents &&
            NeedsConfiguration(t.agents[Worker(w)].point) &&
            t.pipe.health.configuration ==
              Some(SensorConfiguration(name, c, t.pipe.health.counters.calibrationChange + 1))
  {
    hide Ok, Reachable, ApplyConfiguration, StartBody, StopBody, CallBody, RecordBody, ClosingBody;
    RevisionCountsChanges(s);
    ConfigurationComesIntoForce(s.pipe, name, c);
  }

  ghost predicate InSession(s: State, w: Tid) {
    Worker(w) in s.agents && NeedsConfiguration(s.agents[Worker(w)].point)
  }

  /** The worker is in the session it discovered a configuration for, in every state of the run. */
  ghost predicate StaysInSession(s: State, actions: seq<Action>, w: Tid)
    requires IsRun(s, actions)
    decreases |actions|
  {
    InSession(s, w) && (actions != [] ==> StaysInSession(Apply(s, actions[0]), actions[1..], w))
  }

  ghost predicate SameConfiguration(s: State, e: Effect) {
    e.state.pipe.health.configuration == s.pipe.health.configuration
  }

  lemma StartKeepsConfiguration(s: State, t: Tid, p: StartPoint, env: Env)
    requires !p.UndoData?
    ensures SameConfiguration(s, StartBody(s, t, p, env))
  {
  }

  lemma StopKeepsConfiguration(s: State, t: Tid, use: StopUse, p: StopPoint, env: Env)
    ensures SameConfiguration(s, StopBody(s, t, use, p, env))
  {
  }

  lemma CallKeepsConfiguration(s: State, p: CallPoint, env: Env)
    ensures SameConfiguration(s, CallBody(s, p, env))
  {
    hide Snapshot, Prune;
  }

  lemma SessionKeepsConfiguration(s: State, p: SessionPoint, env: Env)
    requires !p.WorkApply?
    ensures SameConfiguration(s, SessionBody(s, p, env))
  {
  }

  lemma RecordKeepsConfiguration(s: State, run: nat, p: RecordPoint, env: Env)
    ensures SameConfiguration(s, RecordBody(s, run, p, env))
  {
    hide FateOf, FlightOf, CountRecord, Prune, CallbackFailureOutcome, IsStorm;
  }

  lemma BodyKeepsConfiguration(s: State, a: Agent, f: Frame, env: Env)
    requires !(f.point.Starting? && f.point.start.UndoData?) && !(f.point.Opening? && f.point.session.WorkApply?)
    requires !f.point.Leaving?
    ensures SameConfiguration(s, Body(s, a, f, env))
  {
    hide SameConfiguration, StartBody, StopBody, CallBody, SessionBody, RecordBody;
    match f.point
    case Starting(p) => StartKeepsConfiguration(s, a.tid, p, env);
    case Stopping(use, p) => StopKeepsConfiguration(s, a.tid, use, p, env);
    case Calling(p) => CallKeepsConfiguration(s, p, env);
    case Opening(p) => SessionKeepsConfiguration(s, p, env);
    case Handling(p) => RecordKeepsConfiguration(s, f.run, p, env);
  }

  lemma UndoingSpeaks(p: Point)
    ensures p.Starting? && p.start.UndoData? ==> Speaks(p)
    ensures NeedsConfiguration(p) ==> !p.Leaving? && !(p.Opening? && p.session.WorkApply?)
    ensures !p.IsWorkers() ==> !p.Leaving? && !p.Opening?
  {
  }

  /** While a session lasts nothing changes the configuration in force. */
  lemma StepKeepsConfiguration(s: State, action: Action, w: Tid)
    requires Ok(s) && Enabled(s, action) && InSession(s, w)
    ensures Apply(s, action).pipe.health.configuration == s.pipe.health.configuration
  {
    hide Ok, Body, WorkersAgree, Speaks, NeedsConfiguration;
    if action.Run? {
      var a, f := action.agent, s.agents[action.agent];
      OkAgrees(s);
      OkIsPlaced(s, a);
      UndoingSpeaks(f.point);
      if Speaks(f.point) {
        SpeakersHaveNoWorker(s, a);
      }
      if a.Worker? {
        WorkerIsUnique(s, w, a.tid);
      }
      BodyKeepsConfiguration(s, a, f, action.env);
    }
  }

  lemma {:induction false} RunKeepsConfiguration(s: State, actions: seq<Action>, w: Tid)
    requires Ok(s) && IsRun(s, actions) && StaysInSession(s, actions, w)
    ensures After(s, actions).pipe.health.configuration == s.pipe.health.configuration
    ensures Ok(After(s, actions)) && InSession(After(s, actions), w)
    decreases |actions|
  {
    hide Ok, Apply;
    if actions != [] {
      StepKeepsConfiguration(s, actions[0], w);
      StepKeepsOk(s, actions[0]);
      RunKeepsConfiguration(Apply(s, actions[0]), actions[1..], w);
    }
  }

  /** What is in flight was scaled with the configuration in force. */
  lemma FlightIsCurrent(p: Pipeline, f: Flight)
    requires RevisionsMeanCalibrations(p) && p.history.inFlight == Some(f)
    ensures p.health.configuration.Some? && ScaledBy(f.sample, p.health.configuration.value.calibration) &&
            f.sample.configurationRevision == p.health.configuration.value.revision
  {
    hide ScaledBy;
  }

  /** A sample that a session delivers was scaled with the calibration that session discovered, from the step that
    applied it to the delivery, whatever the other threads did in between. */
  lemma DeliveredAsDiscovered(s: State, w: Tid, name: string, c: Calibration, apply: Env, actions: seq<Action>,
                              deliver: Env)
    requires Reachable(s) && Enabled(s, Run(Worker(w), apply))
    requires s.agents[Worker(w)].point == Opening(WorkApply(name, c))
    requires var t := Apply(s, Run(Worker(w), apply)); IsRun(t, actions) && StaysInSession(t, actions, w)
    requires var last := After(Apply(s, Run(Worker(w), apply)), actions);
             Enabled(last, Run(Worker(w), deliver)) && last.agents[Worker(w)].point.Handling? &&
             last.agents[Worker(w)].point.record.WorkDeliverData?
    ensures var t := Apply(s, Run(Worker(w), apply));
            var q := Apply(After(t, actions), Run(Worker(w), deliver)).pipe;
            q.latest.Some? && ScaledBy(q.latest.value, c) &&
            q.latest.value.configurationRevision == t.pipe.health.counters.calibrationChange + 1
  {
    hide *;
    ReachableIsOk(s);
    var t := Apply(s, Run(Worker(w), apply));
    var last := After(t, actions);
    DiscoveredComesIntoForce(s, w, name, c, apply);
    StepKeepsOk(s, Run(Worker(w), apply));
    RunKeepsConfiguration(t, actions, w);
    SoundMeans(last);
    RunnerIsThere(last, Worker(w), deliver);
    WorkerIsReady(last, w);
    var f := last.agents[Worker(w)].point.record.flight;
    assert FlightAt(last.agents[Worker(w)].point) == Some(f) by { DeliveringCarries(last.agents[Worker(w)].point); }
    FlightIsCurrent(last.pipe, f);
    DeliverStep(last, w, deliver);
  }

  lemma DeliveringCarries(p: Point)
    requires p.Handling? && p.record.WorkDeliverData?
    ensures FlightAt(p) == Some(p.record.flight)
  {
  }

  lemma DeliverStep(s: State, w: Tid, env: Env)
    requires Enabled(s, Run(Worker(w), env)) && s.agents[Worker(w)].point.Handling? &&
             s.agents[Worker(w)].point.record.WorkDeliverData?
    ensures Apply(s, Run(Worker(w), env)).pipe.latest == Some(s.agents[Worker(w)].point.record.flight.sample)
  {
    hide Prune, StartBody, StopBody, CallBody, SessionBody, ClosingBody;
  }
}
