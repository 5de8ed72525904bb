/** The client's record path in place: the fields behind the record and data mutexes and the sections that update them.

  Every method is one locked section, or several with nothing between them, and is tied to the pipeline event it
  performs; what the events keep is proved about them. */
module ClientRecords {
  import opened Types
  import opened Sequence
  import opened FtHistory
  import opened RateWindow
  import opened Events = Pipeline
  import opened PipelineInvariants
  import opened PipelineMeaning

  /** The latch keeps the first fault until it is reset. */
  class FaultLatch {
    var code: FaultCode

    constructor ()
      ensures code == NoFault
    {
      code := NoFault;
    }

    predicate Faulted()
      reads this
    {
      code != NoFault
    }

    method Publish(fault: Fault, health: HealthSnapshot) returns (published: bool, shown: HealthSnapshot)
      modifies this
      ensures published <==> !old(Faulted())
      ensures code == if published then fault.code else old(code)
      ensures shown == if published
                       then health.(state := ClientState.Faulted, faultCode := fault.code, lastError := fault.message)
                       else health
    {
      shown := health;
      if code != NoFault {
        return false, shown;
      }
      code := fault.code;
      shown := shown.(state := ClientState.Faulted);
      shown := shown.(faultCode := fault.code);
      shown := shown.(lastError := fault.message);
      return true, shown;
    }

    method Reset()
      modifies this
      ensures code == NoFault
    {
      code := NoFault;
    }
  }

  type Callback = Option<nat>

  /** The flags and the callback that start() arms for a worker. */
  class RunControl {
    var stopping: bool
    var workerExited: bool
    var callback: Callback

    constructor ()
      ensures !stopping && workerExited && callback.None?
    {
      stopping, workerExited, callback := false, true, None;
    }
  }

  /** What start() puts aside before it prepares a run. */
  datatype SavedRun = SavedRun(
    stopping: bool, workerExited: bool, callback: Callback,
    health: HealthSnapshot, latest: Option<Sample>, lastDeliveryAt: real, lastRecordAt: real,
    generation: nat, deliveredGeneration: nat, receiveTimes: seq<real>, deliveryTimes: seq<real>,
    consecutiveMalformed: nat, fault: FaultCode)

  /** What the locked part of handle_record decided about a record. */
  datatype Verdict = Verdict(deliver: bool, configuration: SensorConfiguration, outcome: Option<SessionResult>)

  class ClientData {
    const config: Config
    const rdtSequence: RdtSequenceTracker
    const ftSequence: FtSequenceTracker
    const faultLatch: FaultLatch
    const control: RunControl
    var health: HealthSnapshot
    var latest: Option<Sample>
    var lastDeliveryAt: real
    var lastRecordAt: real
    var generation: nat
    var deliveredGeneration: nat
    var receiveTimes: seq<real>
    var deliveryTimes: seq<real>
    var consecutiveMalformed: nat
    ghost var history: History

    ghost function View(): Events.Pipeline
      reads this, rdtSequence, ftSequence
    {
      Events.Pipeline.Pipeline(
        health, latest, lastDeliveryAt, lastRecordAt, generation, deliveredGeneration,
        receiveTimes, deliveryTimes, consecutiveMalformed, rdtSequence.State(), ftSequence.State(), history)
    }

    constructor (config: Config)
      ensures View() == FRESH && this.config == config && faultLatch.code == NoFault
      ensures fresh(rdtSequence) && fresh(ftSequence) && fresh(faultLatch) && fresh(control)
    {
      this.config := config;
      rdtSequence := new RdtSequenceTracker();
      ftSequence := new FtSequenceTracker();
      faultLatch := new FaultLatch();
      control := new RunControl();
      health := FRESH.health;
      latest := None;
      lastDeliveryAt, lastRecordAt := NEVER, NEVER;
      generation, deliveredGeneration := 0, 0;
      receiveTimes, deliveryTimes := [], [];
      consecutiveMalformed := 0;
      history := FRESH.history;
    }

    method ApplyConfiguration(name: string, calibration: Calibration)
      modifies this
      ensures View() == Events.ApplyConfiguration(old(View()), name, calibration)
      ensures InForce(old(View()), View(), name, calibration)
    {
      var revision := 1;
      ghost var changed := true;
      if health.configuration.Some? {
        var previous := health.configuration.value;
        if previous.calibration == calibration {
          revision := previous.revision;
          changed := false;
        } else {
          revision := previous.revision + 1;
          health := health.(counters := health.counters.(calibrationChange := health.counters.calibrationChange + 1));
        }
      }
      health := health.(configuration := Some(SensorConfiguration(name, calibration, revision)));
      if changed {
        history := history.(calibrations := history.calibrations + [calibration]);
      }
    }

    method BackOff(message: string)
      modifies this
      ensures View() == EnterBackoff(old(View()), message)
    {
      health := health.(lastError := message);
      health := health.(state := Backoff);
      health := health.(counters := health.counters.(reconnect := health.counters.reconnect + 1));
    }

    method BeginStream()
      modifies this, rdtSequence, ftSequence
      ensures View() == Events.BeginStream(old(View()))
    {
      rdtSequence.Reset();
      ftSequence.BeginSession();
      history := history.(
        past := history.past + [history.stream], stream := Stream([], health.counters.lost),
        ftEvents := history.ftEvents + [SessionBegins]);
    }

    method CountTimeout()
      modifies this
      ensures View() == Events.CountTimeout(old(View()))
    {
      health := health.(counters := health.counters.(timeout := health.counters.timeout + 1));
    }

    method CountMalformed() returns (storm: bool)
      modifies this
      ensures View() == Events.CountMalformed(old(View()))
      ensures storm <==> IsStorm(View())
    {
      health := health.(counters := health.counters.(malformed := health.counters.malformed + 1));
      consecutiveMalformed := consecutiveMalformed + 1;
      history := history.(packets := history.packets + [false]);
      return consecutiveMalformed >= MALFORMED_STORM_THRESHOLD;
    }

    method NoteValid()
      modifies this
      ensures View() == Events.NoteValid(old(View()))
    {
      consecutiveMalformed := 0;
      history := history.(packets := history.packets + [true]);
    }

    method CountRdt(rdt: RdtObservation) returns (deliver: bool)
      modifies this`health
      ensures deliver <==> Accepts(rdt.kind)
      ensures health == old(health).(counters := old(health.counters).(
                lost := old(health.counters.lost) + (if rdt.kind == Gap then rdt.gap else 0),
                duplicate := old(health.counters.duplicate) + One(rdt.kind == Duplicate),
                outOfOrder := old(health.counters.outOfOrder) + One(rdt.kind == OutOfOrder)))
    {
      var c := health.counters;
      deliver := true;
      match rdt.kind {
        case Gap =>
          c := c.(lost := c.lost + rdt.gap);
        case Duplicate =>
          c := c.(duplicate := c.duplicate + 1);
          deliver := false;
        case OutOfOrder =>
          c := c.(outOfOrder := c.outOfOrder + 1);
          deliver := false;
        case _ =>
      }
      health := health.(counters := c);
    }

    method CountFt(ft: FtKind)
      modifies this`health
      ensures health == old(health).(counters := old(health.counters).(
                ftStall := old(health.counters.ftStall) + One(ft == Stall),
                ftBackward := old(health.counters.ftBackward) + One(ft == Backward),
                ftRestart := old(health.counters.ftRestart) + One(ft == Restart)))
    {
      var c := health.counters;
      match ft {
        case Stall => c := c.(ftStall := c.ftStall + 1);
        case Backward => c := c.(ftBackward := c.ftBackward + 1);
        case Restart => c := c.(ftRestart := c.ftRestart + 1);
        case _ =>
      }
      health := health.(counters := c);
    }

    /** What the status and the FT kind mean for the sample and for the session. */
    method Judge(ft: FtKind, severity: Severity, accepted: bool) returns (deliver: bool, outcome: Option<SessionResult>)
      modifies this`health
      ensures outcome == OutcomeOf(config, ft, severity)
      ensures severity == Error ==> outcome == Some(SeriousStatus)
      ensures severity != Error && config.policy == Reconnect ==> outcome.None?
      ensures severity != Error && config.policy == FailStop ==>
                (outcome == Some(FtStalled) <==> ft == Stall) &&
                (outcome == Some(FtWentBackward) <==> ft == Backward) &&
                (outcome.None? <==> ft != Stall && ft != Backward)
      ensures deliver <==> accepted && ft != Stall && ft != Backward &&
                           (severity == Error ==> config.deliverSamplesWithErrorStatus)
      ensures health == old(health).(counters := old(health.counters).(
                warning := old(health.counters.warning) + One(severity == Warn),
                deviceError := old(health.counters.deviceError) + One(severity == Error)))
    {
      deliver, outcome := accepted, None;
      var c := health.counters;
      if severity == Warn {
        c := c.(warning := c.warning + 1);
      } else if severity == Error {
        c := c.(deviceError := c.deviceError + 1);
        deliver := config.deliverSamplesWithErrorStatus && deliver;
        outcome := Some(SeriousStatus);
      }
      health := health.(counters := c);

      if outcome.None? && ft == Stall {
        outcome := Some(FtStalled);
      } else if outcome.None? && ft == Backward {
        outcome := Some(FtWentBackward);
      }
      if ft == Stall || ft == Backward {
        deliver := false;
        if config.policy == Reconnect && (outcome == Some(FtStalled) || outcome == Some(FtWentBackward)) {
          outcome := None;
        }
      }
    }

    /** The fate of a record with these observations. */
    function FateHere(rdt: RdtKind, ft: FtKind, severity: Severity, at: real): Fate
      reads this
    {
      if IsSuppressed(config, rdt, ft, severity) then Suppressed
      else if Limited(config, lastDeliveryAt, at) then RateLimited
      else Deliverable
    }

    /** The counters of one record, apart from the rate limit. */
    method Tally(rdt: RdtObservation, ft: FtKind, severity: Severity)
      returns (deliver: bool, outcome: Option<SessionResult>)
      requires rdt.kind != Gap ==> rdt.gap == 0
      modifies this`health
      ensures deliver <==> !IsSuppressed(config, rdt.kind, ft, severity)
      ensures outcome == OutcomeOf(config, ft, severity)
      ensures health == old(health).(counters := CountRecord(old(health.counters), rdt, ft, severity, Deliverable))
    {
      hide OutcomeOf, CountRecord;
      ghost var before := health.counters;
      health := health.(counters := health.counters.(received := health.counters.received + 1));
      deliver := CountRdt(rdt);
      CountFt(ft);
      deliver, outcome := Judge(ft, severity, deliver);
      TallyIsCount(before, health.counters, rdt, ft, severity);
    }

    /** What the data mutex guards of a record. */
    method Account(record: RawRecord, at: real, rdt: RdtObservation, ft: FtKind, severity: Severity)
      returns (deliver: bool, outcome: Option<SessionResult>)
      requires rdt.kind != Gap ==> rdt.gap == 0
      modifies this`health, this`receiveTimes, this`lastRecordAt
      ensures lastRecordAt == at && receiveTimes == Prune(old(receiveTimes) + [at], at)
      ensures deliver <==> FateHere(rdt.kind, ft, severity, at) == Deliverable
      ensures outcome == OutcomeOf(config, ft, severity)
      ensures health == old(health).(
                state := Streaming,
                receiveRate := |receiveTimes|,
                lastRdtSequence := Some(record.rdtSequence),
                lastFtSequence := Some(record.ftSequence),
                lastStatus := record.status,
                counters := CountRecord(
                  old(health.counters), rdt, ft, severity, FateHere(rdt.kind, ft, severity, at)))
    {
      hide Prune, IsSuppressed, OutcomeOf, CountRecord;
      ghost var before := health.counters;
      health := health.(state := Streaming);
      receiveTimes := receiveTimes + [at];
      receiveTimes := PruneRateWindow(receiveTimes, at);
      health := health.(
        receiveRate := |receiveTimes|,
        lastRdtSequence := Some(record.rdtSequence),
        lastFtSequence := Some(record.ftSequence),
        lastStatus := record.status);
      lastRecordAt := at;

      deliver, outcome := Tally(rdt, ft, severity);
      LimitCounts(before, rdt, ft, severity);
      if deliver && config.sampleRateLimitHz > 0.0 && lastDeliveryAt != NEVER &&
         at - lastDeliveryAt < 1.0 / config.sampleRateLimitHz
      {
        deliver := false;
        health := health.(counters := health.counters.(rateLimited := health.counters.rateLimited + 1));
      }
    }

    /** The section of handle_record that holds both mutexes; None is its throw. */
    method Receive(record: RawRecord, at: real) returns (r: Option<Verdict>)
      modifies this, rdtSequence, ftSequence
      ensures old(health.configuration).None? ==>
                r.None? && View() == old(View()).(rdt := RdtNext(old(View()).rdt, record.rdtSequence),
                                                  ft := FtNext(old(View()).ft, record.ftSequence))
      ensures old(health.configuration).Some? ==>
                View() == Events.Receive(config, old(View()), record, at) &&
                r == Some(Verdict(
                  FateOf(config, old(View()), record, at) == Deliverable,
                  old(health.configuration).value,
                  FlightOf(config, old(View()), record, at).outcome))
    {
      hide Prune, MakeSample, Advance, CountRecord, IsSuppressed, Limited, OutcomeOf, RdtObserve, FtObserve;
      ghost var p := View();
      var rdt := rdtSequence.Observe(record.rdtSequence);
      var ft := ftSequence.Observe(record.ftSequence);
      var severity := ClassifyStatus(record.status);
      if health.configuration.None? {
        return None;
      }
      var configuration := health.configuration.value;
      GapsOnly(p.rdt, record.rdtSequence);
      var deliver, outcome := Account(record, at, rdt, ft, severity);
      history := Events.Receive(config, p, record, at).history;
      return Some(Verdict(deliver, configuration, outcome));
    }

    method RecordCallbackError(message: string)
      modifies this
      ensures View() == Events.RecordCallbackError(old(View()), message)
    {
      health := health.(counters := health.counters.(callbackError := health.counters.callbackError + 1));
      health := health.(lastError := message);
      history := history.(inFlight := None);
    }

    method CompleteDelivery(sample: Sample, ghost flight: Flight)
      requires flight.sample == sample
      modifies this
      ensures View() == Events.Deliver(old(View()), flight, old(history.run))
    {
      hide Prune;
      ghost var p := View();
      lastDeliveryAt := sample.receivedAt;
      latest := Some(sample);
      health := health.(counters := health.counters.(delivered := health.counters.delivered + 1));
      deliveryTimes := deliveryTimes + [sample.receivedAt];
      deliveryTimes := PruneRateWindow(deliveryTimes, sample.receivedAt);
      health := health.(deliveryRate := |deliveryTimes|);
      deliveredGeneration := generation;
      history := Events.Deliver(p, flight, p.history.run).history;
    }

    /** One record from the trackers to the callback, with nothing in between. The environment decides whether
      every axis converts to a finite number and what the callback throws. */
    method HandleRecord(record: RawRecord, at: real, finite: bool, thrown: Option<string>)
      returns (r: Option<Option<SessionResult>>)
      modifies this, rdtSequence, ftSequence
      ensures r.None? <==> old(health.configuration).None?
      ensures r.Some? ==> (View(), r.value) == Handled(config, old(View()), record, at, finite, thrown)
      ensures history.packets == old(history.packets)
    {
      hide Prune, MakeSample, Advance, FateOf, OutcomeOf, CountRecord;
      ghost var p := View();
      var received := Receive(record, at);
      if received.None? {
        return None;
      }
      var verdict := received.value;
      if !verdict.deliver {
        return Some(verdict.outcome);
      }
      ghost var flight := FlightOf(config, p, record, at);
      var sample := MakeSample(record, verdict.configuration, at);
      if !finite {
        history := history.(nonFinite := history.nonFinite + 1, inFlight := None);
        return Some(Some(ConfigurationFailed));
      }
      if thrown.Some? {
        RecordCallbackError(thrown.value);
        if verdict.outcome.Some? || config.policy == Reconnect {
          return Some(verdict.outcome);
        }
        return Some(Some(CallbackFailed));
      }
      CompleteDelivery(sample, flight);
      return Some(verdict.outcome);
    }

    /** health(): prunes both windows and reports the latch over the stored state. */
    method Health(now: real) returns (snapshot: HealthSnapshot)
      modifies this
      ensures View() == PruneWindows(old(View()), now)
      ensures snapshot == Snapshot(View(), faultLatch.code, now)
    {
      hide Prune;
      receiveTimes := PruneRateWindow(receiveTimes, now);
      deliveryTimes := PruneRateWindow(deliveryTimes, now);
      snapshot := health;
      snapshot := snapshot.(faultCode := faultLatch.code);
      if snapshot.faultCode != NoFault {
        snapshot := snapshot.(state := ClientState.Faulted);
      }
      snapshot := snapshot.(receiveRate := |receiveTimes|);
      snapshot := snapshot.(deliveryRate := |deliveryTimes|);
      snapshot := snapshot.(lastRecordAge := None);
      if lastRecordAt != NEVER {
        snapshot := snapshot.(lastRecordAge := Some(now - lastRecordAt));
      }
    }

    /** A latched fault is the one the snapshot shows. */
    predicate LatchShown()
      reads this, faultLatch
    {
      faultLatch.Faulted() ==> health.state == ClientState.Faulted && health.faultCode == faultLatch.code
    }

    method ClearHealth()
      modifies this`health
      ensures health == old(health).(
                state := Connecting, faultCode := NoFault, lastError := "", receiveRate := 0, deliveryRate := 0)
    {
      health := health.(state := Connecting);
      health := health.(faultCode := NoFault, lastError := "", receiveRate := 0, deliveryRate := 0);
    }

    method ForgetLastDelivery()
      modifies this`lastDeliveryAt
      ensures lastDeliveryAt == NEVER
    {
      lastDeliveryAt := NEVER;
    }

    method ResetForRun()
      modifies this, faultLatch
      ensures View() == Events.ResetForRun(old(View())) && faultLatch.code == NoFault
    {
      hide Events.ResetForRun;
      ResetShape(View());
      faultLatch.Reset();
      ClearHealth();
      latest := None;
      lastRecordAt := NEVER;
      generation := generation + 1;
      deliveredGeneration := 0;
      receiveTimes, deliveryTimes := [], [];
      consecutiveMalformed := 0;
      history := history.(receipts := [], deliveries := [], packets := []);
    }

    /** The creation branch of start(): a thread that cannot be made undoes every write of the branch. */
    method PrepareRun(callback: Callback, created: bool)
      requires LatchShown()
      modifies this, faultLatch, control
      ensures created ==>
                View() == CountRun(Events.ResetForRun(ForgetDelivery(old(View())))) && faultLatch.code == NoFault &&
                !control.stopping && !control.workerExited && control.callback == callback
      ensures !created ==>
                View() == old(View()) && faultLatch.code == old(faultLatch.code) &&
                control.stopping == old(control.stopping) && control.workerExited == old(control.workerExited) &&
                control.callback == old(control.callback)
    {
      hide Events.ResetForRun;
      ghost var before := history;
      var saved := SavedRun(
        control.stopping, control.workerExited, control.callback,
        health, latest, lastDeliveryAt, lastRecordAt, generation, deliveredGeneration,
        receiveTimes, deliveryTimes, consecutiveMalformed, faultLatch.code);
      control.callback := None;
      ForgetLastDelivery();
      ResetForRun();
      control.stopping := false;
      control.workerExited := false;
      control.callback := callback;
      if created {
        history := history.(run := history.run + 1);
        return;
      }
      RollBack(saved);
      history := before;
    }

    method RollBack(saved: SavedRun)
      requires saved.fault != NoFault ==>
               saved.health.state == ClientState.Faulted && saved.health.faultCode == saved.fault
      modifies this, faultLatch, control
      ensures control.stopping == saved.stopping && control.workerExited == saved.workerExited
      ensures control.callback == saved.callback
      ensures health == saved.health && latest == saved.latest && faultLatch.code == saved.fault
      ensures lastDeliveryAt == saved.lastDeliveryAt && lastRecordAt == saved.lastRecordAt
      ensures generation == saved.generation && deliveredGeneration == saved.deliveredGeneration
      ensures receiveTimes == saved.receiveTimes && deliveryTimes == saved.deliveryTimes
      ensures consecutiveMalformed == saved.consecutiveMalformed && history == old(history)
    {
      control.stopping := saved.stopping;
      control.workerExited := saved.workerExited;
      control.callback := saved.callback;
      lastDeliveryAt := saved.lastDeliveryAt;
      health := saved.health;
      latest := saved.latest;
      lastRecordAt := saved.lastRecordAt;
      generation, deliveredGeneration := saved.generation, saved.deliveredGeneration;
      receiveTimes, deliveryTimes := saved.receiveTimes, saved.deliveryTimes;
      consecutiveMalformed := saved.consecutiveMalformed;
      faultLatch.Reset();
      if saved.fault != NoFault {
        SetFault(Fault(saved.fault, saved.health.lastError));
      }
    }

    method SetFault(fault: Fault)
      modifies this, faultLatch
      ensures View() == if old(faultLatch.Faulted()) then old(View()) else ShowFault(old(View()), fault)
      ensures faultLatch.code == if old(faultLatch.Faulted()) then old(faultLatch.code) else fault.code
    {
      var published, shown := faultLatch.Publish(fault, health);
      health := shown;
    }
  }

  lemma ResetShape(p: Events.Pipeline)
    ensures ResetForRun(p) ==
            Events.Pipeline.Pipeline(
              p.health.(state := Connecting, faultCode := NoFault, lastError := "", receiveRate := 0,
                        deliveryRate := 0),
              None, p.lastDeliveryAt, NEVER, p.generation + 1, 0, [], [], 0, p.rdt, p.ft,
              p.history.(receipts := [], deliveries := [], packets := []))
  {
  }

  /** The counters one by one are the counters of a record that nothing limits. */
  lemma TallyIsCount(before: Counters, after: Counters, rdt: RdtObservation, ft: FtKind, severity: Severity)
    requires rdt.kind != Gap ==> rdt.gap == 0
    requires after == before.(
               received := before.received + 1,
               lost := before.lost + (if rdt.kind == Gap then rdt.gap else 0),
               duplicate := before.duplicate + One(rdt.kind == Duplicate),
               outOfOrder := before.outOfOrder + One(rdt.kind == OutOfOrder),
               ftStall := before.ftStall + One(ft == Stall),
               ftBackward := before.ftBackward + One(ft == Backward),
               ftRestart := before.ftRestart + One(ft == Restart),
               warning := before.warning + One(severity == Warn),
               deviceError := before.deviceError + One(severity == Error))
    ensures after == CountRecord(before, rdt, ft, severity, Deliverable)
  {
  }

  /** Only the rate limit's own counter depends on the fate. */
  lemma LimitCounts(c: Counters, rdt: RdtObservation, ft: FtKind, severity: Severity)
    ensures var d := CountRecord(c, rdt, ft, severity, Deliverable);
            CountRecord(c, rdt, ft, severity, RateLimited) == d.(rateLimited := d.rateLimited + 1) &&
            CountRecord(c, rdt, ft, severity, Suppressed) == d
  {
  }

  lemma GapsOnly(s: RdtState, current: U32)
    ensures RdtObserve(s, current).kind != Gap ==> RdtObserve(s, current).gap == 0
  {
  }

  /** What handling a record comes to: the state it leaves and the outcome it reports. */
  function Handled(config: Config, p: Events.Pipeline, r: RawRecord, at: real, finite: bool,
                   thrown: Option<string>): (Events.Pipeline, Option<SessionResult>)
    requires p.health.configuration.Some?
  {
    var q, flight := Events.Receive(config, p, r, at), FlightOf(config, p, r, at);
    if FateOf(config, p, r, at) != Deliverable then (q, flight.outcome)
    else if !finite then (DropNonFinite(q), Some(ConfigurationFailed))
    else if thrown.Some?
    then (Events.RecordCallbackError(q, thrown.value), CallbackFailureOutcome(config, flight.outcome))
    else (Deliver(q, flight, q.history.run), flight.outcome)
  }

  /** The state health() and the callback may rely on between two records. */
  ghost predicate BetweenRecords(p: Events.Pipeline, clock: real) {
    Logged(p) && Synced(p) && WindowsFaithful(p, clock) && p.health.configuration.Some?
  }

  /** What becomes of one record, told from the histories alone.

    It is delivered exactly when it is not refused, in time, finite and its callback returns, and then the latest sample
    is that record, scaled with the calibration in force. */
  lemma RecordIsHandled(config: Config, p: Events.Pipeline, r: RawRecord, at: real, finite: bool,
                        thrown: Option<string>, clock: real)
    requires BetweenRecords(p, clock)
    ensures var (q, outcome) := Handled(config, p, r, at, finite, thrown);
            var passes := !IsRefused(config, p, r) && IsInTime(config, p, at);
            if passes && finite && thrown.None? then
              q.latest.Some? && IsSampleOf(q.latest.value, r, at, p.health.configuration.value) &&
              q.lastDeliveryAt == at && q.deliveredGeneration == p.generation &&
              q.history.deliveries == p.history.deliveries + [at] && outcome == EndsWith(config, p, r)
            else
              q.latest == p.latest && q.lastDeliveryAt == p.lastDeliveryAt &&
              q.history.deliveries == p.history.deliveries &&
              outcome ==
                if passes && !finite then Some(ConfigurationFailed)
                else if passes && config.policy == FailStop && EndsWith(config, p, r).None? then Some(CallbackFailed)
                else EndsWith(config, p, r)
  {
    hide FateOf, FlightOf, IsSampleOf, EndsWith, IsRefused, IsInTime, Prune, CountRecord, Logged, Synced,
      WindowsFaithful,
      CallbackFailureOutcome, RdtObserve, RdtNext, FtObserve, FtNext, Advance;
    FateExactly(config, p, r, at, clock);
    OutcomeExactly(config, p, r, at);
    CallbackFailureExactly(config, EndsWith(config, p, r));
    FlightShowsRecord(config, p, r, at);
    assert FlightOf(config, p, r, at).sample.receivedAt == at by { FlightIsStamped(config, p, r, at); }
  }

  lemma FlightIsStamped(config: Config, p: Events.Pipeline, r: RawRecord, at: real)
    requires p.health.configuration.Some?
    ensures FlightOf(config, p, r, at).sample.receivedAt == at
  {
  }
}
