/** What the locked sections mean, told from the histories alone: the fate, the outcome and the counters of a record,
  the sample it becomes, the calibration in force and the age health() shows. */
module PipelineMeaning {
  import opened Types
  import opened Sequence
  import opened FtHistory
  import opened RateWindow
  import opened Pipeline
  import opened PipelineInvariants

  // ---------------------------------------------------------------- what is wrong with a record

  predicate IsWarning(status: U32) {
    status == 0x8001_0000
  }

  predicate IsDeviceError(status: U32) {
    status != 0 && status != 0x8001_0000
  }

  predicate RepeatsLast(rdt: RdtState, sequence: U32) {
    rdt.hasLast && sequence == rdt.previous
  }

  predicate CameLate(rdt: RdtState, sequence: U32) {
    rdt.hasLast && !IsAhead(rdt.previous, sequence)
  }

  /** How many records are missing between the last one and this one. */
  function Missing(rdt: RdtState, sequence: U32): nat {
    if !rdt.hasLast || sequence == rdt.previous || !IsAhead(rdt.previous, sequence) then 0
    else (sequence - rdt.previous) % 0x1_0000_0000 - 1
  }

  /** The record is not to be delivered, whatever the rate limit says. */
  predicate IsRefused(config: Config, p: Pipeline, r: RawRecord) {
    var ft := KindByHistory(p.history.ftEvents, r.ftSequence);
    RepeatsLast(p.rdt, r.rdtSequence) || CameLate(p.rdt, r.rdtSequence) || ft == Stall || ft == Backward ||
    (IsDeviceError(r.status) && !config.deliverSamplesWithErrorStatus)
  }

  /** No delivery of the run is closer than the limit allows. */
  predicate IsInTime(config: Config, p: Pipeline, at: real) {
    var ds := p.history.deliveries;
    config.sampleRateLimitHz <= 0.0 || ds == [] || at - ds[|ds| - 1] >= 1.0 / config.sampleRateLimitHz
  }

  lemma RdtKinds(rdt: RdtState, sequence: U32)
    ensures var o := RdtObserve(rdt, sequence);
            (o.kind == Duplicate <==> RepeatsLast(rdt, sequence)) &&
            (o.kind == OutOfOrder <==> CameLate(rdt, sequence)) && o.gap == Missing(rdt, sequence)
  {
    if rdt.hasLast {
      AheadOrBehind(rdt.previous, sequence);
      if Distance(rdt.previous, sequence) > 0 {
        StepIsDistance(rdt.previous, sequence);
      }
    }
  }

  lemma StepIsDistance(from: U32, to: U32)
    requires Distance(from, to) > 0
    ensures (to - from) % 0x1_0000_0000 == Distance(from, to)
  {
  }

  lemma FtKinds(p: Pipeline, sequence: U32)
    requires Logged(p)
    ensures FtObserve(p.ft, sequence) == KindByHistory(p.history.ftEvents, sequence)
  {
    TrackerFollowsHistory(p.history.ftEvents);
  }

  /** A record is dropped exactly when something is wrong with it, limited exactly when it is too early, and is
    deliverable otherwise. */
  lemma FateExactly(config: Config, p: Pipeline, r: RawRecord, at: real, clock: real)
    requires Logged(p) && Synced(p) && WindowsFaithful(p, clock)
    ensures FateOf(config, p, r, at) ==
            if IsRefused(config, p, r) then Suppressed else if IsInTime(config, p, at) then Deliverable
            else RateLimited
  {
    hide RdtObserve, FtObserve, KindByHistory, TrackerAfter, Missing, RepeatsLast, CameLate, LogOf, TimesOf, Faithful;
    RdtKinds(p.rdt, r.rdtSequence);
    FtKinds(p, r.ftSequence);
  }

  // ---------------------------------------------------------------- what a record means for its session

  /** A device error ends the session; an FT discontinuity ends it under FailStop only. */
  function EndsWith(config: Config, p: Pipeline, r: RawRecord): Option<SessionResult> {
    var ft := KindByHistory(p.history.ftEvents, r.ftSequence);
    if IsDeviceError(r.status) then Some(SeriousStatus)
    else if config.policy == Reconnect then None
    else if ft == Stall then Some(FtStalled)
    else if ft == Backward then Some(FtWentBackward)
    else None
  }

  lemma OutcomeExactly(config: Config, p: Pipeline, r: RawRecord, at: real)
    requires Logged(p) && p.health.configuration.Some?
    ensures FlightOf(config, p, r, at).outcome == EndsWith(config, p, r)
  {
    hide FtObserve, KindByHistory, TrackerAfter, MakeSample, Advance, LogOf, TimesOf;
    FtKinds(p, r.ftSequence);
  }

  /** A failed callback leaves an outcome as it is, and ends the session by itself under FailStop only. */
  lemma CallbackFailureExactly(config: Config, outcome: Option<SessionResult>)
    ensures var after := CallbackFailureOutcome(config, outcome);
            (outcome.Some? ==> after == outcome) &&
            (outcome.None? && config.policy == Reconnect ==> after.None?) &&
            (outcome.None? && config.policy == FailStop ==> after == Some(CallbackFailed))
  {
  }

  // ---------------------------------------------------------------- what a record counts

  /** One record raises exactly these counters. */
  lemma RecordIsCounted(config: Config, p: Pipeline, r: RawRecord, at: real, clock: real)
    requires Logged(p) && Synced(p) && WindowsFaithful(p, clock) && p.health.configuration.Some?
    ensures var c, ft := p.health.counters, KindByHistory(p.history.ftEvents, r.ftSequence);
            Receive(config, p, r, at).health.counters == c.(
              received := c.received + 1,
              lost := c.lost + Missing(p.rdt, r.rdtSequence),
              duplicate := c.duplicate + One(RepeatsLast(p.rdt, r.rdtSequence)),
              outOfOrder := c.outOfOrder + One(CameLate(p.rdt, r.rdtSequence)),
              ftStall := c.ftStall + One(ft == Stall),
              ftBackward := c.ftBackward + One(ft == Backward),
              ftRestart := c.ftRestart + One(ft == Restart),
              warning := c.warning + One(IsWarning(r.status)),
              deviceError := c.deviceError + One(IsDeviceError(r.status)),
              rateLimited := c.rateLimited + One(!IsRefused(config, p, r) && !IsInTime(config, p, at)))
  {
    hide RdtObserve, FtObserve, FateOf, KindByHistory, IsRefused, IsInTime, RepeatsLast, CameLate, Missing, Prune,
      LogOf,
      TimesOf, TrackerAfter, Faithful;
    RdtKinds(p.rdt, r.rdtSequence);
    FtKinds(p, r.ftSequence);
    FateExactly(config, p, r, at, clock);
  }

  /** What health() shows of the record itself. */
  lemma RecordIsShown(config: Config, p: Pipeline, r: RawRecord, at: real)
    requires p.health.configuration.Some?
    ensures var h := Receive(config, p, r, at).health;
            h.state == Streaming && h.lastRdtSequence == Some(r.rdtSequence) &&
            h.lastFtSequence == Some(r.ftSequence) && h.lastStatus == r.status &&
            h.configuration == p.health.configuration && h.lastError == p.health.lastError &&
            h.faultCode == p.health.faultCode
  {
  }

  // ---------------------------------------------------------------- the sample of a record

  /** The sample shows the record received, scaled with the configuration and marked with its revision. */
  ghost predicate IsSampleOf(s: Sample, r: RawRecord, at: real, c: SensorConfiguration) {
    Shows(s, Receipt(r, at)) && ScaledBy(s, c.calibration) && s.configurationRevision == c.revision
  }

  lemma FlightShowsRecord(config: Config, p: Pipeline, r: RawRecord, at: real)
    requires p.health.configuration.Some?
    ensures IsSampleOf(FlightOf(config, p, r, at).sample, r, at, p.health.configuration.value)
  {
    hide ScaledBy, Advance, OutcomeOf, FtObserve;
    SampleIsScaled(r, p.health.configuration.value, at);
  }

  // ---------------------------------------------------------------- the calibration in force

  /** A discovered calibration comes into force, and only a change of it moves the revision. */
  ghost predicate InForce(p: Pipeline, q: Pipeline, name: string, c: Calibration) {
    var before, after := p.health, q.health;
    var changed := before.configuration.Some? && before.configuration.value.calibration != c;
    after.configuration.Some? && after.configuration.value.calibration == c &&
    after.configuration.value.productName == name &&
    after.configuration.value.revision ==
      (if before.configuration.None? then 1 else before.configuration.value.revision + One(changed)) &&
    after == before.(configuration := after.configuration,
                     counters := before.counters.(
                       calibrationChange := before.counters.calibrationChange + One(changed)))
  }

  lemma ConfigurationComesIntoForce(p: Pipeline, name: string, c: Calibration)
    ensures var q := ApplyConfiguration(p, name, c);
            InForce(p, q, name, c) && q == p.(health := q.health, history := q.history)
  {
  }

  // ---------------------------------------------------------------- what health() shows

  /** The latch overrides the stored state; the age is the time since the last record of the run. */
  lemma SnapshotExactly(p: Pipeline, latch: FaultCode, now: real)
    requires Logged(p) && WindowsFaithful(p, now)
    ensures Snapshot(PruneWindows(p, now), latch, now) == p.health.(
              faultCode := latch,
              state := if latch == NoFault then p.health.state else Faulted,
              receiveRate := |Recent(p.history.receipts, now)|,
              deliveryRate := |Recent(p.history.deliveries, now)|,
              lastRecordAge := if p.history.receipts == [] then None
                               else Some(now - p.history.receipts[|p.history.receipts| - 1]))
  {
    hide LogOf, TrackerAfter, Prune, Recent;
    RatesAreCounts(p, latch, now);
  }
}
