/** The state guarded by the record and data mutexes, and what each locked section does to it.

  The last field is a history: it records what happened and decides nothing. */
module Pipeline {
  import opened Types
  import opened Sequence
  import opened FtHistory
  import opened RateWindow

  /** Where a record arrived: after which reset of the RDT tracker, and as which record since. */
  datatype Arrival = Arrival(epoch: nat, index: nat)

  /** A record on its way to the callback, with the outcome its session will have if it ends here. */
  datatype Flight = Flight(
    sample: Sample, outcome: Option<SessionResult>, progress: Progress, arrival: Arrival, receipt: nat)

  /** A delivered sample and which receipt of the client's life it came from. */
  datatype Delivered = Delivered(sample: Sample, progress: Progress, arrival: Arrival, receipt: nat)

  /** A record as it was received. */
  datatype Receipt = Receipt(record: RawRecord, at: real)

  /** What the RDT tracker saw between two resets, and what had been counted lost before. */
  datatype Stream = Stream(seen: seq<U32>, lostBefore: nat)

  datatype History = History(
    run: nat,                      // runs begun
    latestRun: nat,                // the run that delivered the latest sample
    receipts: seq<real>,           // times of records received in this run
    deliveries: seq<real>,         // times of samples delivered in this run
    packets: seq<bool>,            // in this run, whether each packet decoded
    received: seq<Receipt>,        // over the life of the client
    ftEvents: seq<FtEvent>,        // over the life of the client
    delivered: seq<Delivered>,     // over the life of the client
    suppressed: nat,               // over the life of the client
    nonFinite: nat,                // over the life of the client
    calibrations: seq<Calibration>,// by revision
    progress: Progress,            // unwrapped FT baseline
    past: seq<Stream>,             // the streams before the last reset of the RDT tracker
    stream: Stream,                // the stream since then
    inFlight: Option<Flight>)

  datatype Pipeline = Pipeline(
    health: HealthSnapshot,
    latest: Option<Sample>,
    lastDeliveryAt: real,
    lastRecordAt: real,
    generation: nat,
    deliveredGeneration: nat,
    receiveTimes: seq<real>,
    deliveryTimes: seq<real>,
    consecutiveMalformed: nat,
    rdt: RdtState,
    ft: FtState,
    history: History)

  const NEVER := 0.0 // the epoch of the steady clock stands for "not yet"

  const MALFORMED_STORM_THRESHOLD := 10

  const FRESH := Pipeline(
    HealthSnapshot(Stopped, NoFault, "", None, None, None, 0, 0, 0, None, ZERO_COUNTERS),
    None, NEVER, NEVER, 0, 0, [], [], 0, RDT_FRESH, FT_FRESH,
    History(0, 0, [], [], [], [], [], [], 0, 0, [], Progress(0, 0), [], Stream([], 0), None))

  // ---------------------------------------------------------------- session sections

  function MarkState(p: Pipeline, state: ClientState): Pipeline {
    p.(health := p.health.(state := state))
  }

  function EnterBackoff(p: Pipeline, message: string): Pipeline {
    var h := p.health;
    p.(health := h.(lastError := message, state := Backoff,
                    counters := h.counters.(reconnect := h.counters.reconnect + 1)))
  }

  /** The revision moves exactly when scales or units do. */
  function ApplyConfiguration(p: Pipeline, name: string, calibration: Calibration): Pipeline {
    var h := p.health;
    match h.configuration
    case None =>
      p.(health := h.(configuration := Some(SensorConfiguration(name, calibration, 1))),
         history := p.history.(calibrations := p.history.calibrations + [calibration]))
    case Some(previous) =>
      if previous.calibration == calibration then
        p.(health := h.(configuration := Some(SensorConfiguration(name, calibration, previous.revision))))
      else
        p.(health := h.(
             configuration := Some(SensorConfiguration(name, calibration, previous.revision + 1)),
             counters := h.counters.(calibrationChange := h.counters.calibrationChange + 1)),
           history := p.history.(calibrations := p.history.calibrations + [calibration]))
  }

  function ResetAfterBias(p: Pipeline): Pipeline {
    p.(rdt := RdtReset(p.rdt),
       history := p.history.(past := p.history.past + [p.history.stream], stream := Stream([], p.health.counters.lost)))
  }

  function BeginStream(p: Pipeline): Pipeline {
    var q := ResetAfterBias(p);
    q.(ft := FtBeginSession(p.ft), history := q.history.(ftEvents := p.history.ftEvents + [SessionBegins]))
  }

  function CountTimeout(p: Pipeline): Pipeline {
    var c := p.health.counters;
    p.(health := p.health.(counters := c.(timeout := c.timeout + 1)))
  }

  function CountMalformed(p: Pipeline): Pipeline {
    var c := p.health.counters;
    p.(health := p.health.(counters := c.(malformed := c.malformed + 1)),
       consecutiveMalformed := p.consecutiveMalformed + 1,
       history := p.history.(packets := p.history.packets + [false]))
  }

  predicate IsStorm(p: Pipeline) {
    p.consecutiveMalformed >= MALFORMED_STORM_THRESHOLD
  }

  function NoteValid(p: Pipeline): Pipeline {
    p.(consecutiveMalformed := 0, history := p.history.(packets := p.history.packets + [true]))
  }

  // ---------------------------------------------------------------- one record

  datatype Fate = Suppressed | RateLimited | Deliverable

  predicate Limited(config: Config, lastDeliveryAt: real, at: real) {
    config.sampleRateLimitHz > 0.0 && lastDeliveryAt != NEVER && at - lastDeliveryAt < 1.0 / config.sampleRateLimitHz
  }

  predicate IsSuppressed(config: Config, rdt: RdtKind, ft: FtKind, severity: Severity) {
    rdt == Duplicate || rdt == OutOfOrder || ft == Stall || ft == Backward ||
    (severity == Error && !config.deliverSamplesWithErrorStatus)
  }

  function FateOf(config: Config, p: Pipeline, r: RawRecord, at: real): Fate {
    if IsSuppressed(config, RdtObserve(p.rdt, r.rdtSequence).kind, FtObserve(p.ft, r.ftSequence),
                    ClassifyStatus(r.status))
    then Suppressed
    else if Limited(config, p.lastDeliveryAt, at) then RateLimited
    else Deliverable
  }

  /** A serious status ends the session whatever the policy; an FT discontinuity only under FailStop. */
  function OutcomeOf(config: Config, ft: FtKind, severity: Severity): Option<SessionResult> {
    if severity == Error then Some(SeriousStatus)
    else if config.policy == FailStop && ft == Stall then Some(FtStalled)
    else if config.policy == FailStop && ft == Backward then Some(FtWentBackward)
    else None
  }

  function Scaled(counts: seq<int>, scale: real): seq<real>
    requires scale > 0.0
  {
    seq(|counts|, i requires 0 <= i < |counts| => counts[i] as real / scale)
  }

  function MakeSample(r: RawRecord, c: SensorConfiguration, at: real): Sample {
    Sample(
      r.rdtSequence, r.ftSequence, r.status, r.wrench,
      Scaled(r.wrench[..3], c.calibration.countsPerForceUnit),
      Scaled(r.wrench[3..], c.calibration.countsPerTorqueUnit),
      c.calibration.forceUnit, c.calibration.torqueUnit, c.revision, at)
  }

  function CountRecord(c: Counters, rdt: RdtObservation, ft: FtKind, severity: Severity, fate: Fate): Counters {
    c.(
      received := c.received + 1,
      lost := c.lost + rdt.gap,
      duplicate := c.duplicate + One(rdt.kind == Duplicate),
      outOfOrder := c.outOfOrder + One(rdt.kind == OutOfOrder),
      ftStall := c.ftStall + One(ft == Stall),
      ftBackward := c.ftBackward + One(ft == Backward),
      ftRestart := c.ftRestart + One(ft == Restart),
      warning := c.warning + One(severity == Warn),
      deviceError := c.deviceError + One(severity == Error),
      rateLimited := c.rateLimited + One(fate == RateLimited))
  }

  function FlightOf(config: Config, p: Pipeline, r: RawRecord, at: real): Flight
    requires p.health.configuration.Some?
  {
    Flight(
      MakeSample(r, p.health.configuration.value, at),
      OutcomeOf(config, FtObserve(p.ft, r.ftSequence), ClassifyStatus(r.status)),
      Advance(p.history.progress, p.ft, r.ftSequence),
      Arrival(|p.history.past|, |p.history.stream.seen|),
      |p.history.received|)
  }

  /** The section of handle_record that holds both mutexes. */
  function Receive(config: Config, p: Pipeline, r: RawRecord, at: real): Pipeline
    requires p.health.configuration.Some?
  {
    var rdt, ft := RdtObserve(p.rdt, r.rdtSequence), FtObserve(p.ft, r.ftSequence);
    var fate := FateOf(config, p, r, at);
    var times := Prune(p.receiveTimes + [at], at);
    p.(
      health := p.health.(
        state := Streaming,
        receiveRate := |times|,
        lastRdtSequence := Some(r.rdtSequence),
        lastFtSequence := Some(r.ftSequence),
        lastStatus := r.status,
        counters := CountRecord(p.health.counters, rdt, ft, ClassifyStatus(r.status), fate)),
      lastRecordAt := at,
      receiveTimes := times,
      rdt := RdtNext(p.rdt, r.rdtSequence),
      ft := FtNext(p.ft, r.ftSequence),
      history := p.history.(
        receipts := p.history.receipts + [at],
        received := p.history.received + [Receipt(r, at)],
        ftEvents := p.history.ftEvents + [Observed(r.ftSequence)],
        suppressed := p.history.suppressed + One(fate == Suppressed),
        progress := Advance(p.history.progress, p.ft, r.ftSequence),
        stream := p.history.stream.(seen := p.history.stream.seen + [r.rdtSequence]),
        inFlight := if fate == Deliverable then Some(FlightOf(config, p, r, at)) else None))
  }

  /** The conversion produced a non-finite axis: the record is dropped outside every lock. */
  function DropNonFinite(p: Pipeline): Pipeline {
    p.(history := p.history.(nonFinite := p.history.nonFinite + 1, inFlight := None))
  }

  function RecordCallbackError(p: Pipeline, message: string): Pipeline {
    var c := p.health.counters;
    p.(health := p.health.(lastError := message, counters := c.(callbackError := c.callbackError + 1)),
       history := p.history.(inFlight := None))
  }

  function CallbackFailureOutcome(config: Config, outcome: Option<SessionResult>): Option<SessionResult> {
    if outcome.Some? || config.policy == Reconnect then outcome else Some(CallbackFailed)
  }

  /** The callback returned: the sample is the latest one and takes a rate-limit slot. */
  function Deliver(p: Pipeline, f: Flight, run: nat): Pipeline {
    var times := Prune(p.deliveryTimes + [f.sample.receivedAt], f.sample.receivedAt);
    var c := p.health.counters;
    p.(
      health := p.health.(deliveryRate := |times|, counters := c.(delivered := c.delivered + 1)),
      latest := Some(f.sample),
      lastDeliveryAt := f.sample.receivedAt,
      deliveredGeneration := p.generation,
      deliveryTimes := times,
      history := p.history.(
        latestRun := run,
        deliveries := p.history.deliveries + [f.sample.receivedAt],
        delivered := p.history.delivered + [Delivered(f.sample, f.progress, f.arrival, f.receipt)],
        inFlight := None))
  }

  // ---------------------------------------------------------------- observers, faults and start

  function PruneWindows(p: Pipeline, now: real): Pipeline {
    p.(receiveTimes := Prune(p.receiveTimes, now), deliveryTimes := Prune(p.deliveryTimes, now))
  }

  /** What health() returns once it has pruned the windows. */
  function Snapshot(p: Pipeline, latch: FaultCode, now: real): HealthSnapshot {
    p.health.(
      faultCode := latch,
      state := if latch != NoFault then Faulted else p.health.state,
      receiveRate := |p.receiveTimes|,
      deliveryRate := |p.deliveryTimes|,
      lastRecordAge := if p.lastRecordAt != NEVER then Some(now - p.lastRecordAt) else None)
  }

  function ShowFault(p: Pipeline, fault: Fault): Pipeline {
    p.(health := p.health.(state := Faulted, faultCode := fault.code, lastError := fault.message))
  }

  function ForgetDelivery(p: Pipeline): Pipeline {
    p.(lastDeliveryAt := NEVER)
  }

  function ResetForRun(p: Pipeline): Pipeline {
    p.(
      health := p.health.(state := Connecting, faultCode := NoFault, lastError := "", receiveRate := 0,
                          deliveryRate := 0),
      latest := None,
      lastRecordAt := NEVER,
      generation := p.generation + 1,
      deliveredGeneration := 0,
      receiveTimes := [],
      deliveryTimes := [],
      consecutiveMalformed := 0,
      history := p.history.(receipts := [], deliveries := [], packets := []))
  }

  function CountRun(p: Pipeline): Pipeline {
    p.(history := p.history.(run := p.history.run + 1))
  }
}
