/** What every locked section keeps about records, windows, revisions, order and the rate limit. */
module PipelineInvariants {
  import opened Types
  import opened Sequence
  import opened FtHistory
  import opened RateWindow
  import opened RateLimit
  import opened Pipeline

  // ---------------------------------------------------------------- conservation

  /** Every received record is delivered, limited, failed in its callback, suppressed, dropped or in flight. */
  ghost predicate Conserved(p: Pipeline) {
    var c, h := p.health.counters, p.history;
    c.received == c.delivered + c.rateLimited + c.callbackError + h.suppressed + h.nonFinite + One(h.inFlight.Some?) &&
    h.suppressed <= c.duplicate + c.outOfOrder + c.ftStall + c.ftBackward + c.deviceError &&
    c.delivered == |h.delivered|
  }

  // ---------------------------------------------------------------- windows

  ghost predicate WindowsFaithful(p: Pipeline, clock: real) {
    Faithful(p.receiveTimes, p.history.receipts, clock) &&
    Faithful(p.deliveryTimes, p.history.deliveries, clock) &&
    (forall i | 0 <= i < |p.history.deliveries| :: NEVER < p.history.deliveries[i]) &&
    NEVER < clock &&
    (p.history.inFlight.Some? ==> ReceiptFits(p, p.history.inFlight.value.sample.receivedAt, clock))
  }

  /** A record stamped at this time may still be delivered in order. */
  ghost predicate ReceiptFits(p: Pipeline, at: real, clock: real) {
    NEVER < at <= clock &&
    (p.history.deliveries != [] ==> p.history.deliveries[|p.history.deliveries| - 1] <= at)
  }

  // ---------------------------------------------------------------- revisions

  /** The counts are the forces and torques times the divisors of the calibration. */
  ghost predicate ScaledBy(s: Sample, c: Calibration) {
    |s.force| == 3 && |s.torque| == 3 && s.forceUnit == c.forceUnit && s.torqueUnit == c.torqueUnit &&
    forall i | 0 <= i < 3 ::
      s.force[i] * c.countsPerForceUnit == s.rawWrench[i] as real &&
      s.torque[i] * c.countsPerTorqueUnit == s.rawWrench[i + 3] as real
  }

  /** The sample carries a revision and was scaled with the calibration of that revision. */
  ghost predicate OfRevision(s: Sample, calibrations: seq<Calibration>) {
    1 <= s.configurationRevision <= |calibrations| &&
    ScaledBy(s, calibrations[s.configurationRevision - 1])
  }

  ghost predicate RevisionsMeanCalibrations(p: Pipeline) {
    RevisionsOf(p.health.configuration, p.health.counters.calibrationChange, p.history.calibrations,
                p.history.delivered, p.history.inFlight)
  }

  ghost predicate RevisionsOf(configuration: Option<SensorConfiguration>, changes: nat, calibrations: seq<Calibration>,
                              samples: seq<Delivered>, inFlight: Option<Flight>)
  {
    (configuration.None? ==> calibrations == [] && changes == 0) &&
    (configuration.Some? ==>
      configuration.value.revision == changes + 1 == |calibrations| &&
      configuration.value.calibration == calibrations[|calibrations| - 1]) &&
    (forall i | 1 <= i < |calibrations| :: calibrations[i - 1] != calibrations[i]) &&
    (forall i | 0 <= i < |samples| :: OfRevision(samples[i].sample, calibrations)) &&
    (forall i, j | 0 <= i < j < |samples| ::
      samples[i].sample.configurationRevision <= samples[j].sample.configurationRevision) &&
    (inFlight.Some? ==>
      OfRevision(inFlight.value.sample, calibrations) &&
      inFlight.value.sample.configurationRevision == |calibrations|)
  }

  // ---------------------------------------------------------------- FT order

  /** Delivered samples strictly increase in (restart epoch, unwrapped FT position). */
  ghost predicate DeliveredInOrder(p: Pipeline) {
    OrderOf(p.ft.hasLast, p.ft.previous, p.history.progress, p.history.delivered, p.history.inFlight)
  }

  ghost predicate OrderOf(hasLast: bool, previous: U32, progress: Progress, samples: seq<Delivered>,
                          inFlight: Option<Flight>)
  {
    (hasLast ==> Wrap(progress.position) == previous) &&
    (!hasLast ==> samples == [] && inFlight.None?) &&
    (forall i, j | 0 <= i < j < |samples| :: Before(samples[i].progress, samples[j].progress)) &&
    (forall i | 0 <= i < |samples| ::
      samples[i].progress == progress || Before(samples[i].progress, progress)) &&
    (inFlight.Some? ==>
      inFlight.value.progress == progress &&
      forall i | 0 <= i < |samples| :: Before(samples[i].progress, progress)) &&
    (forall i | 0 <= i < |samples| :: Wrap(samples[i].progress.position) == samples[i].sample.ftSequence) &&
    (inFlight.Some? ==> Wrap(progress.position) == inFlight.value.sample.ftSequence)
  }

  // ---------------------------------------------------------------- RDT order

  /** What arrived in a stream accounts for what was lost in it. */
  ghost predicate LossCounted(s: Stream, lostAfter: nat) {
    lostAfter == s.lostBefore + if s.seen == [] then 0 else RunOver(RDT_FRESH, s.seen).lost
  }

  /** The tracker stands where what arrived since the reset leads it. */
  ghost predicate TrackerFollows(rdt: RdtState, s: Stream) {
    if s.seen == [] then !rdt.hasLast else rdt == RunOver(RDT_FRESH, s.seen).state
  }

  /** What had been counted lost when a stream ended, or has been by now. */
  function LostAfter(past: seq<Stream>, stream: Stream, lost: nat, epoch: nat): nat {
    if epoch + 1 < |past| then past[epoch + 1].lostBefore
    else if epoch + 1 == |past| then stream.lostBefore
    else lost
  }

  function StreamAt(past: seq<Stream>, stream: Stream, epoch: nat): Stream {
    if epoch < |past| then past[epoch] else stream
  }

  ghost predicate StreamsCounted(rdt: RdtState, lost: nat, past: seq<Stream>, stream: Stream) {
    TrackerFollows(rdt, stream) &&
    forall e: nat | e <= |past| :: LossCounted(StreamAt(past, stream, e), LostAfter(past, stream, lost, e))
  }

  /** An arrival is a record the tracker let through in the stream of its epoch. */
  ghost predicate Arrived(past: seq<Stream>, stream: Stream, a: Arrival, sample: Sample) {
    var s := StreamAt(past, stream, a.epoch).seen;
    a.epoch <= |past| && AcceptedAt(s, a.index) && s[a.index] == sample.rdtSequence
  }

  ghost predicate ArrivedBefore(a: Arrival, b: Arrival) {
    a.epoch < b.epoch || (a.epoch == b.epoch && a.index < b.index)
  }

  ghost predicate ArrivalsInOrder(p: Pipeline) {
    StreamsCounted(p.rdt, p.health.counters.lost, p.history.past, p.history.stream) &&
    ArrivalsOf(p.history.past, p.history.stream, p.history.delivered, p.history.inFlight)
  }

  ghost predicate ArrivalsOf(past: seq<Stream>, stream: Stream, samples: seq<Delivered>, inFlight: Option<Flight>) {
    (forall i | 0 <= i < |samples| :: Arrived(past, stream, samples[i].arrival, samples[i].sample)) &&
    (forall i, j | 0 <= i < j < |samples| :: ArrivedBefore(samples[i].arrival, samples[j].arrival)) &&
    (inFlight.Some? ==>
      Arrived(past, stream, inFlight.value.arrival, inFlight.value.sample) &&
      forall i | 0 <= i < |samples| :: ArrivedBefore(samples[i].arrival, inFlight.value.arrival))
  }

  // ---------------------------------------------------------------- the log of receipts

  /** The sample shows the record as it was received. */
  ghost predicate Shows(s: Sample, receipt: Receipt) {
    s.rdtSequence == receipt.record.rdtSequence && s.ftSequence == receipt.record.ftSequence &&
    s.status == receipt.record.status && s.rawWrench == receipt.record.wrench && s.receivedAt == receipt.at
  }

  ghost predicate ShowsOne(s: Sample, receipt: nat, received: seq<Receipt>) {
    receipt < |received| && Shows(s, received[receipt])
  }

  /** Every delivered sample shows a received record, and none is delivered twice. */
  ghost predicate LogOf(received: seq<Receipt>, samples: seq<Delivered>, inFlight: Option<Flight>) {
    (forall i | 0 <= i < |samples| :: ShowsOne(samples[i].sample, samples[i].receipt, received)) &&
    (forall i, j | 0 <= i < j < |samples| :: samples[i].receipt < samples[j].receipt) &&
    (inFlight.Some? ==>
      ShowsOne(inFlight.value.sample, inFlight.value.receipt, received) &&
      forall i | 0 <= i < |samples| :: samples[i].receipt < inFlight.value.receipt)
  }

  /** The age of the last record is told from the last receipt of the run. */
  ghost predicate TimesOf(lastRecordAt: real, receipts: seq<real>) {
    lastRecordAt == (if receipts == [] then NEVER else receipts[|receipts| - 1]) &&
    forall i | 0 <= i < |receipts| :: NEVER < receipts[i]
  }

  ghost predicate Logged(p: Pipeline) {
    LogOf(p.history.received, p.history.delivered, p.history.inFlight) &&
    p.health.counters.received == |p.history.received| &&
    TimesOf(p.lastRecordAt, p.history.receipts) && p.ft == TrackerAfter(p.history.ftEvents)
  }

  // ---------------------------------------------------------------- rate limit

  /** The rate limiter's memory is the last delivery of the run. */
  ghost predicate Synced(p: Pipeline) {
    var ds := p.history.deliveries;
    p.lastDeliveryAt == if ds == [] then NEVER else ds[|ds| - 1]
  }

  ghost predicate DeliveriesSpaced(config: Config, p: Pipeline) {
    config.sampleRateLimitHz > 0.0 ==>
      Spaced(p.history.deliveries, 1.0 / config.sampleRateLimitHz) &&
      (p.history.inFlight.Some? && p.history.deliveries != [] ==>
        p.history.inFlight.value.sample.receivedAt - p.history.deliveries[|p.history.deliveries| - 1] >=
        1.0 / config.sampleRateLimitHz)
  }

  // ---------------------------------------------------------------- malformed packets

  function TrailingMalformed(packets: seq<bool>): nat {
    if packets == [] || packets[|packets| - 1] then 0 else 1 + TrailingMalformed(packets[..|packets| - 1])
  }

  ghost predicate CountsTrailingRun(p: Pipeline) {
    p.consecutiveMalformed == TrailingMalformed(p.history.packets)
  }

  // ---------------------------------------------------------------- generations

  /** A latest sample exists exactly when this generation has delivered, and this run delivered it. */
  ghost predicate GenerationsAgree(p: Pipeline) {
    (p.deliveredGeneration == 0 || p.deliveredGeneration == p.generation) &&
    (p.latest.Some? <==> p.generation != 0 && p.deliveredGeneration == p.generation) &&
    (p.latest.Some? ==>
      p.history.deliveries != [] && p.history.delivered != [] &&
      p.latest.value == p.history.delivered[|p.history.delivered| - 1].sample) &&
    (p.latest.None? ==> p.history.deliveries == []) &&
    (p.latest.Some? ==> p.history.latestRun == p.history.run)
  }

  ghost predicate Sound(config: Config, p: Pipeline, clock: real) {
    Conserved(p) && WindowsFaithful(p, clock) && RevisionsMeanCalibrations(p) && DeliveredInOrder(p) &&
    ArrivalsInOrder(p) && Logged(p) &&
    DeliveriesSpaced(config, p) && CountsTrailingRun(p) && GenerationsAgree(p)
  }

  // ---------------------------------------------------------------- every section keeps them

  lemma FreshIsSound(config: Config, clock: real)
    requires NEVER < clock
    ensures Sound(config, FRESH, clock) && Synced(FRESH)
  {
  }

  lemma MarkKeeps(config: Config, p: Pipeline, q: Pipeline, clock: real)
    requires Sound(config, p, clock)
    requires q == p.(health := q.health)
    requires q.health.configuration == p.health.configuration
    requires q.health.counters ==
             p.health.counters.(timeout := q.health.counters.timeout, reconnect := q.health.counters.reconnect)
    ensures Sound(config, q, clock)
  {
    hide RevisionsOf, OrderOf, ArrivalsOf, StreamsCounted, LogOf, TimesOf, TrackerAfter, Faithful, Spaced;
  }

  lemma ResetKeepsArrivals(p: Pipeline)
    requires ArrivalsInOrder(p)
    ensures ArrivalsInOrder(ResetAfterBias(p)) && ArrivalsInOrder(BeginStream(p))
  {
    hide RunOver, AcceptedAt;
    var q := ResetAfterBias(p);
    var past, stream := p.history.past, p.history.stream;
    forall e: nat | e <= |q.history.past|
      ensures var s := StreamAt(q.history.past, q.history.stream, e);
              LossCounted(s, LostAfter(q.history.past, q.history.stream, q.health.counters.lost, e))
    {
      if e <= |past| {
        assert LossCounted(StreamAt(past, stream, e), LostAfter(past, stream, p.health.counters.lost, e));
      }
    }
    forall e: nat | e <= |past| ensures StreamAt(q.history.past, q.history.stream, e) == StreamAt(past, stream, e) {
    }
  }

  lemma SessionIsLogged(p: Pipeline)
    requires Logged(p)
    ensures Logged(BeginStream(p))
  {
    hide LogOf, TimesOf;
    var events := p.history.ftEvents;
    assert (events + [SessionBegins])[..|events|] == events;
  }

  lemma BeginStreamKeeps(config: Config, p: Pipeline, clock: real)
    requires Sound(config, p, clock)
    ensures Sound(config, BeginStream(p), clock) && Sound(config, ResetAfterBias(p), clock)
  {
    hide RevisionsOf, OrderOf, ArrivalsInOrder, LogOf, TimesOf, Faithful, Spaced;
    ResetKeepsArrivals(p);
    SessionIsLogged(p);
  }

  lemma ApplyConfigurationKeepsRevisions(p: Pipeline, name: string, calibration: Calibration)
    requires RevisionsMeanCalibrations(p) && p.history.inFlight.None?
    ensures RevisionsMeanCalibrations(ApplyConfiguration(p, name, calibration))
  {
    var q := ApplyConfiguration(p, name, calibration);
    forall i | 0 <= i < |q.history.delivered|
      ensures OfRevision(q.history.delivered[i].sample, q.history.calibrations)
    {
      assert OfRevision(p.history.delivered[i].sample, p.history.calibrations);
    }
  }

  lemma ApplyConfigurationKeeps(config: Config, p: Pipeline, name: string, calibration: Calibration, clock: real)
    requires Sound(config, p, clock) && p.history.inFlight.None?
    ensures Sound(config, ApplyConfiguration(p, name, calibration), clock)
  {
    hide Sound, RevisionsMeanCalibrations, ApplyConfiguration;
    ApplyConfigurationKeepsRevisions(p, name, calibration) by {
      assert RevisionsMeanCalibrations(p) by { SoundRevisions(config, p, clock); }
    }
    ApplyConfigurationShape(p, name, calibration);
    CalibrationsAreApart(config, p, ApplyConfiguration(p, name, calibration), clock);
  }

  lemma SoundRevisions(config: Config, p: Pipeline, clock: real)
    requires Sound(config, p, clock)
    ensures RevisionsMeanCalibrations(p)
  {
  }

  lemma ApplyConfigurationShape(p: Pipeline, name: string, calibration: Calibration)
    ensures var q := ApplyConfiguration(p, name, calibration);
            q == p.(health := q.health, history := q.history) &&
            q.history == p.history.(calibrations := q.history.calibrations) &&
            q.health.counters == p.health.counters.(calibrationChange := q.health.counters.calibrationChange)
  {
  }

  lemma CalibrationsAreApart(config: Config, p: Pipeline, q: Pipeline, clock: real)
    requires Sound(config, p, clock) && RevisionsMeanCalibrations(q)
    requires q == p.(health := q.health, history := q.history)
    requires q.history == p.history.(calibrations := q.history.calibrations)
    requires q.health.counters == p.health.counters.(calibrationChange := q.health.counters.calibrationChange)
    ensures Sound(config, q, clock)
  {
    hide RevisionsOf, OrderOf, ArrivalsOf, StreamsCounted, LogOf, TimesOf, TrackerAfter, Faithful, Spaced;
  }

  lemma PacketCounted(p: Pipeline)
    requires CountsTrailingRun(p)
    ensures CountsTrailingRun(CountMalformed(p)) && CountsTrailingRun(NoteValid(p))
    ensures IsStorm(CountMalformed(p)) <==>
            TrailingMalformed(p.history.packets + [false]) >= 10
  {
    assert (p.history.packets + [false])[..|p.history.packets|] == p.history.packets;
  }

  lemma PacketKeeps(config: Config, p: Pipeline, clock: real)
    requires Sound(config, p, clock)
    ensures Sound(config, CountMalformed(p), clock) && Sound(config, NoteValid(p), clock)
  {
    hide RevisionsOf, OrderOf, ArrivalsOf, StreamsCounted, LogOf, TimesOf, TrackerAfter, Faithful, Spaced;
    PacketCounted(p);
  }

  lemma ReceiveKeepsConserved(config: Config, p: Pipeline, r: RawRecord, at: real)
    requires Conserved(p) && p.health.configuration.Some? && p.history.inFlight.None?
    ensures Conserved(Receive(config, p, r, at))
  {
  }

  lemma ReceiveKeepsWindows(config: Config, p: Pipeline, r: RawRecord, at: real, clock: real)
    requires WindowsFaithful(p, clock) && p.health.configuration.Some?
    requires ReceiptFits(p, at, clock)
    requires p.history.receipts != [] ==> p.history.receipts[|p.history.receipts| - 1] <= at
    ensures WindowsFaithful(Receive(config, p, r, at), clock)
  {
    hide Prune, Faithful, CountRecord, FateOf, OutcomeOf, Advance, Scaled, RdtObserve, FtObserve;
    PushIsFaithful(p.receiveTimes, p.history.receipts, at, clock);
    PruneIsFaithful(p.receiveTimes + [at], p.history.receipts + [at], at, clock);
  }

  lemma ReceiveKeepsRevisions(config: Config, p: Pipeline, r: RawRecord, at: real)
    requires RevisionsMeanCalibrations(p) && p.health.configuration.Some?
    ensures RevisionsMeanCalibrations(Receive(config, p, r, at))
  {
    var q := Receive(config, p, r, at);
    assert q.history.calibrations == p.history.calibrations && q.history.delivered == p.history.delivered;
    if q.history.inFlight.Some? {
      SampleIsScaled(r, p.health.configuration.value, at);
      assert OfRevision(q.history.inFlight.value.sample, q.history.calibrations) by {
        hide ScaledBy;
      }
    }
  }

  lemma QuotientTimesDivisor(count: int, divisor: real)
    requires divisor > 0.0
    ensures count as real / divisor * divisor == count as real
  {
  }

  /** The sample of a record shows the record, and its forces and torques are the counts over the divisors. */
  lemma SampleIsScaled(r: RawRecord, c: SensorConfiguration, at: real)
    ensures ScaledBy(MakeSample(r, c, at), c.calibration)
    ensures Shows(MakeSample(r, c, at), Receipt(r, at)) && MakeSample(r, c, at).configurationRevision == c.revision
  {
    var s := MakeSample(r, c, at);
    forall i | 0 <= i < 3
      ensures s.force[i] * c.calibration.countsPerForceUnit == s.rawWrench[i] as real
      ensures s.torque[i] * c.calibration.countsPerTorqueUnit == s.rawWrench[i + 3] as real
    {
      assert s.force[i] == r.wrench[i] as real / c.calibration.countsPerForceUnit;
      assert s.torque[i] == r.wrench[i + 3] as real / c.calibration.countsPerTorqueUnit;
      QuotientTimesDivisor(r.wrench[i], c.calibration.countsPerForceUnit);
      QuotientTimesDivisor(r.wrench[i + 3], c.calibration.countsPerTorqueUnit);
    }
  }

  lemma ReceiveKeepsOrder(config: Config, p: Pipeline, r: RawRecord, at: real)
    requires DeliveredInOrder(p) && p.health.configuration.Some?
    ensures DeliveredInOrder(Receive(config, p, r, at))
  {
    AdvanceMovesForward(p.history.progress, p.ft, r.ftSequence);
    var q := Receive(config, p, r, at);
    assert q.history.progress == p.history.progress || !p.ft.hasLast || Before(p.history.progress, q.history.progress);
  }

  lemma ReceiveKeeps(config: Config, p: Pipeline, r: RawRecord, at: real, clock: real)
    requires Sound(config, p, clock) && Synced(p)
    requires p.health.configuration.Some? && p.history.inFlight.None?
    requires ReceiptFits(p, at, clock)
    requires p.history.receipts != [] ==> p.history.receipts[|p.history.receipts| - 1] <= at
    ensures Sound(config, Receive(config, p, r, at), clock)
  {
    hide RevisionsMeanCalibrations, DeliveredInOrder, ArrivalsInOrder, Conserved, WindowsFaithful, DeliveriesSpaced,
      CountsTrailingRun, GenerationsAgree, Logged, Receive;
    assert forall i | 0 <= i < |p.history.deliveries| :: NEVER < p.history.deliveries[i] by {
      DeliveriesAreStamped(p, clock);
    }
    ReceiveKeepsRest(config, p, r, at);
    ReceiveKeepsConserved(config, p, r, at);
    ReceiveKeepsWindows(config, p, r, at, clock);
    ReceiveKeepsRevisions(config, p, r, at);
    ReceiveKeepsOrder(config, p, r, at);
    ReceiveKeepsSpaced(config, p, r, at);
    ReceiveKeepsArrivals(config, p, r, at);
    ReceiveIsLogged(config, p, r, at);
  }

  lemma ReceiveIsLogged(config: Config, p: Pipeline, r: RawRecord, at: real)
    requires Logged(p) && p.health.configuration.Some? && p.history.inFlight.None? && NEVER < at
    ensures Logged(Receive(config, p, r, at))
  {
    hide Scaled, FateOf, OutcomeOf, Prune, Advance, RdtObserve, RdtNext, FtNext, FtObserve;
    var q, events := Receive(config, p, r, at), p.history.ftEvents;
    assert (events + [Observed(r.ftSequence)])[..|events|] == events;
    forall i | 0 <= i < |p.history.delivered|
      ensures ShowsOne(p.history.delivered[i].sample, p.history.delivered[i].receipt, q.history.received)
    {
      assert ShowsOne(p.history.delivered[i].sample, p.history.delivered[i].receipt, p.history.received);
    }
  }

  lemma DeliveriesAreStamped(p: Pipeline, clock: real)
    requires WindowsFaithful(p, clock)
    ensures forall i | 0 <= i < |p.history.deliveries| :: NEVER < p.history.deliveries[i]
  {
  }

  lemma ReceiveKeepsRest(config: Config, p: Pipeline, r: RawRecord, at: real)
    requires p.health.configuration.Some? && CountsTrailingRun(p) && GenerationsAgree(p)
    ensures CountsTrailingRun(Receive(config, p, r, at)) && GenerationsAgree(Receive(config, p, r, at))
  {
  }

  lemma AcceptedStays(seen: seq<int>, n: int, k: nat)
    requires k < |seen|
    ensures AcceptedAt(seen + [n], k) == AcceptedAt(seen, k)
  {
    assert (seen + [n])[..k + 1] == seen[..k + 1];
  }

  lemma ExtendsRun(p: Pipeline, n: U32)
    requires StreamsCounted(p.rdt, p.health.counters.lost, p.history.past, p.history.stream)
    ensures var s := p.history.stream.seen;
            var run := RunOver(RDT_FRESH, s + [n]);
            run.state == RdtNext(p.rdt, n) && run.last == RdtObserve(p.rdt, n) &&
            p.history.stream.lostBefore + run.lost == p.health.counters.lost + run.last.gap &&
            (AcceptedAt(s + [n], |s|) <==> Accepts(run.last.kind))
  {
    var s := p.history.stream.seen;
    assert LossCounted(StreamAt(p.history.past, p.history.stream, |p.history.past|), p.health.counters.lost);
    assert (s + [n])[..|s|] == s;
    assert (s + [n])[..|s| + 1] == s + [n];
    assert Wrap(n) == n;
  }

  /** What arrived stays arrived when the current stream goes on. */
  lemma ArrivedStays(past: seq<Stream>, stream: Stream, n: U32, a: Arrival, sample: Sample)
    requires Arrived(past, stream, a, sample)
    ensures Arrived(past, stream.(seen := stream.seen + [n]), a, sample)
    ensures a.epoch < |past| || (a.epoch == |past| && a.index < |stream.seen|)
  {
    hide RunOver;
    if a.epoch == |past| {
      AcceptedStays(stream.seen, n, a.index);
    }
  }

  lemma ReceiveKeepsCounts(config: Config, p: Pipeline, r: RawRecord, at: real)
    requires ArrivalsInOrder(p) && p.health.configuration.Some?
    ensures var q := Receive(config, p, r, at);
            StreamsCounted(q.rdt, q.health.counters.lost, q.history.past, q.history.stream)
  {
    hide RunOver, FateOf, FlightOf, RdtObserve, RdtNext, Prune, Advance, ArrivalsOf;
    var q, past, stream := Receive(config, p, r, at), p.history.past, p.history.stream;
    ExtendsRun(p, r.rdtSequence);
    forall e: nat | e <= |past|
      ensures LossCounted(StreamAt(past, q.history.stream, e),
                          LostAfter(past, q.history.stream, q.health.counters.lost, e))
    {
      assert LossCounted(StreamAt(past, stream, e), LostAfter(past, stream, p.health.counters.lost, e));
    }
  }

  lemma ReceiveKeepsArrivals(config: Config, p: Pipeline, r: RawRecord, at: real)
    requires ArrivalsInOrder(p) && p.health.configuration.Some? && p.history.inFlight.None?
    ensures ArrivalsInOrder(Receive(config, p, r, at))
  {
    var n, q := r.rdtSequence, Receive(config, p, r, at);
    var past, stream, samples := p.history.past, p.history.stream, p.history.delivered;
    ReceiveKeepsCounts(config, p, r, at);
    ExtendsRun(p, n);
    hide RunOver, RdtNext, Prune, Advance, CountRecord, StreamsCounted, OutcomeOf, MakeSample, Limited;
    assert q.history.stream == stream.(seen := stream.seen + [n]) && q.history.past == past;
    forall i | 0 <= i < |samples|
      ensures Arrived(past, q.history.stream, samples[i].arrival, samples[i].sample)
      ensures ArrivedBefore(samples[i].arrival, Arrival(|past|, |stream.seen|))
    {
      ArrivedStays(past, stream, n, samples[i].arrival, samples[i].sample);
    }
    if q.history.inFlight.Some? {
      FlightIsArrival(config, p, r, at);
    }
  }

  lemma FlightIsArrival(config: Config, p: Pipeline, r: RawRecord, at: real)
    requires p.health.configuration.Some? && FateOf(config, p, r, at) == Deliverable
    ensures Accepts(RdtObserve(p.rdt, r.rdtSequence).kind)
    ensures var f := FlightOf(config, p, r, at);
            f.arrival == Arrival(|p.history.past|, |p.history.stream.seen|) && f.sample.rdtSequence == r.rdtSequence
  {
  }

  lemma ReceiveKeepsSpaced(config: Config, p: Pipeline, r: RawRecord, at: real)
    requires DeliveriesSpaced(config, p) && Synced(p) && p.health.configuration.Some?
    requires forall i | 0 <= i < |p.history.deliveries| :: NEVER < p.history.deliveries[i]
    ensures DeliveriesSpaced(config, Receive(config, p, r, at))
  {
    assert Receive(config, p, r, at).history.deliveries == p.history.deliveries;
  }

  lemma FlightFailsKeeps(config: Config, p: Pipeline, message: string, clock: real)
    requires Sound(config, p, clock) && p.history.inFlight.Some?
    ensures var q := DropNonFinite(p); Sound(config, q, clock) && SlotIsFree(p, q)
    ensures var q := RecordCallbackError(p, message); Sound(config, q, clock) && SlotIsFree(p, q)
  {
    hide RevisionsMeanCalibrations, DeliveredInOrder, ArrivalsInOrder, WindowsFaithful, DeliveriesSpaced, Logged,
      DropNonFinite, RecordCallbackError, SlotIsFree;
    hide Landed;
    DroppedShape(p, message);
    LandedKeeps(config, p, DropNonFinite(p), clock);
    LandedKeeps(config, p, RecordCallbackError(p, message), clock);
    DroppedIsConserved(p, message);
  }

  /** Nothing was delivered: the limiter remembers what it remembered, and no sample took a slot. */
  ghost predicate SlotIsFree(p: Pipeline, q: Pipeline) {
    q.history.inFlight.None? && q.lastDeliveryAt == p.lastDeliveryAt && q.deliveryTimes == p.deliveryTimes &&
    q.history.deliveries == p.history.deliveries && q.latest == p.latest &&
    q.health.counters.delivered == p.health.counters.delivered
  }

  ghost predicate Landed(p: Pipeline, q: Pipeline) {
    q == p.(health := q.health, history := q.history) &&
    q.history == p.history.(nonFinite := q.history.nonFinite, inFlight := None) &&
    q.health.configuration == p.health.configuration &&
    q.health.counters == p.health.counters.(callbackError := q.health.counters.callbackError)
  }

  lemma DroppedShape(p: Pipeline, message: string)
    ensures Landed(p, DropNonFinite(p)) && Landed(p, RecordCallbackError(p, message))
    ensures SlotIsFree(p, DropNonFinite(p)) && SlotIsFree(p, RecordCallbackError(p, message))
  {
  }

  lemma DroppedIsConserved(p: Pipeline, message: string)
    requires Conserved(p) && CountsTrailingRun(p) && GenerationsAgree(p) && p.history.inFlight.Some?
    ensures var q := DropNonFinite(p); Conserved(q) && CountsTrailingRun(q) && GenerationsAgree(q)
    ensures var q := RecordCallbackError(p, message); Conserved(q) && CountsTrailingRun(q) && GenerationsAgree(q)
  {
  }

  lemma LandedKeeps(config: Config, p: Pipeline, q: Pipeline, clock: real)
    requires Sound(config, p, clock) && Landed(p, q)
    ensures WindowsFaithful(q, clock) && RevisionsMeanCalibrations(q) && DeliveredInOrder(q) && ArrivalsInOrder(q) &&
            DeliveriesSpaced(config, q) && Logged(q)
  {
    hide StreamsCounted, TimesOf, TrackerAfter, ShowsOne, OfRevision, Arrived, Before, Faithful, Spaced;
  }

  lemma DeliverKeepsWindows(p: Pipeline, run: nat, clock: real)
    requires WindowsFaithful(p, clock) && p.history.inFlight.Some?
    ensures WindowsFaithful(Deliver(p, p.history.inFlight.value, run), clock)
  {
    hide Prune, Faithful;
    var at := p.history.inFlight.value.sample.receivedAt;
    var log, times := p.history.deliveries + [at], p.deliveryTimes + [at];
    assert Faithful(Prune(times, at), log, clock) by {
      PushIsFaithful(p.deliveryTimes, p.history.deliveries, at, clock);
      PruneIsFaithful(times, log, at, clock);
    }
    var q := Deliver(p, p.history.inFlight.value, run);
    assert q.deliveryTimes == Prune(times, at) && q.history.deliveries == log;
  }

  lemma DeliverKeepsHistory(p: Pipeline, run: nat)
    requires RevisionsMeanCalibrations(p) && DeliveredInOrder(p) && ArrivalsInOrder(p) && Logged(p)
    requires p.history.inFlight.Some?
    ensures Logged(Deliver(p, p.history.inFlight.value, run))
    ensures RevisionsMeanCalibrations(Deliver(p, p.history.inFlight.value, run))
    ensures ArrivalsInOrder(Deliver(p, p.history.inFlight.value, run))
    ensures DeliveredInOrder(Deliver(p, p.history.inFlight.value, run))
  {
    hide RevisionsOf, OrderOf, ArrivalsOf, StreamsCounted, LogOf, TimesOf, TrackerAfter, Prune;
    var f := p.history.inFlight.value;
    DeliverKeepsRevisions(p.health.configuration, p.health.counters.calibrationChange, p.history.calibrations,
                          p.history.delivered, f);
    DeliverKeepsLog(p.history.received, p.history.delivered, f);
    DeliverKeepsArrivals(p.history.past, p.history.stream, p.history.delivered, f);
    DeliverKeepsOrder(p.ft.hasLast, p.ft.previous, p.history.progress, p.history.delivered, f);
  }

  lemma DeliverKeepsRevisions(configuration: Option<SensorConfiguration>, changes: nat, calibrations: seq<Calibration>,
                              samples: seq<Delivered>, f: Flight)
    requires RevisionsOf(configuration, changes, calibrations, samples, Some(f))
    ensures RevisionsOf(configuration, changes, calibrations,
                        samples + [Delivered(f.sample, f.progress, f.arrival, f.receipt)],
                        None)
  {
    hide ScaledBy;
  }

  lemma DeliverKeepsLog(received: seq<Receipt>, samples: seq<Delivered>, f: Flight)
    requires LogOf(received, samples, Some(f))
    ensures LogOf(received, samples + [Delivered(f.sample, f.progress, f.arrival, f.receipt)], None)
  {
    hide ShowsOne;
  }

  lemma DeliverKeepsArrivals(past: seq<Stream>, stream: Stream, samples: seq<Delivered>, f: Flight)
    requires ArrivalsOf(past, stream, samples, Some(f))
    ensures ArrivalsOf(past, stream, samples + [Delivered(f.sample, f.progress, f.arrival, f.receipt)], None)
  {
    hide Arrived, ArrivedBefore;
  }

  lemma DeliverKeepsOrder(hasLast: bool, previous: U32, progress: Progress, samples: seq<Delivered>, f: Flight)
    requires OrderOf(hasLast, previous, progress, samples, Some(f))
    ensures OrderOf(hasLast, previous, progress, samples + [Delivered(f.sample, f.progress, f.arrival, f.receipt)],
                    None)
  {
    hide Before, Wrap;
  }

  lemma DeliverKeeps(config: Config, p: Pipeline, clock: real)
    requires Sound(config, p, clock) && p.history.inFlight.Some? && p.generation != 0
    ensures Sound(config, Deliver(p, p.history.inFlight.value, p.history.run), clock)
    ensures Synced(Deliver(p, p.history.inFlight.value, p.history.run))
  {
    hide RevisionsMeanCalibrations, DeliveredInOrder, ArrivalsInOrder, WindowsFaithful, DeliveriesSpaced, Conserved,
      CountsTrailingRun, GenerationsAgree, Logged, Synced, Deliver;
    var q := Deliver(p, p.history.inFlight.value, p.history.run);
    DeliverKeepsWindows(p, p.history.run, clock);
    DeliverKeepsHistory(p, p.history.run);
    DeliveriesAreSorted(p, clock);
    DeliverKeepsSpaced(config, p, q);
    DeliverKeepsRest(p);
  }

  lemma DeliveriesAreSorted(p: Pipeline, clock: real)
    requires WindowsFaithful(p, clock)
    ensures Sorted(p.history.deliveries)
  {
  }

  lemma DeliverKeepsRest(p: Pipeline)
    requires Conserved(p) && CountsTrailingRun(p) && GenerationsAgree(p) && p.history.inFlight.Some? &&
             p.generation != 0
    ensures var q := Deliver(p, p.history.inFlight.value, p.history.run);
            Conserved(q) && CountsTrailingRun(q) && GenerationsAgree(q) && Synced(q)
  {
    hide Prune;
  }

  lemma DeliverKeepsSpaced(config: Config, p: Pipeline, q: Pipeline)
    requires DeliveriesSpaced(config, p) && Sorted(p.history.deliveries)
    requires p.history.inFlight.Some? && q == Deliver(p, p.history.inFlight.value, p.history.run)
    ensures DeliveriesSpaced(config, q)
  {
    if config.sampleRateLimitHz > 0.0 {
      var gap, ds, at := 1.0 / config.sampleRateLimitHz, p.history.deliveries,
                         p.history.inFlight.value.sample.receivedAt;
      forall i | 0 <= i < |ds| ensures at - ds[i] >= gap {
        assert ds[i] <= ds[|ds| - 1];
      }
    }
  }

  lemma PruneWindowsKeeps(config: Config, p: Pipeline, now: real)
    requires Sound(config, p, now)
    ensures Sound(config, PruneWindows(p, now), now)
  {
    hide RevisionsOf, OrderOf, ArrivalsOf, StreamsCounted, LogOf, TimesOf, TrackerAfter, Spaced, Faithful, Prune;
    PruneIsFaithful(p.receiveTimes, p.history.receipts, now, now);
    PruneIsFaithful(p.deliveryTimes, p.history.deliveries, now, now);
  }

  lemma WindowsAreApart(config: Config, p: Pipeline, q: Pipeline, clock: real)
    requires Sound(config, p, clock)
    requires q == p.(receiveTimes := q.receiveTimes, deliveryTimes := q.deliveryTimes)
    requires DroppedOld(p.receiveTimes, q.receiveTimes, clock) && DroppedOld(p.deliveryTimes, q.deliveryTimes, clock)
    ensures Sound(config, q, clock)
  {
    hide RevisionsOf, OrderOf, ArrivalsOf, StreamsCounted, LogOf, TimesOf, TrackerAfter, Faithful, Spaced;
    DroppingIsFaithful(p.receiveTimes, q.receiveTimes, p.history.receipts, clock);
    DroppingIsFaithful(p.deliveryTimes, q.deliveryTimes, p.history.deliveries, clock);
  }

  lemma LastDeliveryIsApart(config: Config, p: Pipeline, at: real, clock: real)
    requires Sound(config, p, clock)
    ensures Sound(config, p.(lastDeliveryAt := at), clock)
  {
    hide RevisionsOf, OrderOf, ArrivalsOf, StreamsCounted, LogOf, TimesOf, TrackerAfter, Faithful, Spaced;
  }

  lemma TimePassesKeeps(config: Config, p: Pipeline, clock: real, later: real)
    requires Sound(config, p, clock) && clock <= later
    ensures Sound(config, p, later)
  {
    hide RevisionsOf, OrderOf, ArrivalsOf, StreamsCounted, LogOf, TimesOf, TrackerAfter, Faithful, Spaced;
    FaithfulLater(p.receiveTimes, p.history.receipts, clock, later);
    FaithfulLater(p.deliveryTimes, p.history.deliveries, clock, later);
  }

  /** Nothing of an earlier run is left that this run's rates, limit, storm or first sample could count. */
  ghost predicate RunIsNew(p: Pipeline) {
    p.receiveTimes == [] && p.deliveryTimes == [] && p.lastDeliveryAt == NEVER && p.lastRecordAt == NEVER &&
    p.latest.None? && p.deliveredGeneration == 0 && p.consecutiveMalformed == 0 &&
    p.history.receipts == [] && p.history.deliveries == [] && p.history.packets == []
  }

  lemma ResetForRunKeeps(config: Config, p: Pipeline, clock: real)
    requires Sound(config, p, clock) && p.history.inFlight.None?
    ensures Sound(config, ForgetDelivery(p), clock)
    ensures var q := ResetForRun(ForgetDelivery(p)); Sound(config, q, clock) && Synced(q) && RunIsNew(q)
  {
    hide RevisionsMeanCalibrations, DeliveredInOrder, ArrivalsInOrder, Conserved, WindowsFaithful, DeliveriesSpaced,
      CountsTrailingRun, GenerationsAgree, Logged, ResetForRun;
    LastDeliveryIsApart(config, p, NEVER, clock);
    assert NEVER < clock by { SoundClock(config, p, clock); }
    ResetClearsTheRun(config, ForgetDelivery(p), clock);
    ResetKeepsTheLife(ForgetDelivery(p));
  }

  lemma SoundClock(config: Config, p: Pipeline, clock: real)
    requires Sound(config, p, clock)
    ensures NEVER < clock
  {
  }

  /** What a new run begins with. */
  lemma ResetClearsTheRun(config: Config, p: Pipeline, clock: real)
    requires p.history.inFlight.None? && NEVER < clock
    ensures var q := ResetForRun(p);
            WindowsFaithful(q, clock) && DeliveriesSpaced(config, q) && CountsTrailingRun(q) && GenerationsAgree(q) &&
            (p.lastDeliveryAt == NEVER ==> Synced(q) && RunIsNew(q))
  {
  }

  /** What goes on over the life of the client. */
  lemma ResetKeepsTheLife(p: Pipeline)
    requires Conserved(p) && RevisionsMeanCalibrations(p) && DeliveredInOrder(p) && ArrivalsInOrder(p) && Logged(p)
    ensures var q := ResetForRun(p);
            Conserved(q) && RevisionsMeanCalibrations(q) && DeliveredInOrder(q) && ArrivalsInOrder(q) && Logged(q)
  {
    hide RevisionsOf, OrderOf, ArrivalsOf, StreamsCounted, LogOf, TrackerAfter;
  }

  lemma CountRunKeeps(config: Config, p: Pipeline, clock: real)
    requires Sound(config, p, clock) && p.latest.None?
    ensures Sound(config, CountRun(p), clock)
  {
    hide RevisionsOf, OrderOf, ArrivalsOf, StreamsCounted, LogOf, TimesOf, TrackerAfter, Faithful, Spaced;
  }

  // ---------------------------------------------------------------- what they mean to a caller

  /** Two delivered samples with the same revision were scaled alike. */
  lemma SameRevisionSameScales(p: Pipeline, i: nat, j: nat)
    requires RevisionsMeanCalibrations(p) && i < |p.history.delivered| && j < |p.history.delivered|
    requires p.history.delivered[i].sample.configurationRevision == p.history.delivered[j].sample.configurationRevision
    ensures exists c: Calibration ::
              ScaledBy(p.history.delivered[i].sample, c) && ScaledBy(p.history.delivered[j].sample, c)
  {
    var s, t := p.history.delivered[i].sample, p.history.delivered[j].sample;
    assert OfRevision(s, p.history.calibrations) && OfRevision(t, p.history.calibrations);
    var c := p.history.calibrations[s.configurationRevision - 1];
    assert ScaledBy(s, c) && ScaledBy(t, c);
  }

  /** The rates health() returns count every receipt and delivery of the run in the last second. */
  lemma RatesAreCounts(p: Pipeline, latch: FaultCode, now: real)
    requires WindowsFaithful(p, now)
    ensures Snapshot(PruneWindows(p, now), latch, now).receiveRate == |Recent(p.history.receipts, now)|
    ensures Snapshot(PruneWindows(p, now), latch, now).deliveryRate == |Recent(p.history.deliveries, now)|
  {
    WindowEqualsFilter(p.receiveTimes, p.history.receipts, now);
    WindowEqualsFilter(p.deliveryTimes, p.history.deliveries, now);
  }

  /** In any time window of the run, the rate limit bounds the deliveries. */
  lemma DeliveriesAreLimited(config: Config, p: Pipeline, low: real, span: real)
    requires DeliveriesSpaced(config, p) && config.sampleRateLimitHz > 0.0 && span >= 0.0
    ensures |Between(p.history.deliveries, low, low + span)| <= (span * config.sampleRateLimitHz).Floor + 1
  {
    WindowHoldsAtMost(p.history.deliveries, config.sampleRateLimitHz, low, span);
  }

  ghost predicate SentBefore(ns: seq<int>, a: Arrival, b: Arrival) {
    a.index < |ns| && b.index < |ns| && ns[a.index] < ns[b.index]
  }

  /** The samples delivered since the reset strictly increase in the sensor's own numbers. */
  ghost predicate DeliveredAlong(ns: seq<int>, samples: seq<Delivered>, epoch: nat) {
    forall i, j | 0 <= i < j < |samples| && samples[i].arrival.epoch == samples[j].arrival.epoch == epoch ::
      SentBefore(ns, samples[i].arrival, samples[j].arrival)
  }

  /** RDT refinement, for every stream between two resets: if its arrivals are the 32-bit images of sensor numbers
    within half a range, lost and accepted records add up to the span of the numbers, deliveries strictly increase in
    them, and the tracker of the current stream stands at the highest. */
  lemma StreamRefinesUnbounded(p: Pipeline, epoch: nat, ns: seq<int>)
    requires ArrivalsInOrder(p) && epoch <= |p.history.past|
    requires var seen := StreamAt(p.history.past, p.history.stream, epoch).seen;
             ns != [] && |ns| == |seen| && WithinHalfRange(ns) && forall i | 0 <= i < |ns| :: Wrap(ns[i]) == seen[i]
    ensures epoch == |p.history.past| ==> p.rdt == RdtState(true, Wrap(High(ns)))
    ensures var s := StreamAt(p.history.past, p.history.stream, epoch);
            LostAfter(p.history.past, p.history.stream, p.health.counters.lost, epoch) - s.lostBefore +
            |RunOver(RDT_FRESH, s.seen).accepted| == High(ns) - ns[0] + 1
    ensures DeliveredAlong(ns, p.history.delivered, epoch)
  {
    var past, stream, samples := p.history.past, p.history.stream, p.history.delivered;
    var seen := StreamAt(past, stream, epoch).seen;
    hide RunOver, High, WithinHalfRange;
    RdtRefinesUnbounded(RDT_FRESH, ns);
    SameImagesSameRun(RDT_FRESH, ns, seen);
    assert LossCounted(StreamAt(past, stream, epoch), LostAfter(past, stream, p.health.counters.lost, epoch));
    forall i, j | 0 <= i < j < |samples| && samples[i].arrival.epoch == samples[j].arrival.epoch == epoch
      ensures SentBefore(ns, samples[i].arrival, samples[j].arrival)
    {
      assert Arrived(past, stream, samples[i].arrival, samples[i].sample);
      assert Arrived(past, stream, samples[j].arrival, samples[j].sample);
      assert ArrivedBefore(samples[i].arrival, samples[j].arrival);
      AcceptedMovesForward(ns, seen, samples[i].arrival.index, samples[j].arrival.index);
    }
  }
}
