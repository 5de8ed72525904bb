/** What the worker's place says about the records, in every interleaving with callers. */
module ProtocolRecords {
  import opened Types
  import opened RateWindow
  import opened Pipeline
  import opened PipelineInvariants
  import opened Protocol

  /** The record a worker carries between its sections. */
  function FlightAt(p: Point): Option<Flight> {
    match p
    case Handling(WorkConvert(f)) => Some(f)
    case Handling(WorkCallback(f)) => Some(f)
    case Handling(WorkCallbackError(f, _)) => Some(f)
    case Handling(WorkDeliver(f)) => Some(f)
    case Handling(WorkDeliverData(f)) => Some(f)
    case _ => None
  }

  /** The time stamp of a record that has not been counted yet. */
  function StampAt(p: Point): Option<real> {
    match p
    case Handling(WorkValid(_, at)) => Some(at)
    case Handling(WorkHandle(_, at)) => Some(at)
    case Handling(WorkRecord(_, at)) => Some(at)
    case _ => None
  }

  predicate NeedsConfiguration(p: Point) {
    match p
    case Opening(q) =>
      q.WorkCheckConnect? || q.WorkConnect? || q.WorkConnected? || q.WorkCommand? || q.WorkSendStart? ||
      q.WorkBeginStream?
    case Handling(_) => true
    case _ => false
  }

  /** Past the point where the worker may have published a fault. */
  predicate IsFinal(p: Point) {
    match p
    case Leaving(WorkClose(after)) => after.ThenExit?
    case Leaving(WorkCloseSend(after)) => after.ThenExit?
    case Leaving(WorkCloseSocket(after)) => after.ThenExit?
    case Leaving(q) => q.WorkExit? || q.WorkExited? || q.WorkMarkStopped? || q.WorkDone?
    case _ => false
  }

  ghost predicate StampFits(p: Pipeline, at: real, clock: real) {
    ReceiptFits(p, at, clock) &&
    (p.history.receipts != [] ==> p.history.receipts[|p.history.receipts| - 1] <= at)
  }

  /** What a worker may rely on at its place. */
  ghost predicate WorkerPlace(s: State, p: Point, run: nat) {
    var pipe := s.pipe;
    pipe.history.inFlight == FlightAt(p) && run == pipe.history.run && Synced(pipe) && pipe.generation != 0 &&
    (NeedsConfiguration(p) ==> pipe.health.configuration.Some?) &&
    (StampAt(p).Some? ==> StampFits(pipe, StampAt(p).value, s.clock)) &&
    (!IsFinal(p) ==> s.control.latch == NoFault && s.control.published.None?) &&
    (p.Leaving? && p.closing.WorkFault? ==> p.closing.fault.code != NoFault) &&
    (p.Leaving? && (p.closing.WorkBackoff? || p.closing.WorkSleep?) ==> s.config.policy == Reconnect) &&
    (p.Leaving? && p.closing.WorkMarkStopped? ==> s.control.latch == NoFault)
  }

  /** A latched fault is on show in the snapshot, with the code and message it was first published with. */
  ghost predicate FaultOnShow(latch: FaultCode, published: Option<Fault>, h: HealthSnapshot) {
    latch != NoFault ==>
      published == Some(Fault(latch, h.lastError)) && h.state == Faulted && h.faultCode == latch
  }

  /** Under FailStop the client never reconnects. */
  predicate ReconnectsByPolicy(config: Config, h: HealthSnapshot) {
    config.policy == FailStop ==> h.counters.reconnect == 0
  }

  ghost predicate Healthy(s: State) {
    Sound(s.config, s.pipe, s.clock) && FaultOnShow(s.control.latch, s.control.published, s.pipe.health) &&
    ReconnectsByPolicy(s.config, s.pipe.health)
  }

  /** What a worker's body leaves behind. */
  ghost predicate WorkerKeeps(s: State, run: nat, e: Effect) {
    e.next.Some? && Healthy(e.state) && WorkerPlace(e.state, e.next.value, run) &&
    (e.state.control.latch == NoFault ==>
      s.control.latch == NoFault && e.state.control.published == s.control.published)
  }

  lemma OpeningKeeps(s: State, run: nat, p: SessionPoint, env: Env)
    requires Healthy(s) && WorkerPlace(s, Opening(p), run)
    ensures WorkerKeeps(s, run, SessionBody(s, p, env))
  {
    hide Sound;
    match p
    case WorkConnecting => MarkKeeps(s.config, s.pipe, MarkState(s.pipe, Connecting), s.clock);
    case WorkApply(name, calibration) => ApplyConfigurationKeeps(s.config, s.pipe, name, calibration, s.clock);
    case WorkBeginStream => BeginStreamKeeps(s.config, s.pipe, s.clock);
    case _ =>
  }

  lemma ReceivingKeeps(s: State, run: nat, p: RecordPoint, env: Env)
    requires p.WorkReceive? || p.WorkReceiveEnter? || p.WorkPoll? || p.WorkPolled? || p.WorkReceived?
    requires Healthy(s) && WorkerPlace(s, Handling(p), run)
    ensures WorkerKeeps(s, run, RecordBody(s, run, p, env))
  {
    hide Sound, StampFits, Synced;
    NowFits(s);
    match p
    case WorkReceived(_, _) =>
    case WorkPolled(_) =>
    case _ =>
  }

  /** A record stamped now fits behind everything received and delivered. */
  lemma NowFits(s: State)
    requires Healthy(s)
    ensures StampFits(s.pipe, s.clock, s.clock)
  {
    assert WindowsFaithful(s.pipe, s.clock);
  }

  lemma CountingKeeps(s: State, run: nat, p: RecordPoint, env: Env)
    requires p.WorkTimeout? || p.WorkGarbled? || p.WorkValid? || p.WorkHandle?
    requires Healthy(s) && WorkerPlace(s, Handling(p), run)
    ensures WorkerKeeps(s, run, RecordBody(s, run, p, env))
  {
    hide Sound;
    match p
    case WorkTimeout(_) => MarkKeeps(s.config, s.pipe, CountTimeout(s.pipe), s.clock);
    case WorkGarbled(_) => PacketKeeps(s.config, s.pipe, s.clock);
    case WorkValid(_, _) => PacketKeeps(s.config, s.pipe, s.clock);
    case WorkHandle(_, _) =>
  }

  lemma RecordKeeps(s: State, run: nat, p: RecordPoint, env: Env)
    requires p.WorkRecord?
    requires Healthy(s) && WorkerPlace(s, Handling(p), run)
    ensures WorkerKeeps(s, run, RecordBody(s, run, p, env))
  {
    hide Sound;
    ReceiveKeeps(s.config, s.pipe, p.record, p.at, s.clock);
    assert Synced(Receive(s.config, s.pipe, p.record, p.at));
  }

  lemma FlightKeeps(s: State, run: nat, p: RecordPoint, env: Env)
    requires p.WorkConvert? || p.WorkCallback? || p.WorkCallbackError? || p.WorkDeliver? || p.WorkDeliverData?
    requires Healthy(s) && WorkerPlace(s, Handling(p), run)
    ensures WorkerKeeps(s, run, RecordBody(s, run, p, env))
  {
    hide RecordBody, WorkerKeeps, WorkerPlace, Healthy;
    if p.WorkDeliverData? {
      DeliveringKeeps(s, run, p, env);
    } else if p.WorkCallbackError? {
      FailingKeeps(s, run, p, env);
    } else if p.WorkConvert? {
      ConvertingKeeps(s, run, p, env);
    } else {
      CarryingKeeps(s, run, p, env);
    }
  }

  lemma CarryingKeeps(s: State, run: nat, p: RecordPoint, env: Env)
    requires (p.WorkCallback? || p.WorkDeliver?) && Healthy(s) && WorkerPlace(s, Handling(p), run)
    ensures WorkerKeeps(s, run, RecordBody(s, run, p, env))
  {
    hide Sound, StampFits, Synced, FaultOnShow, ReconnectsByPolicy;
  }

  lemma ConvertingKeeps(s: State, run: nat, p: RecordPoint, env: Env)
    requires p.WorkConvert? && Healthy(s) && WorkerPlace(s, Handling(p), run)
    ensures WorkerKeeps(s, run, RecordBody(s, run, p, env))
  {
    hide Sound;
    FlightFailsKeeps(s.config, s.pipe, "", s.clock);
  }

  lemma DeliveringKeeps(s: State, run: nat, p: RecordPoint, env: Env)
    requires p.WorkDeliverData? && Healthy(s) && WorkerPlace(s, Handling(p), run)
    ensures WorkerKeeps(s, run, RecordBody(s, run, p, env))
  {
    hide Sound, Prune;
    DeliverKeeps(s.config, s.pipe, s.clock);
  }

  lemma FailingKeeps(s: State, run: nat, p: RecordPoint, env: Env)
    requires p.WorkCallbackError? && Healthy(s) && WorkerPlace(s, Handling(p), run)
    ensures WorkerKeeps(s, run, RecordBody(s, run, p, env))
  {
    hide Sound;
    FlightFailsKeeps(s.config, s.pipe, p.message, s.clock);
  }

  lemma LeavingKeeps(s: State, run: nat, p: ClosingPoint, env: Env)
    requires Healthy(s) && WorkerPlace(s, Leaving(p), run)
    ensures WorkerKeeps(s, run, ClosingBody(s, p, env))
  {
    hide Sound, FaultFor, MessageFor, WorkerKeeps, Healthy, WorkerPlace, ClosingBody;
    match p
    case WorkDecide(_, _, _) => DecidingKeeps(s, run, p, env);
    case WorkFault(_) => FaultingKeeps(s, run, p, env);
    case WorkBackoff(_) => BackingOffKeeps(s, run, p, env);
    case WorkMarkStopped => EndingKeeps(s, run, p, env);
    case _ => ClosingKeeps(s, run, p, env);
  }

  lemma DecidingKeeps(s: State, run: nat, p: ClosingPoint, env: Env)
    requires p.WorkDecide? && Healthy(s) && WorkerPlace(s, Leaving(p), run)
    ensures WorkerKeeps(s, run, ClosingBody(s, p, env))
  {
    hide Sound;
    assert p.result != SessionStopped ==> FaultFor(p.result) != NoFault;
  }

  lemma FaultingKeeps(s: State, run: nat, p: ClosingPoint, env: Env)
    requires p.WorkFault? && Healthy(s) && WorkerPlace(s, Leaving(p), run)
    ensures WorkerKeeps(s, run, ClosingBody(s, p, env))
  {
    hide Sound;
    MarkKeeps(s.config, s.pipe, ShowFault(s.pipe, p.fault), s.clock);
  }

  lemma BackingOffKeeps(s: State, run: nat, p: ClosingPoint, env: Env)
    requires p.WorkBackoff? && Healthy(s) && WorkerPlace(s, Leaving(p), run)
    ensures WorkerKeeps(s, run, ClosingBody(s, p, env))
  {
    hide Sound;
    MarkKeeps(s.config, s.pipe, EnterBackoff(s.pipe, p.message), s.clock);
  }

  lemma EndingKeeps(s: State, run: nat, p: ClosingPoint, env: Env)
    requires p.WorkMarkStopped? && Healthy(s) && WorkerPlace(s, Leaving(p), run)
    ensures WorkerKeeps(s, run, ClosingBody(s, p, env))
  {
    hide Sound;
    MarkKeeps(s.config, s.pipe, MarkState(s.pipe, Stopped), s.clock);
  }

  lemma ClosingKeeps(s: State, run: nat, p: ClosingPoint, env: Env)
    requires !p.WorkDecide? && !p.WorkFault? && !p.WorkBackoff? && !p.WorkMarkStopped?
    requires Healthy(s) && WorkerPlace(s, Leaving(p), run)
    ensures WorkerKeeps(s, run, ClosingBody(s, p, env))
  {
    hide Sound, FaultFor, MessageFor, EnterBackoff, ShowFault, MarkState;
  }

  lemma WorkerBodyKeeps(s: State, w: Tid, f: Frame, env: Env)
    requires f.point.IsWorkers() && Healthy(s) && WorkerPlace(s, f.point, f.run)
    ensures WorkerKeeps(s, f.run, Body(s, Worker(w), f, env))
  {
    hide SessionBody, RecordBody, ClosingBody, WorkerKeeps, WorkerPlace, Healthy;
    match f.point
    case Opening(p) => OpeningKeeps(s, f.run, p, env);
    case Leaving(p) => LeavingKeeps(s, f.run, p, env);
    case Handling(p) =>
      if p.WorkRecord? {
        RecordKeeps(s, f.run, p, env);
      } else if p.WorkTimeout? || p.WorkGarbled? || p.WorkValid? || p.WorkHandle? {
        CountingKeeps(s, f.run, p, env);
      } else if p.WorkReceive? || p.WorkReceiveEnter? || p.WorkPoll? || p.WorkPolled? || p.WorkReceived? {
        ReceivingKeeps(s, f.run, p, env);
      } else {
        FlightKeeps(s, f.run, p, env);
      }
  }
}
