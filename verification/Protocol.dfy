/** The client lifecycle as a step relation: any number of caller threads against the worker.

  A point is a place in the code. Its Guard is the mutex the thread must take there; the mutexes
  it Keeps are those it already holds. Running the body of a point is one atomic step; taking the guard is
  another; everything between two steps is open to every other thread. */
module Protocol {
  import opened Types
  import opened Pipeline

  type Tid = nat

  datatype Lock = Lifecycle | Command | Record | Data | Transport

  /** A thread seen from the client: inside one of its functions, or as its worker. */
  datatype Agent = Caller(tid: Tid) | Worker(tid: Tid)

  datatype WireCommand = StartRealtime | SetSoftwareBias | StopStreaming

  type Callback = Option<nat>

  datatype Op = StartOp(callback: Callback) | StopOp | BiasOp | WaitOp | HealthOp | DestroyOp | ReclaimOp

  /** Who owns the storage: the user, the destructor, the deferred destroyer or nobody. */
  datatype Reclaim = Alive | Closing | Pending | Reclaiming | Freed

  /** What follows a stop: nothing, the hand-over to the deferred destroyer, the destructor, or the release. */
  datatype StopUse = Plain | FromCallback | BeforeDestruct | Destruct

  /** What start() remembers for a roll-back. The entry is the state when the creation branch began. */
  datatype Saved = Saved(
    stopping: bool, exited: bool, latch: FaultCode, callback: Callback,
    lastDeliveryAt: real, pipe: Pipeline, entry: Entry)

  datatype Entry = Entry(
    stopping: bool, exited: bool, latch: FaultCode, callback: Callback, pipe: Pipeline, published: Option<Fault>)

  /** What follows a close_session: the recovery decision, or the end of the worker. */
  datatype AfterClose = ThenDecide(result: SessionResult, valid: bool, message: string) | ThenExit

  datatype Received = Nothing | Garbled | Decoded(record: RawRecord)

  /** Places in start(). */
  datatype StartPoint =
    | StartEnter(callback: Callback)
    | StartAwaitJoin(callback: Callback)
    | StartAwaitExit(callback: Callback)
    | StartRecord(callback: Callback, saved: Saved)
    | StartReset(callback: Callback, saved: Saved)
    | StartArm(callback: Callback, saved: Saved)
    | StartCreate(callback: Callback, saved: Saved)
    | UndoAtomics(saved: Saved)
    | UndoRecord(saved: Saved)
    | UndoData(saved: Saved)
    | UndoLatch(saved: Saved)
    | UndoFault(saved: Saved)
    | StartJoin(callback: Callback, worker: Tid)
    | StartReaped(callback: Callback)
  {
    /** The mutex taken here. Condition variables retake their mutex, so an await is a guarded point. */
    function Guard(): Option<Lock> {
      match this
      case StartRecord(_, _) => Some(Record)
      case UndoRecord(_) => Some(Record)
      case StartReset(_, _) => Some(Data)
      case UndoData(_) => Some(Data)
      case UndoFault(_) => Some(Data)
      case StartEnter(_) => Some(Lifecycle)
      case StartAwaitJoin(_) => Some(Lifecycle)
      case StartAwaitExit(_) => Some(Lifecycle)
      case StartReaped(_) => Some(Lifecycle)
      case _ => None
    }

    /** The mutexes a thread already holds on arriving here. */
    predicate Keeps(l: Lock) {
      l == Lifecycle && !StartEnter? && !StartAwaitJoin? && !StartAwaitExit? && !StartJoin? && !StartReaped?
    }
  }

  /** Places in stop() and in ~Client(). */
  datatype StopPoint =
    | DestroyEnter
    | StopEnter
    | StopCommand
    | StopSend
    | StopShutdown
    | StopDecide
    | StopAwaitJoin
    | StopIdle
    | StopJoin(worker: Tid)
    | StopReaped
    | StopReapedState
  {
    function Guard(): Option<Lock> {
      match this
      case DestroyEnter => Some(Lifecycle)
      case StopEnter => Some(Lifecycle)
      case StopAwaitJoin => Some(Lifecycle)
      case StopReaped => Some(Lifecycle)
      case StopCommand => Some(Command)
      case StopSend => Some(Transport)
      case StopShutdown => Some(Transport)
      case StopIdle => Some(Data)
      case StopReapedState => Some(Data)
      case StopDecide => None
      case StopJoin(_) => None
    }

    predicate Keeps(l: Lock) {
      (l == Lifecycle &&
       (StopCommand? || StopSend? || StopShutdown? || StopDecide? || StopIdle? || StopReapedState?)) ||
      (l == Command && (StopSend? || StopShutdown?))
    }
  }

  /** Places in bias(), wait_for_first_sample() and health(). */
  datatype CallPoint =
    | BiasEnter
    | BiasRecord
    | BiasCheck
    | BiasSend
    | BiasRestart
    | WaitEnter
    | Waiting(generation: nat)
    | HealthEnter
  {
    function Guard(): Option<Lock> {
      match this
      case BiasEnter => Some(Command)
      case BiasRecord => Some(Record)
      case BiasSend => Some(Transport)
      case BiasRestart => Some(Transport)
      case _ => Some(Data)
    }

    predicate Keeps(l: Lock) {
      (l == Command && (BiasRecord? || BiasCheck? || BiasSend? || BiasRestart?)) ||
      (l == Record && (BiasCheck? || BiasSend? || BiasRestart?))
    }
  }

  /** Places in run() and receive_session() up to a started stream. */
  datatype SessionPoint =
    | WorkLoop
    | WorkConnecting
    | WorkCheckDiscover
    | WorkDiscover
    | WorkApply(name: string, calibration: Calibration)
    | WorkCheckConnect
    | WorkConnect
    | WorkConnected
    | WorkCommand
    | WorkSendStart
    | WorkBeginStream
  {
    function Guard(): Option<Lock> {
      match this
      case WorkConnecting => Some(Data)
      case WorkApply(_, _) => Some(Data)
      case WorkConnected => Some(Transport)
      case WorkSendStart => Some(Transport)
      case WorkCommand => Some(Command)
      case WorkBeginStream => Some(Record)
      case _ => None
    }

    predicate Keeps(l: Lock) {
      l == Command && WorkSendStart?
    }
  }

  /** Places in the receive loop, UdpTransport::receive() and handle_record(). */
  datatype RecordPoint =
    | WorkReceive(valid: bool)
    | WorkReceiveEnter(valid: bool)
    | WorkPoll(valid: bool)
    | WorkPolled(valid: bool)
    | WorkReceived(valid: bool, received: Received)
    | WorkTimeout(valid: bool)
    | WorkGarbled(valid: bool)
    | WorkValid(record: RawRecord, at: real)
    | WorkHandle(record: RawRecord, at: real)
    | WorkRecord(record: RawRecord, at: real)
    | WorkConvert(flight: Flight)
    | WorkCallback(flight: Flight)
    | WorkCallbackError(flight: Flight, message: string)
    | WorkDeliver(flight: Flight)
    | WorkDeliverData(flight: Flight)
  {
    function Guard(): Option<Lock> {
      match this
      case WorkReceiveEnter(_) => Some(Transport)
      case WorkPolled(_) => Some(Transport)
      case WorkTimeout(_) => Some(Data)
      case WorkGarbled(_) => Some(Data)
      case WorkValid(_, _) => Some(Data)
      case WorkRecord(_, _) => Some(Data)
      case WorkCallbackError(_, _) => Some(Data)
      case WorkDeliverData(_) => Some(Data)
      case WorkHandle(_, _) => Some(Record)
      case WorkDeliver(_) => Some(Record)
      case _ => None
    }

    predicate Keeps(l: Lock) {
      l == Record && (WorkRecord? || WorkDeliverData?)
    }
  }

  /** Places in leaving a session, recovering and exiting. */
  datatype ClosingPoint =
    | WorkFailed(result: SessionResult, valid: bool, message: string)
    | WorkClose(after: AfterClose)
    | WorkCloseSend(after: AfterClose)
    | WorkCloseSocket(after: AfterClose)
    | WorkDecide(result: SessionResult, valid: bool, message: string)
    | WorkFault(fault: Fault)
    | WorkBackoff(message: string)
    | WorkSleep
    | WorkCatch(message: string)
    | WorkExit
    | WorkExited
    | WorkMarkStopped
    | WorkDone
  {
    function Guard(): Option<Lock> {
      match this
      case WorkClose(_) => Some(Command)
      case WorkCloseSend(_) => Some(Transport)
      case WorkCloseSocket(_) => Some(Transport)
      case WorkFault(_) => Some(Data)
      case WorkBackoff(_) => Some(Data)
      case WorkSleep => Some(Data)
      case WorkMarkStopped => Some(Data)
      case _ => None
    }

    predicate Keeps(l: Lock) {
      l == Command && (WorkCloseSend? || WorkCloseSocket?)
    }
  }

  datatype Point =
    | Starting(start: StartPoint)
    | Stopping(use: StopUse, stop: StopPoint)
    | Calling(call: CallPoint)
    | Opening(session: SessionPoint)
    | Handling(record: RecordPoint)
    | Leaving(closing: ClosingPoint)
  {
    function Guard(): Option<Lock> {
      match this
      case Starting(p) => p.Guard()
      case Stopping(_, p) => p.Guard()
      case Calling(p) => p.Guard()
      case Opening(p) => p.Guard()
      case Handling(p) => p.Guard()
      case Leaving(p) => p.Guard()
    }

    predicate Keeps(l: Lock) {
      match this
      case Starting(p) => p.Keeps(l)
      case Stopping(_, p) => p.Keeps(l)
      case Calling(p) => p.Keeps(l)
      case Opening(p) => p.Keeps(l)
      case Handling(p) => p.Keeps(l)
      case Leaving(p) => p.Keeps(l)
    }

    predicate IsWorkers() {
      Opening? || Handling? || Leaving?
    }
  }

  /** A thread's place: still waiting for the guard of its point or not, and the run a worker was made for. */
  datatype Frame = Frame(point: Point, waiting: bool, run: nat)

  predicate Holding(f: Frame, l: Lock) {
    f.point.Keeps(l) || (!f.waiting && f.point.Guard() == Some(l))
  }

  /** Guarded by the lifecycle mutex, or atomic. The last two are history: who set joining, and the
    first fault published since the last start. */
  datatype Control = Control(
    stopping: bool,
    exited: bool,
    joining: bool,
    handle: Option<Tid>,
    active: Option<Tid>,
    callback: Callback,
    latch: FaultCode,
    joiner: Option<Tid>,
    published: Option<Fault>)

  /** Guarded by the command and transport mutexes. The wire is the history of commands sent. */
  datatype Link = Link(
    sessionStarted: bool,
    socketOpen: bool,
    shutdownRequested: bool,
    wire: seq<WireCommand>)

  datatype State = State(
    config: Config,
    clock: real,
    control: Control,
    link: Link,
    pipe: Pipeline,
    locks: map<Lock, Agent>,
    agents: map<Agent, Frame>,
    reclaim: Reclaim)

  /** Everything the environment decides. */
  datatype Env = Env(
    ok: bool, expired: bool, thrown: bool, tid: Tid, message: string,
    name: string, calibration: Calibration, received: Received)

  datatype Label = Silent | Threw | WaitReturned(result: bool) | HealthReturned(snapshot: HealthSnapshot)

  /** What a body does: the new shared state, and where the thread goes next unless it returns. */
  datatype Effect = Effect(state: State, next: Option<Point>, observed: Label)

  function Goes(s: State, p: Point): Effect {
    Effect(s, Some(p), Silent)
  }

  function Returns(s: State): Effect {
    Effect(s, None, Silent)
  }

  function Throws(s: State): Effect {
    Effect(s, None, Threw)
  }

  /** called_from_worker_thread() and the self-checks of start() and stop(). */
  predicate IsSelf(s: State, t: Tid) {
    !s.control.exited && s.control.active == Some(t)
  }

  // ---------------------------------------------------------------- start()

  function StartDecides(s: State, t: Tid, callback: Callback): Effect {
    if s.control.joining then Goes(s, Starting(StartAwaitJoin(callback)))
    else if s.control.handle.Some? then
      if !s.control.exited then
        if s.control.latch == NoFault then Throws(s) else Goes(s, Starting(StartAwaitExit(callback)))
      else
        Goes(s.(control := s.control.(joining := true, joiner := Some(t), handle := None)),
             Starting(StartJoin(callback, s.control.handle.value)))
    else
      var entry := Entry(s.control.stopping, s.control.exited, s.control.latch, s.control.callback, s.pipe,
                         s.control.published);
      Goes(s.(control := s.control.(callback := None)),
           Starting(StartRecord(callback,
                                Saved(s.control.stopping, s.control.exited, s.control.latch, s.control.callback, NEVER,
                                      s.pipe, entry))))
  }

  function StartBody(s: State, t: Tid, p: StartPoint, env: Env): Effect {
    match p
    case StartEnter(callback) =>
      if IsSelf(s, t) then Throws(s) else StartDecides(s, t, callback)
    case StartAwaitJoin(callback) => StartDecides(s, t, callback)
    case StartAwaitExit(callback) =>
      if s.control.exited || s.control.latch == NoFault then Goes(s, Starting(StartEnter(callback)))
      else Goes(s, Starting(p))
    case StartRecord(callback, saved) =>
      Goes(s.(pipe := ForgetDelivery(s.pipe)),
           Starting(StartReset(callback, saved.(lastDeliveryAt := s.pipe.lastDeliveryAt))))
    case StartReset(callback, saved) =>
      Goes(s.(control := s.control.(latch := NoFault), pipe := ResetForRun(s.pipe)),
           Starting(StartArm(callback, saved.(pipe := s.pipe))))
    case StartArm(callback, saved) =>
      Goes(s.(control := s.control.(stopping := false, exited := false, callback := callback)),
           Starting(StartCreate(callback, saved)))
    case StartCreate(_, saved) =>
      if env.ok then
        Returns(s.(
          control := s.control.(handle := Some(env.tid), active := Some(env.tid), published := None),
          agents := s.agents[Worker(env.tid) := NewWorker(s)],
          pipe := CountRun(s.pipe)))
      else Goes(s, Starting(UndoAtomics(saved)))
    case UndoAtomics(saved) =>
      Goes(s.(control := s.control.(stopping := saved.stopping, exited := saved.exited, callback := saved.callback)),
           Starting(UndoRecord(saved)))
    case UndoRecord(saved) =>
      Goes(s.(pipe := s.pipe.(lastDeliveryAt := saved.lastDeliveryAt)), Starting(UndoData(saved)))
    case UndoData(saved) =>
      Goes(s.(pipe := saved.pipe.(lastDeliveryAt := s.pipe.lastDeliveryAt, rdt := s.pipe.rdt, ft := s.pipe.ft)),
           Starting(UndoLatch(saved)))
    case UndoLatch(saved) =>
      if saved.latch != NoFault then Goes(s.(control := s.control.(latch := NoFault)), Starting(UndoFault(saved)))
      else Throws(s.(control := s.control.(latch := NoFault)))
    case UndoFault(saved) =>
      Throws(Publish(s, Fault(saved.latch, saved.pipe.health.lastError)))
    case StartJoin(callback, worker) =>
      Goes(s.(agents := s.agents - {Worker(worker)}), Starting(StartReaped(callback)))
    case StartReaped(callback) =>
      Goes(s.(control := s.control.(active := None, joining := false, joiner := None)), Starting(StartEnter(callback)))
  }

  /** FaultLatch::publish: only the first fault counts. */
  function Publish(s: State, fault: Fault): State {
    if s.control.latch != NoFault then s
    else s.(control := s.control.(latch := fault.code), pipe := ShowFault(s.pipe, fault))
  }

  /** A new worker belongs to the next run. */
  function NewWorker(s: State): Frame {
    Frame(Opening(WorkLoop), false, s.pipe.history.run + 1)
  }

  // ---------------------------------------------------------------- stop() and ~Client()

  function StopReturns(s: State, use: StopUse): Effect {
    match use
    case Plain => Returns(s)
    case FromCallback => Returns(s.(reclaim := Pending))
    case BeforeDestruct => Goes(s, Stopping(Destruct, StopEnter))
    case Destruct => Returns(s.(reclaim := Freed))
  }

  function StopBody(s: State, t: Tid, use: StopUse, p: StopPoint, env: Env): Effect {
    match p
    case StopEnter => Goes(s.(control := s.control.(stopping := true)), Stopping(use, StopCommand))
    case StopCommand => Goes(s, if s.link.sessionStarted then Stopping(use, StopSend) else Stopping(use, StopShutdown))
    case StopSend =>
      Goes(s.(link := s.link.(wire := s.link.wire + [StopStreaming], sessionStarted := false)),
           Stopping(use, StopShutdown))
    case StopShutdown => Goes(s.(link := s.link.(shutdownRequested := true)), Stopping(use, StopDecide))
    case StopDecide =>
      if IsSelf(s, t) then StopReturns(s, use)
      else if s.control.joining then Goes(s, Stopping(use, StopAwaitJoin))
      else if s.control.handle.None? then
        if s.control.latch == NoFault then Goes(s, Stopping(use, StopIdle)) else StopReturns(s, use)
      else Goes(s.(control := s.control.(joining := true, joiner := Some(t), handle := None)),
                Stopping(use, StopJoin(s.control.handle.value)))
    case StopAwaitJoin => Goes(s, if s.control.joining then Stopping(use, p) else Stopping(use, StopEnter))
    case StopIdle => StopReturns(s.(pipe := MarkState(s.pipe, Stopped)), use)
    case StopJoin(worker) => Goes(s.(agents := s.agents - {Worker(worker)}), Stopping(use, StopReaped))
    case StopReaped =>
      if s.control.latch == NoFault then Goes(s, Stopping(use, StopReapedState))
      else StopReturns(s.(control := s.control.(active := None, joining := false, joiner := None)), use)
    case StopReapedState =>
      StopReturns(s.(control := s.control.(active := None, joining := false, joiner := None),
                     pipe := MarkState(s.pipe, Stopped)), use)
    case DestroyEnter => Goes(s, Stopping(if IsSelf(s, t) then FromCallback else BeforeDestruct, StopEnter))
  }

  // ---------------------------------------------------------------- bias(), wait_for_first_sample(), health()

  predicate WaitOver(s: State, generation: nat) {
    s.pipe.generation != generation || s.pipe.deliveredGeneration == generation || s.control.stopping ||
    s.control.latch != NoFault
  }

  function WaitResult(s: State, generation: nat): Effect {
    Effect(s, None, WaitReturned(s.pipe.generation == generation && s.pipe.deliveredGeneration == generation))
  }

  function CallBody(s: State, p: CallPoint, env: Env): Effect {
    match p
    case BiasEnter => Goes(s, Calling(BiasRecord))
    case BiasRecord => Goes(s, Calling(BiasCheck))
    case BiasCheck =>
      if s.control.stopping || !s.link.sessionStarted || s.control.latch != NoFault || s.pipe.health.state != Streaming
      then Throws(s) else Goes(s, Calling(BiasSend))
    case BiasSend =>
      if env.ok && s.link.socketOpen
      then Goes(s.(link := s.link.(wire := s.link.wire + [SetSoftwareBias])), Calling(BiasRestart)) else Throws(s)
    case BiasRestart =>
      if env.ok && s.link.socketOpen
      then Returns(s.(link := s.link.(wire := s.link.wire + [StartRealtime]), pipe := ResetAfterBias(s.pipe)))
      else Throws(s)
    case WaitEnter =>
      var g := s.pipe.generation;
      if g == 0 then Effect(s, None, WaitReturned(false))
      else if WaitOver(s, g) then WaitResult(s, g)
      else Goes(s, Calling(Waiting(g)))
    case Waiting(g) => if WaitOver(s, g) || env.expired then WaitResult(s, g) else Goes(s, Calling(p))
    case HealthEnter =>
      var pipe := PruneWindows(s.pipe, s.clock);
      Effect(s.(pipe := pipe), None, HealthReturned(Snapshot(pipe, s.control.latch, s.clock)))
  }

  // ---------------------------------------------------------------- the worker: opening a session

  function SessionBody(s: State, p: SessionPoint, env: Env): Effect {
    match p
    case WorkLoop =>
      Goes(s, if s.control.stopping || s.control.latch != NoFault then Leaving(WorkClose(ThenExit))
              else Opening(WorkConnecting))
    case WorkConnecting => Goes(s.(pipe := MarkState(s.pipe, Connecting)), Opening(WorkCheckDiscover))
    case WorkCheckDiscover =>
      Goes(s, if s.control.stopping then Leaving(WorkClose(ThenDecide(SessionStopped, false, "")))
              else Opening(WorkDiscover))
    case WorkDiscover =>
      Goes(s, if env.ok then Opening(WorkApply(env.name, env.calibration))
              else if env.thrown then Leaving(WorkCatch(env.message))
              else Leaving(WorkFailed(ConfigurationFailed, false, env.message)))
    case WorkApply(name, calibration) =>
      Goes(s.(pipe := ApplyConfiguration(s.pipe, name, calibration)), Opening(WorkCheckConnect))
    case WorkCheckConnect =>
      Goes(s, if s.control.stopping then Leaving(WorkClose(ThenDecide(SessionStopped, false, "")))
              else Opening(WorkConnect))
    case WorkConnect =>
      Goes(s, if env.ok then Opening(WorkConnected) else Leaving(WorkFailed(SocketFailed, false, env.message)))
    case WorkConnected =>
      Goes(s.(link := s.link.(socketOpen := true, shutdownRequested := false)), Opening(WorkCommand))
    case WorkCommand =>
      Goes(s, if s.control.stopping then Leaving(WorkClose(ThenDecide(SessionStopped, false, "")))
              else Opening(WorkSendStart))
    case WorkSendStart =>
      if env.ok && s.link.socketOpen
      then Goes(s.(link := s.link.(wire := s.link.wire + [StartRealtime], sessionStarted := true)),
                Opening(WorkBeginStream))
      else Goes(s, Leaving(WorkFailed(SocketFailed, false, env.message)))
    case WorkBeginStream =>
      Goes(s.(pipe := BeginStream(s.pipe)),
           if env.thrown then Leaving(WorkCatch(env.message)) else Handling(WorkReceive(false)))
  }

  // ---------------------------------------------------------------- the worker: receiving and handling records

  function Continues(s: State, outcome: Option<SessionResult>): Effect {
    Goes(s, if outcome.None? then Handling(WorkReceive(true))
            else Leaving(WorkClose(ThenDecide(outcome.value, true, ""))))
  }

  function RecordBody(s: State, run: nat, p: RecordPoint, env: Env): Effect {
    match p
    case WorkReceive(valid) =>
      Goes(s, if s.control.stopping then Leaving(WorkClose(ThenDecide(SessionStopped, valid, "")))
              else if env.expired then Handling(WorkTimeout(valid)) else Handling(WorkReceiveEnter(valid)))
    case WorkReceiveEnter(valid) =>
      Goes(s, if !s.link.socketOpen then Leaving(WorkFailed(SocketFailed, valid, env.message))
              else if s.link.shutdownRequested then Handling(WorkReceived(valid, Nothing))
              else Handling(WorkPoll(valid)))
    case WorkPoll(valid) =>
      Goes(s, if env.thrown then Leaving(WorkFailed(SocketFailed, valid, env.message))
              else if env.ok then Handling(WorkPolled(valid)) else Handling(WorkReceived(valid, Nothing)))
    case WorkPolled(valid) =>
      Goes(s, if s.link.shutdownRequested then Handling(WorkReceived(valid, Nothing))
              else if env.thrown then Leaving(WorkFailed(SocketFailed, valid, env.message))
              else Handling(WorkReceived(valid, env.received)))
    case WorkReceived(valid, received) =>
      if s.control.stopping then Goes(s, Leaving(WorkClose(ThenDecide(SessionStopped, valid, ""))))
      else (
        match received
        case Nothing => Goes(s, Handling(WorkTimeout(valid)))
        case Garbled => Goes(s, Handling(WorkGarbled(valid)))
        case Decoded(record) => Goes(s, Handling(WorkValid(record, s.clock)))
      )
    case WorkTimeout(valid) =>
      if s.control.stopping then Goes(s, Leaving(WorkClose(ThenDecide(SessionStopped, valid, ""))))
      else Goes(s.(pipe := CountTimeout(s.pipe)), Leaving(WorkClose(ThenDecide(TimedOut, valid, ""))))
    case WorkGarbled(valid) =>
      var pipe := CountMalformed(s.pipe);
      Goes(s.(pipe := pipe),
           if IsStorm(pipe) then Leaving(WorkClose(ThenDecide(MalformedStorm, valid, "")))
           else Handling(WorkReceive(valid)))
    case WorkValid(record, at) =>
      Goes(s.(pipe := NoteValid(s.pipe)),
           if env.thrown then Leaving(WorkCatch(env.message)) else Handling(WorkHandle(record, at)))
    case WorkHandle(record, at) => Goes(s, Handling(WorkRecord(record, at)))
    case WorkRecord(record, at) =>
      if s.pipe.health.configuration.None? then
        Goes(s, Leaving(WorkCatch("sensor configuration is unavailable while streaming")))
      else
        var pipe := Receive(s.config, s.pipe, record, at);
        var flight := FlightOf(s.config, s.pipe, record, at);
        if FateOf(s.config, s.pipe, record, at) == Deliverable
        then Goes(s.(pipe := pipe), Handling(WorkConvert(flight)))
        else Continues(s.(pipe := pipe), flight.outcome)
    case WorkConvert(flight) =>
      if env.ok then Goes(s, Handling(WorkCallback(flight)))
      else Goes(s.(pipe := DropNonFinite(s.pipe)), Leaving(WorkClose(ThenDecide(ConfigurationFailed, true, ""))))
    case WorkCallback(flight) =>
      Goes(s, if s.control.callback.Some? && env.thrown then Handling(WorkCallbackError(flight, env.message))
              else Handling(WorkDeliver(flight)))
    case WorkCallbackError(flight, message) =>
      Continues(s.(pipe := RecordCallbackError(s.pipe, message)), CallbackFailureOutcome(s.config, flight.outcome))
    case WorkDeliver(flight) => Goes(s, Handling(WorkDeliverData(flight)))
    case WorkDeliverData(flight) => Continues(s.(pipe := Deliver(s.pipe, flight, run)), flight.outcome)
  }

  // ---------------------------------------------------------------- the worker: closing, recovering, exiting

  function ClosingBody(s: State, p: ClosingPoint, env: Env): Effect {
    match p
    case WorkFailed(result, valid, message) =>
      Goes(s, Leaving(WorkClose(ThenDecide(if s.control.stopping then SessionStopped else result, valid, message))))
    case WorkClose(after) =>
      Goes(s, if s.link.sessionStarted then Leaving(WorkCloseSend(after)) else Leaving(WorkCloseSocket(after)))
    case WorkCloseSend(after) =>
      Goes(s.(link := s.link.(wire := s.link.wire + [StopStreaming], sessionStarted := false)),
           Leaving(WorkCloseSocket(after)))
    case WorkCloseSocket(after) =>
      Goes(s.(link := s.link.(shutdownRequested := true, socketOpen := false)),
           match after
           case ThenExit => Leaving(WorkExit)
           case ThenDecide(result, valid, message) =>
             Leaving(WorkDecide(result, valid, if message == "" then MessageFor(result) else message)))
    case WorkDecide(result, valid, message) =>
      Goes(s, if result != SessionStopped && s.config.policy == FailStop
              then Leaving(WorkFault(Fault(FaultFor(result), message)))
              else if result == SessionStopped || s.control.stopping then Leaving(WorkClose(ThenExit))
              else Leaving(WorkBackoff(message)))
    case WorkFault(fault) =>
      var published := if s.control.latch == NoFault then Some(fault) else s.control.published;
      Goes(Publish(s.(control := s.control.(published := published)), fault), Leaving(WorkClose(ThenExit)))
    case WorkBackoff(message) =>
      Goes(s.(pipe := EnterBackoff(s.pipe, message)),
           if env.thrown then Leaving(WorkCatch(env.message)) else Leaving(WorkSleep))
    case WorkSleep => Goes(s, if s.control.stopping || env.expired then Opening(WorkLoop) else Leaving(p))
    case WorkCatch(message) =>
      Goes(s, if s.control.stopping then Leaving(WorkClose(ThenExit))
              else Leaving(WorkFault(Fault(SocketFault, message))))
    case WorkExit => Goes(s.(control := s.control.(exited := true)), Leaving(WorkExited))
    case WorkExited => Goes(s, if s.control.latch == NoFault then Leaving(WorkMarkStopped) else Leaving(WorkDone))
    case WorkMarkStopped => Goes(s.(pipe := MarkState(s.pipe, Stopped)), Leaving(WorkDone))
    case WorkDone => Goes(s, Leaving(p))
  }

  // ---------------------------------------------------------------- steps

  function Body(s: State, a: Agent, f: Frame, env: Env): Effect {
    match f.point
    case Starting(p) => StartBody(s, a.tid, p, env)
    case Stopping(use, p) => StopBody(s, a.tid, use, p, env)
    case Calling(p) => CallBody(s, p, env)
    case Opening(p) => SessionBody(s, p, env)
    case Handling(p) => RecordBody(s, f.run, p, env)
    case Leaving(p) => ClosingBody(s, p, env)
  }

  /** Moves the thread on and gives back the mutexes it does not take along. */
  function Settle(s: State, a: Agent, run: nat, next: Option<Point>): State {
    match next
    case None =>
      s.(agents := s.agents - {a}, locks := map l | l in s.locks && s.locks[l] != a :: s.locks[l])
    case Some(q) =>
      s.(agents := s.agents[a := Frame(q, q.Guard().Some?, run)],
         locks := map l | l in s.locks && (s.locks[l] != a || q.Keeps(l)) :: s.locks[l])
  }

  datatype Action =
    | Begin(tid: Tid, op: Op)
    | Acquire(agent: Agent)
    | Run(agent: Agent, env: Env)
    | Tick(now: real)

  function EntryPoint(op: Op): Point {
    match op
    case StartOp(callback) => Starting(StartEnter(callback))
    case StopOp => Stopping(Plain, StopEnter)
    case BiasOp => Calling(BiasEnter)
    case WaitOp => Calling(WaitEnter)
    case HealthOp => Calling(HealthEnter)
    case DestroyOp => Stopping(BeforeDestruct, DestroyEnter)
    case ReclaimOp => Stopping(BeforeDestruct, StopEnter)
  }

  ghost predicate NoCallers(s: State) {
    forall t: Tid :: Caller(t) !in s.agents
  }

  /** A thread can call unless it is in a call already; the worker thread calls only from its callback.
    Destruction begins when no call is in progress; while it waits, the callback of its worker may still call.
    The deferred destroyer has its own thread. */
  ghost predicate MayBegin(s: State, t: Tid, op: Op) {
    Caller(t) !in s.agents &&
    (Worker(t) in s.agents ==> InCallback(s.agents[Worker(t)].point)) &&
    match op
    case DestroyOp => s.reclaim == Alive && NoCallers(s)
    case ReclaimOp => s.reclaim == Pending && Worker(t) !in s.agents
    case _ => s.reclaim == Alive || (s.reclaim == Closing && Worker(t) in s.agents)
  }

  /** Joins wait for the joined worker to be done; a callback lasts while its thread is inside the client;
    a new thread has an identity no live thread has. */
  predicate CanRun(s: State, a: Agent, env: Env)
    requires a in s.agents
  {
    var f := s.agents[a];
    !f.waiting &&
    match f.point
    case Starting(StartJoin(_, worker)) => IsDone(s, worker)
    case Stopping(_, StopJoin(worker)) => IsDone(s, worker)
    case Handling(WorkCallback(_)) => Caller(a.tid) !in s.agents
    case Starting(StartCreate(_, _)) => env.ok ==> Caller(env.tid) !in s.agents && Worker(env.tid) !in s.agents
    case Leaving(WorkDone) => false
    case _ => true
  }

  predicate IsDone(s: State, worker: Tid) {
    Worker(worker) in s.agents ==> s.agents[Worker(worker)].point == Leaving(WorkDone)
  }

  /** The user's callback is running. */
  predicate InCallback(p: Point) {
    p.Handling? && p.record.WorkCallback?
  }

  ghost predicate Enabled(s: State, action: Action) {
    match action
    case Begin(t, op) => MayBegin(s, t, op)
    case Acquire(a) =>
      a in s.agents && s.agents[a].waiting && s.agents[a].point.Guard().Some? &&
      s.agents[a].point.Guard().value !in s.locks
    case Run(a, env) => a in s.agents && CanRun(s, a, env)
    case Tick(now) => s.clock <= now
  }

  function ReclaimAfter(s: State, op: Op): Reclaim {
    match op
    case DestroyOp => Closing
    case ReclaimOp => Reclaiming
    case _ => s.reclaim
  }

  ghost function Apply(s: State, action: Action): State
    requires Enabled(s, action)
  {
    match action
    case Begin(t, op) =>
      var p := EntryPoint(op);
      s.(agents := s.agents[Caller(t) := Frame(p, p.Guard().Some?, 0)], reclaim := ReclaimAfter(s, op))
    case Acquire(a) =>
      var f := s.agents[a];
      s.(agents := s.agents[a := f.(waiting := false)], locks := s.locks[f.point.Guard().value := a])
    case Run(a, env) =>
      var f := s.agents[a];
      var e := Body(s, a, f, env);
      Settle(e.state, a, f.run, e.next)
    case Tick(now) => s.(clock := now)
  }

  ghost predicate Initial(s: State) {
    exists config: Config, clock: real :: NEVER < clock && s == InitialState(config, clock)
  }

  function InitialState(config: Config, clock: real): State {
    State(
      config, clock, Control(false, true, false, None, None, None, NoFault, None, None),
      Link(false, false, false, []), FRESH, map[], map[], Alive)
  }

  /** A run from s: every action is enabled where it happens. */
  ghost predicate IsRun(s: State, actions: seq<Action>)
    decreases |actions|
  {
    actions == [] || (Enabled(s, actions[0]) && IsRun(Apply(s, actions[0]), actions[1..]))
  }

  ghost function After(s: State, actions: seq<Action>): State
    requires IsRun(s, actions)
    decreases |actions|
  {
    if actions == [] then s else After(Apply(s, actions[0]), actions[1..])
  }
}
