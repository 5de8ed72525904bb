/** Why a worker ends, and what it shows on the way. */
module ProtocolDecisions {
  import opened Types
  import opened Sequence
  import opened FtHistory
  import opened Pipeline
  import opened PipelineInvariants
  import opened Protocol
  import opened ProtocolLocks
  import opened ProtocolWorkers
  import opened ProtocolWire
  import opened ProtocolRecords
  import opened ProtocolRollback
  import opened ProtocolData
  import opened ProtocolReclaim
  import opened ProtocolStop
  import opened ProtocolRuns

  /** The session on its way out says it was stopped. */
  predicate SaysStopped(p: Point) {
    match p
    case Leaving(WorkFailed(result, _, _)) => result == SessionStopped
    case Leaving(WorkClose(ThenDecide(result, _, _))) => result == SessionStopped
    case Leaving(WorkCloseSend(ThenDecide(result, _, _))) => result == SessionStopped
    case Leaving(WorkCloseSocket(ThenDecide(result, _, _))) => result == SessionStopped
    case Leaving(WorkDecide(result, _, _)) => result == SessionStopped
    case _ => FlightAt(p).Some? && FlightAt(p).value.outcome == Some(SessionStopped)
  }

  /** Only a stop makes a session say so, and only a stop or a fault leads a worker to its exit. */
  ghost predicate HasCause(s: State, p: Point) {
    (SaysStopped(p) ==> !p.Handling? && s.control.stopping) &&
    (IsFinal(p) ==> s.control.stopping || s.control.latch != NoFault)
  }

  ghost predicate EveryEndHasCause(s: State) {
    forall w: Tid | Worker(w) in s.agents :: HasCause(s, s.agents[Worker(w)].point)
  }

  lemma OpeningHasCause(s: State, p: SessionPoint, env: Env)
    requires HasCause(s, Opening(p))
    ensures var e := SessionBody(s, p, env); e.next.Some? && HasCause(e.state, e.next.value)
  {
    hide ApplyConfiguration, BeginStream, MarkState;
  }

  lemma ReceivingHasCause(s: State, run: nat, p: RecordPoint, env: Env)
    requires IsReceiving(p) || IsCounting(p)
    ensures var e := RecordBody(s, run, p, env); e.next.Some? && HasCause(e.state, e.next.value)
  {
    hide IsStorm;
  }

  /** No record says that its session was stopped. */
  lemma CountedHasCause(s: State, run: nat, p: RecordPoint, env: Env)
    requires p.WorkRecord?
    ensures var e := RecordBody(s, run, p, env); e.next.Some? && HasCause(e.state, e.next.value)
  {
    hide FateOf, MakeSample, Receive, Advance, FtObserve;
  }

  lemma FlyingHasCause(s: State, run: nat, p: RecordPoint, env: Env)
    requires HasCause(s, Handling(p)) && !IsReceiving(p) && !IsCounting(p) && !p.WorkRecord?
    ensures var e := RecordBody(s, run, p, env); e.next.Some? && HasCause(e.state, e.next.value)
  {
    hide Deliver, RecordCallbackError, DropNonFinite;
  }

  lemma LeavingHasCause(s: State, p: ClosingPoint, env: Env)
    requires HasCause(s, Leaving(p)) && (p.WorkFault? ==> p.fault.code != NoFault)
    ensures var e := ClosingBody(s, p, env); e.next.Some? && HasCause(e.state, e.next.value)
  {
    hide EnterBackoff, MarkState, ShowFault, FaultFor, MessageFor;
  }

  lemma BodyHasCause(s: State, w: Tid, f: Frame, env: Env)
    requires HasCause(s, f.point) && WorkerPlace(s, f.point, f.run) && f.point.IsWorkers()
    ensures var e := Body(s, Worker(w), f, env); e.next.Some? && HasCause(e.state, e.next.value)
  {
    hide HasCause, SessionBody, RecordBody, ClosingBody, Synced, StampFits;
    match f.point
    case Opening(p) => OpeningHasCause(s, p, env);
    case Leaving(p) => LeavingHasCause(s, p, env);
    case Handling(p) =>
      if IsReceiving(p) || IsCounting(p) {
        ReceivingHasCause(s, f.run, p, env);
      } else {
        if p.WorkRecord? {
          CountedHasCause(s, f.run, p, env);
        } else {
          FlyingHasCause(s, f.run, p, env);
        }
      }
  }

  lemma CauseStays(s: State, t: State, p: Point)
    requires HasCause(s, p)
    requires s.control.stopping ==> t.control.stopping
    requires s.control.latch != NoFault ==> t.control.latch != NoFault
    ensures HasCause(t, p)
  {
  }

  /** While a worker exists, neither a stop request nor a latched fault is taken back. */
  lemma RequestsStay(s: State, action: Action, w: Tid)
    requires Ok(s) && Enabled(s, action) && Worker(w) in s.agents
    ensures s.control.stopping ==> Apply(s, action).control.stopping
    ensures s.control.latch != NoFault ==> Apply(s, action).control.latch != NoFault
  {
    hide Ok, Body, TruePlace, Healthy, WorkersAgree, Speaks;
    OkAgrees(s);
    if s.control.stopping && !Apply(s, action).control.stopping {
      WritersAreAlone(s, action);
    }
    if action.Run? && s.control.latch != NoFault {
      var a := action.agent;
      ResettersSpeak(s.agents[a].point);
      if Speaks(s.agents[a].point) {
        SpeakersHaveNoWorker(s, a);
      }
      OkIsTrue(s, a);
      OkIsPlaced(s, a);
      BodyKeepsLatch(s, a, s.agents[a], action.env);
    }
  }

  lemma ResettersSpeak(p: Point)
    ensures p.Starting? && p.start.StartReset? ==> Speaks(p)
  {
  }

  lemma NewcomerIsAtItsLoop(s: State, a: Agent, env: Env, w: Tid)
    requires a in s.agents && Worker(w) in Threads(s, s.agents[a].point, env) && Worker(w) !in s.agents
    ensures Threads(s, s.agents[a].point, env)[Worker(w)].point == Opening(WorkLoop)
  {
  }

  lemma LoopHasCause(s: State)
    ensures HasCause(s, Opening(WorkLoop))
  {
  }

  lemma WorkerStepHasCause(s: State, w: Tid, env: Env)
    requires Ok(s) && EveryEndHasCause(s) && Enabled(s, Run(Worker(w), env))
    ensures EveryEndHasCause(Apply(s, Run(Worker(w), env)))
  {
    hide Ok, Body, HasCause, WorkersAgree, Healthy;
    var f, t := s.agents[Worker(w)], Apply(s, Run(Worker(w), env));
    OkAgrees(s);
    OkIsTrue(s, Worker(w));
    OkIsPlaced(s, Worker(w));
    BodyHasCause(s, w, f, env);
    BodyThreads(s, Worker(w), f, env);
    ProtocolData.WorkerThreads(s, f.point, env);
    CauseInSameControl(Body(s, Worker(w), f, env).state, t, t.agents[Worker(w)].point);
    forall x: Tid | Worker(x) in t.agents ensures HasCause(t, t.agents[Worker(x)].point) {
      WorkerIsUnique(s, w, x);
    }
  }

  lemma CauseInSameControl(s: State, t: State, p: Point)
    requires HasCause(s, p) && t.control == s.control
    ensures HasCause(t, p)
  {
  }

  lemma StepKeepsCause(s: State, action: Action)
    requires Ok(s) && EveryEndHasCause(s) && Enabled(s, action)
    ensures EveryEndHasCause(Apply(s, action))
  {
    hide Ok, Body, HasCause, WorkersAgree, Threads;
    if action.Run? && action.agent.Worker? {
      WorkerStepHasCause(s, action.agent.tid, action.env);
    } else {
      var t := Apply(s, action);
      forall w: Tid | Worker(w) in t.agents ensures HasCause(t, t.agents[Worker(w)].point) {
        if action.Run? {
          BodyThreads(s, action.agent, s.agents[action.agent], action.env);
        }
        if Worker(w) in s.agents {
          RequestsStay(s, action, w);
          WorkerStaysPut(s, action, w);
          CauseStays(s, t, s.agents[Worker(w)].point);
        } else {
          NewcomerIsAtItsLoop(s, action.agent, action.env, w);
          LoopHasCause(t);
        }
      }
    }
  }

  lemma WorkerStaysPut(s: State, action: Action, w: Tid)
    requires Ok(s) && Enabled(s, action) && Worker(w) in s.agents && Worker(w) in Apply(s, action).agents
    requires action.Run? ==> action.agent != Worker(w)
    ensures Apply(s, action).agents[Worker(w)].point == s.agents[Worker(w)].point
  {
    hide Ok, Body;
    SessionsAreOk(s);
    if !(action.Acquire? && action.agent == Worker(w)) {
      OthersLeaveWorker(s, w, action);
    }
  }

  lemma {:induction false} RunKeepsCause(s: State, actions: seq<Action>)
    requires Ok(s) && EveryEndHasCause(s) && IsRun(s, actions)
    ensures EveryEndHasCause(After(s, actions))
    decreases |actions|
  {
    hide Ok, Apply, HasCause;
    if actions != [] {
      StepKeepsCause(s, actions[0]);
      StepKeepsOk(s, actions[0]);
      RunKeepsCause(Apply(s, actions[0]), actions[1..]);
    }
  }

  /** A worker that is on its way to its exit was asked to stop or has faulted: nothing else ends it, and no session
    says it was stopped unless a stop was asked for. */
  lemma WorkersEndForCause(s: State, w: Tid)
    requires Reachable(s) && Worker(w) in s.agents
    ensures SaysStopped(s.agents[Worker(w)].point) ==> s.control.stopping
    ensures IsFinal(s.agents[Worker(w)].point) ==> s.control.stopping || s.control.latch != NoFault
  {
    hide Ok, IsFinal, SaysStopped, After, IsRun;
    var start, actions :| Initial(start) && IsRun(start, actions) && s == After(start, actions);
    InitialIsOk(start);
    assert EveryEndHasCause(start);
    RunKeepsCause(start, actions);
    assert HasCause(s, s.agents[Worker(w)].point);
  }

  /** After a session: a failed one faults under FailStop; otherwise the worker exits exactly if a stop was asked for,
    and else backs off and tries again. */
  lemma SessionIsDecided(s: State, w: Tid, result: SessionResult, valid: bool, message: string, env: Env)
    requires Reachable(s) && Enabled(s, Run(Worker(w), env))
    requires s.agents[Worker(w)].point == Leaving(WorkDecide(result, valid, message))
    ensures var t := Apply(s, Run(Worker(w), env));
            t.pipe == s.pipe && t.control == s.control && Worker(w) in t.agents &&
            t.agents[Worker(w)].point ==
              if s.config.policy == FailStop && result != SessionStopped
              then Leaving(WorkFault(Fault(FaultFor(result), message)))
              else if s.control.stopping then Leaving(WorkClose(ThenExit))
              else Leaving(WorkBackoff(message))
  {
    hide Ok, Reachable, StartBody, StopBody, CallBody, SessionBody, RecordBody, FaultFor, MessageFor;
    WorkersEndForCause(s, w);
  }

  /** A back-off ends with its time or with a stop, and leads back to the loop. */
  lemma BackOffLeadsBack(s: State, w: Tid, env: Env)
    requires Enabled(s, Run(Worker(w), env)) && s.agents[Worker(w)].point == Leaving(WorkSleep)
    ensures var t := Apply(s, Run(Worker(w), env));
            t.pipe == s.pipe && t.control == s.control && Worker(w) in t.agents &&
            t.agents[Worker(w)].point == if s.control.stopping || env.expired then Opening(WorkLoop)
                                         else Leaving(WorkSleep)
  {
    hide Apply, StartBody, StopBody, CallBody, SessionBody, RecordBody;
    WorkerStep(s, w, env);
  }

  // ---------------------------------------------------------------- a finished worker

  /** A worker that has finished without a fault left the client showing Stopped. */
  ghost predicate DoneShowsStopped(s: State) {
    forall w: Tid | Worker(w) in s.agents && s.agents[Worker(w)].point == Leaving(WorkDone) ::
      s.control.latch == NoFault ==> s.pipe.health.state == Stopped
  }

  lemma FinishingShows(s: State, p: ClosingPoint, env: Env)
    requires ClosingBody(s, p, env).next == Some(Leaving(WorkDone)) && p != WorkDone
    ensures var q := ClosingBody(s, p, env).state;
            q.control.latch == NoFault ==> q.pipe.health.state == Stopped
  {
    hide EnterBackoff, ShowFault, FaultFor, MessageFor;
  }

  lemma OnlyClosingFinishes(s: State, w: Tid, f: Frame, env: Env)
    requires f.point.IsWorkers() && Body(s, Worker(w), f, env).next == Some(Leaving(WorkDone))
    ensures f.point.Leaving?
  {
    hide ClosingBody, RecordBody, ApplyConfiguration, BeginStream, MarkState;
    if f.point.Handling? {
      RecordStepsOn(s, f.run, f.point.record, env);
    }
  }

  /** With a worker around, calls change neither what health() shows of the state nor, once latched, the fault. */
  lemma CallersKeepShown(s: State, u: Tid, env: Env, w: Tid)
    requires Ok(s) && Enabled(s, Run(Caller(u), env)) && Worker(w) in s.agents
    ensures var t := Apply(s, Run(Caller(u), env));
            t.pipe.health == s.pipe.health && t.control.latch == s.control.latch
  {
    hide Body, DataOk, SessionOk, ReclaimAgrees, Speaks, Looks;
    var a, f := Caller(u), s.agents[Caller(u)];
    OkAgrees(s);
    OkIsPlaced(s, a);
    WritersOfData(f.point);
    if Speaks(f.point) {
      SpeakersHaveNoWorker(s, a);
    } else if !WritesData(f.point) {
      CallerLooks(s, u, env);
      LookersKeepPipe(s, f.point, Body(s, a, f, env));
    } else {
      ObserverBody(s, a, f, env);
    }
  }

  lemma LookersKeepPipe(s: State, p: Point, e: Effect)
    requires Looks(s, p, e)
    ensures e.state.pipe == s.pipe && e.state.control.latch == s.control.latch
  {
  }

  lemma WritersOfData(p: Point)
    ensures WritesData(p) && !Speaks(p) && !p.IsWorkers() ==> p == Calling(HealthEnter) || p == Calling(BiasRestart)
  {
  }

  lemma ObserverBody(s: State, a: Agent, f: Frame, env: Env)
    requires f.point.Calling?
    ensures var q := Body(s, a, f, env).state;
            q.pipe.health == s.pipe.health && q.control == s.control
  {
    hide Snapshot, StartBody, StopBody, SessionBody, RecordBody, ClosingBody;
  }

  lemma StepKeepsShown(s: State, action: Action)
    requires Ok(s) && DoneShowsStopped(s) && Enabled(s, action)
    ensures DoneShowsStopped(Apply(s, action))
  {
    hide Ok, Body, WorkersAgree;
    var t := Apply(s, action);
    OkAgrees(s);
    forall w: Tid | Worker(w) in t.agents && t.agents[Worker(w)].point == Leaving(WorkDone)
      ensures t.control.latch == NoFault ==> t.pipe.health.state == Stopped
    {
      if action.Run? && action.agent == Worker(w) {
        FinishingStep(s, w, action.env);
      } else if Worker(w) in s.agents {
        WorkerStaysPut(s, action, w);
        if action.Run? && action.agent.Caller? {
          CallersKeepShown(s, action.agent.tid, action.env, w);
        } else if action.Run? {
          WorkerIsUnique(s, w, action.agent.tid);
        }
      } else {
        BodyThreads(s, action.agent, s.agents[action.agent], action.env);
        NewcomerIsAtItsLoop(s, action.agent, action.env, w);
      }
    }
  }

  lemma FinishingStep(s: State, w: Tid, env: Env)
    requires Ok(s) && Enabled(s, Run(Worker(w), env))
    requires Worker(w) in Apply(s, Run(Worker(w), env)).agents
    requires Apply(s, Run(Worker(w), env)).agents[Worker(w)].point == Leaving(WorkDone)
    ensures var t := Apply(s, Run(Worker(w), env)); t.control.latch == NoFault ==> t.pipe.health.state == Stopped
  {
    hide Ok, Apply, ClosingBody, RecordBody, SessionBody;
    var f := s.agents[Worker(w)];
    OkIsPlaced(s, Worker(w));
    BodyShape(s, Worker(w), f, env);
    WorkerStep(s, w, env);
    OnlyClosingFinishes(s, w, f, env);
    FinishingShows(s, f.point.closing, env);
  }

  lemma {:induction false} RunKeepsShown(s: State, actions: seq<Action>)
    requires Ok(s) && DoneShowsStopped(s) && IsRun(s, actions)
    ensures DoneShowsStopped(After(s, actions))
    decreases |actions|
  {
    hide Ok, Apply, DoneShowsStopped;
    if actions != [] {
      StepKeepsShown(s, actions[0]);
      StepKeepsOk(s, actions[0]);
      RunKeepsShown(Apply(s, actions[0]), actions[1..]);
    }
  }

  /** A worker that has finished leaves the client Stopped, or Faulted with the fault that came first. */
  lemma FinishedWorkerShows(s: State, w: Tid)
    requires Reachable(s) && Worker(w) in s.agents && s.agents[Worker(w)].point == Leaving(WorkDone)
    ensures if s.control.latch == NoFault then s.pipe.health.state == Stopped
            else s.pipe.health.state == Faulted &&
                 s.control.published == Some(Fault(s.control.latch, s.pipe.health.lastError))
  {
    hide Ok, After, IsRun;
    var start, actions :| Initial(start) && IsRun(start, actions) && s == After(start, actions);
    InitialIsOk(start);
    assert DoneShowsStopped(start);
    RunKeepsShown(start, actions);
    RunKeepsOk(start, actions);
    OkShowsFault(s);
  }

  /** Every way a session can fail has its own fault, and only a stopped one has none. */
  lemma FaultsByName(a: SessionResult, b: SessionResult)
    ensures FaultFor(a) == FaultFor(b) ==> a == b
    ensures FaultFor(a) == NoFault <==> a == SessionStopped
    ensures FaultFor(ConfigurationFailed) == SensorConfigurationFault && FaultFor(TimedOut) == TimeoutFault
    ensures FaultFor(SocketFailed) == SocketFault && FaultFor(SeriousStatus) == SeriousStatusFault
    ensures FaultFor(FtStalled) == FtStallFault && FaultFor(FtWentBackward) == FtBackwardFault
    ensures FaultFor(MalformedStorm) == MalformedStormFault && FaultFor(CallbackFailed) == CallbackFault
    ensures MessageFor(a) == "" <==> a == SessionStopped
  {
  }

  // ---------------------------------------------------------------- how a session ends

  /** How the session that is being left ended. */
  function EndAt(p: Point): Option<SessionResult> {
    match p
    case Leaving(WorkFailed(result, _, _)) => Some(result)
    case Leaving(WorkClose(ThenDecide(result, _, _))) => Some(result)
    case Leaving(WorkCloseSend(ThenDecide(result, _, _))) => Some(result)
    case Leaving(WorkCloseSocket(ThenDecide(result, _, _))) => Some(result)
    case Leaving(WorkDecide(result, _, _)) => Some(result)
    case _ => None
  }

  /** The places at which the worker looks whether it is to stop. */
  predicate LooksForStop(p: Point) {
    match p
    case Opening(q) => q.WorkCheckDiscover? || q.WorkCheckConnect? || q.WorkCommand?
    case Handling(q) => q.WorkReceive? || q.WorkReceived? || q.WorkTimeout?
    case _ => false
  }

  /** The transport fails: no connection, no start command, a closed socket, or a wait that throws. */
  predicate TransportFails(s: State, p: Point, env: Env) {
    match p
    case Opening(q) => (q.WorkConnect? && !env.ok) || (q.WorkSendStart? && (!env.ok || !s.link.socketOpen))
    case Handling(q) =>
      (q.WorkReceiveEnter? && !s.link.socketOpen) || (q.WorkPoll? && env.thrown) ||
      (q.WorkPolled? && !s.link.shutdownRequested && env.thrown)
    case _ => false
  }

  lemma OpeningEndsAs(s: State, p: SessionPoint, env: Env)
    ensures var e := SessionBody(s, p, env);
            e.next.Some? && EndsAs(s, Opening(p), e.state, e.next.value, env)
  {
    hide ApplyConfiguration, BeginStream, MarkState;
  }

  lemma ReceivingEndsAs(s: State, run: nat, p: RecordPoint, env: Env)
    requires IsReceiving(p) || IsCounting(p)
    ensures var e := RecordBody(s, run, p, env);
            e.next.Some? && EndsAs(s, Handling(p), e.state, e.next.value, env)
  {
  }

  /** Each way to end names its cause. */
  ghost predicate EndsAs(s: State, p: Point, t: State, q: Point, env: Env) {
    (EndAt(q) == Some(SessionStopped) <==> LooksForStop(p) && s.control.stopping) &&
    (EndAt(q) == Some(SocketFailed) <==> TransportFails(s, p, env)) &&
    (EndAt(q) == Some(ConfigurationFailed) <==> p == Opening(WorkDiscover) && !env.ok && !env.thrown) &&
    (EndAt(q) == Some(TimedOut) <==> p.Handling? && p.record.WorkTimeout? && !s.control.stopping) &&
    (EndAt(q) == Some(MalformedStorm) <==>
      p.Handling? && p.record.WorkGarbled? && t.pipe.consecutiveMalformed >= 10)
  }

  /** Up to a record, a session ends as stopped, timed out, failed at the transport or at the discovery, or in a storm,
    each exactly for its own cause. */
  lemma SessionEndsAs(s: State, w: Tid, env: Env)
    requires Enabled(s, Run(Worker(w), env))
    requires var p := s.agents[Worker(w)].point;
             p.Opening? || (p.Handling? && (IsReceiving(p.record) || IsCounting(p.record)))
    ensures var t := Apply(s, Run(Worker(w), env));
            Worker(w) in t.agents && EndsAs(s, s.agents[Worker(w)].point, t, t.agents[Worker(w)].point, env)
  {
    hide SessionBody, RecordBody, EndAt, LooksForStop, TransportFails, Apply;
    WorkerStep(s, w, env);
    match s.agents[Worker(w)].point
    case Opening(p) => OpeningEndsAs(s, p, env);
    case Handling(p) => ReceivingEndsAs(s, s.agents[Worker(w)].run, p, env);
  }

  /** On its way to the decision the end stays what it was, except that a failure under a stop becomes a stop. */
  lemma EndIsCarried(s: State, w: Tid, env: Env)
    requires Enabled(s, Run(Worker(w), env)) && EndAt(s.agents[Worker(w)].point).Some?
    requires !s.agents[Worker(w)].point.closing.WorkDecide?
    ensures var t := Apply(s, Run(Worker(w), env));
            Worker(w) in t.agents &&
            EndAt(t.agents[Worker(w)].point) ==
              if s.agents[Worker(w)].point.closing.WorkFailed? && s.control.stopping then Some(SessionStopped)
              else EndAt(s.agents[Worker(w)].point)
  {
    hide MessageFor, FaultFor, StartBody, StopBody, CallBody, SessionBody, RecordBody, Apply;
    WorkerStep(s, w, env);
  }

  // ---------------------------------------------------------------- what health() will show

  ghost predicate OnlyHealth(s: State, t: State) {
    t.pipe == s.pipe.(health := t.pipe.health) && t.link == s.link
  }

  lemma WorkerStep(s: State, w: Tid, env: Env)
    requires Enabled(s, Run(Worker(w), env))
    ensures var e, t := Body(s, Worker(w), s.agents[Worker(w)], env), Apply(s, Run(Worker(w), env));
            t.pipe == e.state.pipe && t.link == e.state.link && t.control == e.state.control &&
            (e.next.Some? ==> Worker(w) in t.agents && t.agents[Worker(w)].point == e.next.value)
  {
    hide Body;
  }

  /** The worker's own reports: connecting, a time-out counted, backing off for a reason, the first fault, stopped. */
  lemma WorkerReports(s: State, w: Tid, env: Env)
    requires Reachable(s) && Enabled(s, Run(Worker(w), env))
    ensures var p, t := s.agents[Worker(w)].point, Apply(s, Run(Worker(w), env));
            var h, c := s.pipe.health, s.pipe.health.counters;
            (p == Opening(WorkConnecting) ==> OnlyHealth(s, t) && t.pipe.health == h.(state := Connecting)) &&
            (p.Handling? && p.record.WorkTimeout? ==>
              OnlyHealth(s, t) &&
              t.pipe.health == if s.control.stopping then h else h.(counters := c.(timeout := c.timeout + 1))) &&
            (p.Leaving? && p.closing.WorkBackoff? ==>
              OnlyHealth(s, t) && s.config.policy == Reconnect &&
              t.pipe.health ==
                h.(state := Backoff, lastError := p.closing.message,
                   counters := c.(reconnect := c.reconnect + 1))) &&
            (p.Leaving? && p.closing.WorkFault? ==>
              OnlyHealth(s, t) && t.control.latch == p.closing.fault.code != NoFault &&
              t.control.published == Some(p.closing.fault) &&
              t.pipe.health == h.(state := Faulted, faultCode := p.closing.fault.code,
                                  lastError := p.closing.fault.message)) &&
            (p == Leaving(WorkMarkStopped) ==> OnlyHealth(s, t) && t.pipe.health == h.(state := Stopped))
  {
    hide Ok, Reachable, StartBody, StopBody, CallBody, RecordBody, Apply, FaultFor, MessageFor;
    ReachableIsOk(s);
    ReportersKnow(s, w);
    WorkerStep(s, w, env);
    var f := s.agents[Worker(w)];
    if f.point.Handling? && f.point.record.WorkTimeout? {
      TimeoutBody(s, f.run, f.point.record, env);
    }
  }

  lemma ReportersKnow(s: State, w: Tid)
    requires Ok(s) && Worker(w) in s.agents
    ensures var p := s.agents[Worker(w)].point;
            (p.Leaving? && p.closing.WorkFault? ==> p.closing.fault.code != NoFault && s.control.latch == NoFault) &&
            (p.Leaving? && p.closing.WorkBackoff? ==> s.config.policy == Reconnect)
  {
    hide Ok, Healthy, Synced, StampFits;
    OkIsTrue(s, Worker(w));
  }

  lemma TimeoutBody(s: State, run: nat, p: RecordPoint, env: Env)
    requires p.WorkTimeout?
    ensures RecordBody(s, run, p, env).state == if s.control.stopping then s else s.(pipe := CountTimeout(s.pipe))
  {
  }

  /** A garbled packet is counted and nothing else is; a decoded one ends the run of garbled ones and is handled with
    the time at which it came. */
  lemma PacketsAreCounted(s: State, w: Tid, env: Env)
    requires Enabled(s, Run(Worker(w), env)) && s.agents[Worker(w)].point.Handling?
    requires IsReceiving(s.agents[Worker(w)].point.record) || IsCounting(s.agents[Worker(w)].point.record)
    ensures var p, t := s.agents[Worker(w)].point.record, Apply(s, Run(Worker(w), env));
            var c := s.pipe.health.counters;
            Worker(w) in t.agents &&
            var q := t.agents[Worker(w)].point;
            (p.WorkReceived? && !s.control.stopping ==>
              t.pipe == s.pipe &&
              q == match p.received
                   case Nothing => Handling(WorkTimeout(p.valid))
                   case Garbled => Handling(WorkGarbled(p.valid))
                   case Decoded(record) => Handling(WorkValid(record, s.clock))) &&
            (p.WorkGarbled? ==>
              t.pipe.health == s.pipe.health.(counters := c.(malformed := c.malformed + 1)) &&
              t.pipe.history.packets == s.pipe.history.packets + [false]) &&
            (p.WorkValid? ==>
              t.pipe.health == s.pipe.health && t.pipe.history.packets == s.pipe.history.packets + [true] &&
              (!env.thrown ==> q == Handling(WorkHandle(p.record, p.at)))) &&
            (p.WorkHandle? ==> t.pipe == s.pipe && q == Handling(WorkRecord(p.record, p.at)))
  {
    hide StartBody, StopBody, CallBody, SessionBody, RecordBody, ClosingBody, Apply;
    WorkerStep(s, w, env);
    PacketBody(s, s.agents[Worker(w)].run, s.agents[Worker(w)].point.record, env);
  }

  lemma PacketBody(s: State, run: nat, p: RecordPoint, env: Env)
    requires IsReceiving(p) || IsCounting(p)
    ensures var e, c := RecordBody(s, run, p, env), s.pipe.health.counters;
            e.next.Some? &&
            (p.WorkReceived? && !s.control.stopping ==>
              e.state.pipe == s.pipe &&
              e.next.value == match p.received
                              case Nothing => Handling(WorkTimeout(p.valid))
                              case Garbled => Handling(WorkGarbled(p.valid))
                              case Decoded(record) => Handling(WorkValid(record, s.clock))) &&
            (p.WorkGarbled? ==>
              e.state.pipe.health == s.pipe.health.(counters := c.(malformed := c.malformed + 1)) &&
              e.state.pipe.history.packets == s.pipe.history.packets + [false]) &&
            (p.WorkValid? ==>
              e.state.pipe.health == s.pipe.health &&
              e.state.pipe.history.packets == s.pipe.history.packets + [true] &&
              (!env.thrown ==> e.next.value == Handling(WorkHandle(p.record, p.at)))) &&
            (p.WorkHandle? ==> e.state.pipe == s.pipe && e.next.value == Handling(WorkRecord(p.record, p.at)))
  {
    hide IsStorm;
  }

  /** A stream begins with a tracker that takes any record as its first, and with no pending restart; the FT baseline
    and the samples of earlier streams stay. */
  lemma StreamBegins(s: State, w: Tid, env: Env)
    requires Enabled(s, Run(Worker(w), env)) && s.agents[Worker(w)].point == Opening(WorkBeginStream)
    ensures var t := Apply(s, Run(Worker(w), env));
            !t.pipe.rdt.hasLast && !t.pipe.ft.hasCandidate &&
            t.pipe.ft.hasLast == s.pipe.ft.hasLast && t.pipe.ft.previous == s.pipe.ft.previous &&
            t.pipe.health == s.pipe.health && t.pipe.latest == s.pipe.latest &&
            t.pipe.lastDeliveryAt == s.pipe.lastDeliveryAt && t.pipe.consecutiveMalformed == s.pipe.consecutiveMalformed
  {
    hide StartBody, StopBody, CallBody, RecordBody, ClosingBody;
  }
}
