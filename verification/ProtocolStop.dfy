/** A stop is never lost. */
module ProtocolStop {
  import opened Types
  import opened Pipeline
  import opened Protocol
  import opened ProtocolLocks
  import opened ProtocolWorkers
  import opened ProtocolWire

  /** Stop is requested, no session is open and nobody is past the check that would open one. */
  ghost predicate Quieted(s: State) {
    s.control.stopping && !s.link.sessionStarted &&
    forall a | a in s.agents :: s.agents[a].point != Opening(WorkSendStart)
  }

  /** The action by which a later start() asks for a new run. */
  ghost predicate IsRearm(s: State, action: Action) {
    action.Run? && action.agent in s.agents &&
    s.agents[action.agent].point.Starting? && s.agents[action.agent].point.start.StartArm?
  }

  /** stop() quiets the client when it leaves its command-locked section, whatever connect() did meanwhile. */
  lemma StopQuiets(s: State, a: Agent, env: Env)
    requires SessionOk(s) && Enabled(s, Run(a, env))
    requires s.agents[a].point.Stopping? && s.agents[a].point.stop.StopShutdown?
    ensures Quieted(Apply(s, Run(a, env)))
  {
    assert Holds(s.agents, a, Command);
    forall b | b in s.agents && s.agents[b].point == Opening(WorkSendStart) ensures b == a {
      assert Holds(s.agents, b, Command);
    }
    assert IsStopping(s.agents[a].point);
  }

  /** The start command is sent only after the command mutex showed stopping_ clear. */
  lemma OpeningChecksStop(s: State, p: SessionPoint, env: Env)
    requires s.control.stopping
    ensures SessionBody(s, p, env).next != Some(Opening(WorkSendStart))
  {
    hide ApplyConfiguration, BeginStream, MarkState;
  }

  lemma HandlingOpensNothing(s: State, run: nat, p: RecordPoint, env: Env)
    ensures RecordBody(s, run, p, env).next != Some(Opening(WorkSendStart))
  {
    hide RecordBody;
    RecordStepsOn(s, run, p, env);
  }

  lemma LeavingOpensNothing(s: State, p: ClosingPoint, env: Env)
    ensures ClosingBody(s, p, env).next != Some(Opening(WorkSendStart))
  {
    hide ShowFault, EnterBackoff, MarkState, FaultFor, MessageFor;
  }

  lemma ArmedIsNotStopping(s: State, a: Agent)
    requires WorkersAgree(s) && a in s.agents
    ensures RoleOf(s.agents[a].point).Armed? ==> !s.control.stopping
  {
    if a.Caller? {
      assert RoleHolds(s.control, s.agents, a.tid, RoleOf(s.agents[Caller(a.tid)].point));
    }
  }

  lemma QuietBody(s: State, a: Agent, env: Env)
    requires SessionOk(s) && Quieted(s) && Enabled(s, Run(a, env)) && !IsRearm(s, Run(a, env))
    ensures !Sends(s.agents[a].point) && !Rearms(s.agents[a].point)
    ensures Body(s, a, s.agents[a], env).next != Some(Opening(WorkSendStart))
  {
    hide StartBody, StopBody, CallBody, SessionBody, RecordBody, ClosingBody;
    var p := s.agents[a].point;
    assert SawOpen(p) ==> s.link.sessionStarted;
    ArmedIsNotStopping(s, a);
    BodyShape(s, a, s.agents[a], env);
    match p
    case Opening(q) => OpeningChecksStop(s, q, env);
    case Handling(q) => HandlingOpensNothing(s, s.agents[a].run, q, env);
    case Leaving(q) => LeavingOpensNothing(s, q, env);
    case _ =>
  }

  /** From then on no step puts a command on the wire, until a start() rearms the client. */
  lemma QuietStaysQuiet(s: State, action: Action)
    requires SessionOk(s) && Quieted(s) && Enabled(s, action) && !IsRearm(s, action)
    ensures Quieted(Apply(s, action))
    ensures Apply(s, action).link.wire == s.link.wire
  {
    hide Body, Reads, OneWorker, Announced;
    match action
    case Run(a, env) =>
      QuietBody(s, a, env);
      BodySilently(s, a, s.agents[a], env);
      BodyThreads(s, a, s.agents[a], env);
    case Begin(t, op) => assert EntryPoint(op) != Opening(WorkSendStart);
    case Acquire(_) =>
    case Tick(_) =>
  }

  /** No action of the run is a rearm. */
  ghost predicate NeverRearms(s: State, actions: seq<Action>)
    requires IsRun(s, actions)
    decreases |actions|
  {
    actions == [] || (!IsRearm(s, actions[0]) && NeverRearms(Apply(s, actions[0]), actions[1..]))
  }

  /** A stop is never lost: over any run without a new start(), the wire stays as the stop left it. */
  lemma {:induction false} StopIsNeverLost(s: State, actions: seq<Action>)
    requires SessionOk(s) && Quieted(s) && IsRun(s, actions) && NeverRearms(s, actions)
    ensures After(s, actions).link.wire == s.link.wire
    ensures Quieted(After(s, actions)) && SessionOk(After(s, actions))
    decreases |actions|
  {
    if actions != [] {
      QuietStaysQuiet(s, actions[0]);
      StepKeepsSessions(s, actions[0]);
      StopIsNeverLost(Apply(s, actions[0]), actions[1..]);
    }
  }

  // ---------------------------------------------------------------- the worker winds down

  /** How far a worker place is from the end once stopping_ is set. */
  function Depth(p: Point): nat {
    match p
    case Opening(q) => (
      match q
      case WorkConnecting => 34
      case WorkCheckDiscover => 33
      case WorkDiscover => 32
      case WorkApply(_, _) => 31
      case WorkCheckConnect => 30
      case WorkConnect => 29
      case WorkConnected => 28
      case WorkCommand => 27
      case WorkSendStart => 26
      case WorkBeginStream => 25
      case WorkLoop => 8
    )
    case Handling(q) => (
      match q
      case WorkReceiveEnter(_) => 24
      case WorkPoll(_) => 23
      case WorkPolled(_) => 22
      case WorkReceived(_, _) => 21
      case WorkValid(_, _) => 22
      case WorkHandle(_, _) => 21
      case WorkRecord(_, _) => 20
      case WorkConvert(_) => 19
      case WorkCallback(_) => 18
      case WorkDeliver(_) => 17
      case WorkDeliverData(_) => 16
      case WorkCallbackError(_, _) => 16
      case WorkGarbled(_) => 16
      case WorkReceive(_) => 15
      case WorkTimeout(_) => 15
    )
    case Leaving(q) => (
      match q
      case WorkFailed(_, _, _) => 15
      case WorkClose(after) => if after.ThenExit? then 6 else 14
      case WorkCloseSend(after) => if after.ThenExit? then 5 else 13
      case WorkCloseSocket(after) => if after.ThenExit? then 4 else 12
      case WorkDecide(_, _, _) => 11
      case WorkBackoff(_) => 10
      case WorkSleep => 9
      case WorkCatch(_) => 8
      case WorkFault(_) => 7
      case WorkExit => 3
      case WorkExited => 2
      case WorkMarkStopped => 1
      case WorkDone => 0
    )
    case _ => 0
  }

  /** Steps a worker still has, counting the taking of each mutex. */
  function StepsLeft(f: Frame): nat {
    2 * Depth(f.point) + (if f.waiting then 1 else 0)
  }

  lemma OpeningWindsDown(s: State, p: SessionPoint, env: Env)
    requires s.control.stopping
    ensures Depth(SessionBody(s, p, env).next.value) < Depth(Opening(p))
  {
    hide ApplyConfiguration, BeginStream, MarkState;
  }

  lemma HandlingWindsDown(s: State, run: nat, p: RecordPoint, env: Env)
    requires s.control.stopping
    ensures Depth(RecordBody(s, run, p, env).next.value) < Depth(Handling(p))
  {
    hide Receive, FlightOf, FateOf, Deliver, CountMalformed, NoteValid, CallbackFailureOutcome, IsStorm, CountTimeout,
      DropNonFinite, RecordCallbackError;
    match p
    case WorkRecord(_, _) =>
    case WorkReceived(_, _) =>
    case _ =>
  }

  lemma LeavingWindsDown(s: State, p: ClosingPoint, env: Env)
    requires s.control.stopping && p != WorkDone
    ensures Depth(ClosingBody(s, p, env).next.value) < Depth(Leaving(p))
  {
    hide ShowFault, EnterBackoff, MarkState, FaultFor, MessageFor;
  }

  lemma WorkersAreAtWork(s: State, w: Tid)
    requires SessionOk(s) && Worker(w) in s.agents
    ensures s.agents[Worker(w)].point.IsWorkers()
  {
  }

  /** Every step of the worker brings it closer to its exit. */
  lemma WorkerWindsDown(s: State, w: Tid, action: Action)
    requires SessionOk(s) && s.control.stopping && Enabled(s, action)
    requires action.Run? || action.Acquire?
    requires action.agent == Worker(w)
    ensures Worker(w) in Apply(s, action).agents
    ensures StepsLeft(Apply(s, action).agents[Worker(w)]) < StepsLeft(s.agents[Worker(w)])
  {
    hide SessionOk, Depth, SessionBody, RecordBody, ClosingBody, StartBody, StopBody, CallBody;
    WorkersAreAtWork(s, w);
    if action.Run? {
      var f, env := s.agents[Worker(w)], action.env;
      BodyShape(s, Worker(w), f, env);
      match f.point
      case Opening(p) => OpeningWindsDown(s, p, env);
      case Handling(p) => HandlingWindsDown(s, f.run, p, env);
      case Leaving(p) => LeavingWindsDown(s, p, env);
    }
  }

  /** No step of another thread takes the worker back. */
  lemma OthersLeaveWorker(s: State, w: Tid, action: Action)
    requires SessionOk(s) && Enabled(s, action) && Worker(w) in s.agents
    requires action.Run? || action.Acquire? ==> action.agent != Worker(w)
    ensures Worker(w) in Apply(s, action).agents ==> Apply(s, action).agents[Worker(w)] == s.agents[Worker(w)]
    ensures Worker(w) !in Apply(s, action).agents ==> s.agents[Worker(w)].point == Leaving(WorkDone)
  {
    hide Body;
    if action.Run? {
      var a := action.agent;
      BodyThreads(s, a, s.agents[a], action.env);
    }
  }

  /** How many steps of the run are steps of the worker. */
  function StepsOf(actions: seq<Action>, w: Tid): nat {
    if actions == [] then 0 else
      StepsOf(actions[1..], w) +
      if (actions[0].Run? || actions[0].Acquire?) && actions[0].agent == Worker(w) then 1 else 0
  }

  /** The worker stays the same thread through the run: it is not joined before the end. */
  ghost predicate Lives(s: State, actions: seq<Action>, w: Tid)
    requires IsRun(s, actions)
    decreases |actions|
  {
    Worker(w) in s.agents && (actions != [] ==> Lives(Apply(s, actions[0]), actions[1..], w))
  }

  /** After a stop the worker has boundedly many steps left. */
  lemma {:induction false} StoppedWorkerWindsDown(s: State, actions: seq<Action>, w: Tid)
    requires SessionOk(s) && Quieted(s) && IsRun(s, actions) && NeverRearms(s, actions) && Lives(s, actions, w)
    ensures Worker(w) in After(s, actions).agents
    ensures StepsOf(actions, w) + StepsLeft(After(s, actions).agents[Worker(w)]) <= StepsLeft(s.agents[Worker(w)])
    decreases |actions|
  {
    hide SessionOk, StepsLeft, Apply;
    if actions != [] {
      var action := actions[0];
      assert s.control.stopping;
      QuietStaysQuiet(s, action);
      StepKeepsSessions(s, action);
      if (action.Run? || action.Acquire?) && action.agent == Worker(w) {
        WorkerWindsDown(s, w, action);
      } else {
        OthersLeaveWorker(s, w, action);
      }
      StoppedWorkerWindsDown(Apply(s, action), actions[1..], w);
    }
  }

  /** And when it has used them up, it is done. */
  lemma StoppedWorkerFinishes(s: State, actions: seq<Action>, w: Tid)
    requires SessionOk(s) && Quieted(s) && IsRun(s, actions) && NeverRearms(s, actions) && Lives(s, actions, w)
    requires StepsOf(actions, w) == StepsLeft(s.agents[Worker(w)])
    ensures Worker(w) in After(s, actions).agents
    ensures After(s, actions).agents[Worker(w)].point == Leaving(WorkDone)
  {
    StoppedWorkerWindsDown(s, actions, w);
    StopIsNeverLost(s, actions);
    NothingLeft(After(s, actions), w);
  }

  lemma NothingLeft(s: State, w: Tid)
    requires SessionOk(s) && Worker(w) in s.agents && StepsLeft(s.agents[Worker(w)]) == 0
    ensures s.agents[Worker(w)].point == Leaving(WorkDone)
  {
  }
}
