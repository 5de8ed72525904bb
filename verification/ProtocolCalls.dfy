/** What start(), stop(), bias() and wait_for_first_sample() achieve, in every interleaving. */
module ProtocolCalls {
  import opened Types
  import opened Sequence
  import opened Pipeline
  import opened PipelineInvariants
  import opened Protocol
  import opened ProtocolLocks
  import opened ProtocolWorkers
  import opened ProtocolWire
  import opened ProtocolRecords
  import opened ProtocolRollback
  import opened ProtocolData
  import opened ProtocolReclaim
  import opened ProtocolStop
  import opened ProtocolRuns

  // ---------------------------------------------------------------- wait_for_first_sample()

  /** The run the waiter waits for has delivered, was superseded, is being stopped or has faulted. */
  ghost predicate WaitEnds(s: State, generation: nat) {
    s.pipe.history.deliveries != [] || s.pipe.generation != generation || s.control.stopping ||
    s.control.latch != NoFault
  }

  /** The generation is the current one and its run has delivered. */
  ghost predicate HasDelivered(s: State, generation: nat) {
    s.pipe.generation == generation && s.pipe.history.deliveries != []
  }

  lemma DeliveredMeans(s: State)
    requires Ok(s)
    ensures s.pipe.history.deliveries != [] <==>
            s.pipe.generation != 0 && s.pipe.deliveredGeneration == s.pipe.generation
  {
    OkIsSound(s);
    assert GenerationsAgree(s.pipe);
  }

  lemma WaitersWaitForARun(s: State, u: Tid, generation: nat)
    requires Ok(s) && Caller(u) in s.agents && s.agents[Caller(u)].point == Calling(Waiting(generation))
    ensures generation != 0
  {
    OkIsTrue(s, Caller(u));
  }

  lemma CallStep(s: State, u: Tid, p: CallPoint, env: Env)
    requires Enabled(s, Run(Caller(u), env)) && s.agents[Caller(u)].point == Calling(p)
    ensures var e, t := Body(s, Caller(u), s.agents[Caller(u)], env), Apply(s, Run(Caller(u), env));
            e == CallBody(s, p, env) && t.pipe == e.state.pipe && t.link == e.state.link &&
            (e.next.None? ==> Caller(u) !in t.agents) &&
            (e.next.Some? ==> Caller(u) in t.agents && t.agents[Caller(u)].point == e.next.value)
  {
    hide CallBody;
  }

  /** A waiter returns at its next step once its wait is over or has timed out, and not before. */
  lemma WaiterReturns(s: State, u: Tid, generation: nat, env: Env)
    requires Reachable(s) && Enabled(s, Run(Caller(u), env))
    requires s.agents[Caller(u)].point == Calling(Waiting(generation))
    ensures var t := Apply(s, Run(Caller(u), env));
            if WaitEnds(s, generation) || env.expired then
              Caller(u) !in t.agents &&
              Body(s, Caller(u), s.agents[Caller(u)], env).observed == WaitReturned(HasDelivered(s, generation))
            else
              Caller(u) in t.agents && t.agents[Caller(u)].point == Calling(Waiting(generation))
  {
    hide Reachable, Ok, Apply, Body;
    ReachableIsOk(s);
    DeliveredMeans(s);
    WaitersWaitForARun(s, u, generation);
    CallStep(s, u, Waiting(generation), env);
  }

  /** A call that finds a run at work waits for that run; any other returns at once, true if there was a delivery. */
  lemma WaitBegins(s: State, u: Tid, env: Env)
    requires Reachable(s) && Enabled(s, Run(Caller(u), env)) && s.agents[Caller(u)].point == Calling(WaitEnter)
    ensures var g, t := s.pipe.generation, Apply(s, Run(Caller(u), env));
            t.pipe == s.pipe &&
            if g == 0 || WaitEnds(s, g) then
              Caller(u) !in t.agents &&
              Body(s, Caller(u), s.agents[Caller(u)], env).observed == WaitReturned(HasDelivered(s, g) && g != 0)
            else
              Caller(u) in t.agents && t.agents[Caller(u)].point == Calling(Waiting(g))
  {
    hide Reachable, Ok, Apply, Body;
    ReachableIsOk(s);
    DeliveredMeans(s);
    CallStep(s, u, WaitEnter, env);
  }

  /** The call is still in progress in every state of the run. */
  ghost predicate StaysInCall(s: State, actions: seq<Action>, u: Tid)
    requires IsRun(s, actions)
    decreases |actions|
  {
    Caller(u) in s.agents && (actions != [] ==> StaysInCall(Apply(s, actions[0]), actions[1..], u))
  }

  lemma StepKeepsWaiting(s: State, action: Action, u: Tid, generation: nat)
    requires Ok(s) && Enabled(s, action) && Caller(u) in s.agents && Caller(u) in Apply(s, action).agents
    requires s.agents[Caller(u)].point == Calling(Waiting(generation))
    ensures Apply(s, action).agents[Caller(u)].point == Calling(Waiting(generation))
  {
    hide Ok, Body, WorkersAgree;
    OkAgrees(s);
    match action
    case Run(a, env) =>
      if a == Caller(u) {
        CallStep(s, u, Waiting(generation), env);
      } else {
        OthersStayPut(s, a, env);
      }
    case Begin(_, _) =>
    case Acquire(_) =>
    case Tick(_) =>
  }

  lemma {:induction false} RunKeepsWaiting(s: State, actions: seq<Action>, u: Tid, generation: nat)
    requires Ok(s) && IsRun(s, actions) && StaysInCall(s, actions, u)
    requires s.agents[Caller(u)].point == Calling(Waiting(generation))
    ensures Caller(u) in After(s, actions).agents
    ensures After(s, actions).agents[Caller(u)].point == Calling(Waiting(generation))
    decreases |actions|
  {
    hide Ok, Apply;
    if actions != [] {
      assert Caller(u) in Apply(s, actions[0]).agents;
      StepKeepsWaiting(s, actions[0], u, generation);
      StepKeepsOk(s, actions[0]);
      RunKeepsWaiting(Apply(s, actions[0]), actions[1..], u, generation);
    }
  }

  lemma StaysLater(s: State, action: Action, actions: seq<Action>, start: State, before: seq<Action>)
    requires Initial(start) && IsRun(start, before) && s == After(start, before)
    requires Enabled(s, action) && IsRun(Apply(s, action), actions)
    ensures Reachable(After(Apply(s, action), actions))
  {
    RunsCompose(start, before, [action] + actions);
  }

  lemma {:induction false} RunsCompose(s: State, a: seq<Action>, b: seq<Action>)
    requires IsRun(s, a) && IsRun(After(s, a), b)
    ensures IsRun(s, a + b) && After(s, a + b) == After(After(s, a), b)
    decreases |a|
  {
    hide Apply, Enabled;
    if a == [] {
      assert a + b == b;
    } else {
      assert (a + b)[1..] == a[1..] + b;
      RunsCompose(Apply(s, a[0]), a[1..], b);
    }
  }

  /** wait_for_first_sample over whole runs: a call that waited returns true exactly when the run it found at its entry
    is still the current one at its return and has delivered. */
  lemma WaitIsTrueExactly(s: State, u: Tid, enter: Env, actions: seq<Action>, leave: Env)
    requires Reachable(s) && Enabled(s, Run(Caller(u), enter)) && s.agents[Caller(u)].point == Calling(WaitEnter)
    requires var t := Apply(s, Run(Caller(u), enter)); IsRun(t, actions) && StaysInCall(t, actions, u)
    requires var last := After(Apply(s, Run(Caller(u), enter)), actions);
             Enabled(last, Run(Caller(u), leave)) && Caller(u) !in Apply(last, Run(Caller(u), leave)).agents
    ensures var last := After(Apply(s, Run(Caller(u), enter)), actions);
            s.pipe.generation != 0 &&
            Body(last, Caller(u), last.agents[Caller(u)], leave).observed ==
              WaitReturned(HasDelivered(last, s.pipe.generation))
  {
    hide Ok, Apply, Enabled, Initial, Body, WaitEnds, HasDelivered;
    var g := s.pipe.generation;
    var t := Apply(s, Run(Caller(u), enter));
    ReachableIsOk(s);
    WaitBegins(s, u, enter);
    StepKeepsOk(s, Run(Caller(u), enter));
    assert Caller(u) in t.agents;
    RunKeepsWaiting(t, actions, u, g);
    var start, before :| Initial(start) && IsRun(start, before) && s == After(start, before);
    StaysLater(s, Run(Caller(u), enter), actions, start, before);
    WaiterReturns(After(t, actions), u, g, leave);
  }

  // ---------------------------------------------------------------- bias()

  /** bias() always comes to its check. */
  lemma BiasArrives(s: State, u: Tid, env: Env)
    requires Enabled(s, Run(Caller(u), env)) && s.agents[Caller(u)].point.Calling?
    requires s.agents[Caller(u)].point.call.BiasEnter? || s.agents[Caller(u)].point.call.BiasRecord?
    ensures var t := Apply(s, Run(Caller(u), env));
            t.link == s.link && t.pipe == s.pipe && Caller(u) in t.agents &&
            t.agents[Caller(u)].point ==
              if s.agents[Caller(u)].point.call.BiasEnter? then Calling(BiasRecord) else Calling(BiasCheck)
  {
    hide Apply;
    CallStep(s, u, s.agents[Caller(u)].point.call, env);
  }

  /** bias() sends exactly while a started session streams, unstopped and unfaulted, and else throws. */
  lemma BiasChecks(s: State, u: Tid, env: Env)
    requires Enabled(s, Run(Caller(u), env)) && s.agents[Caller(u)].point == Calling(BiasCheck)
    ensures var t := Apply(s, Run(Caller(u), env));
            t.link == s.link && t.pipe == s.pipe &&
            if s.link.sessionStarted && s.pipe.health.state == Streaming && !s.control.stopping &&
               s.control.latch == NoFault
            then Caller(u) in t.agents && t.agents[Caller(u)].point == Calling(BiasSend)
            else Caller(u) !in t.agents && Body(s, Caller(u), s.agents[Caller(u)], env).observed == Threw
  {
    hide Apply;
    CallStep(s, u, BiasCheck, env);
  }

  /** A started session has its socket. */
  ghost predicate SocketIsOpen(s: State) {
    s.link.sessionStarted ==> s.link.socketOpen
  }

  lemma BodyKeepsSocket(s: State, a: Agent, f: Frame, env: Env)
    requires SocketIsOpen(s) && (s.link.sessionStarted ==> MayBeOpen(f.point))
    ensures SocketIsOpen(Body(s, a, f, env).state)
  {
    hide StartBody, StopBody, CallBody, SessionBody, RecordBody, ClosingBody, SocketIsOpen;
    match f.point
    case Starting(p) => StartKeepsSocket(s, a.tid, p, env);
    case Stopping(use, p) => StopKeepsSocket(s, a.tid, use, p, env);
    case Calling(p) => CallKeepsSocket(s, p, env);
    case Opening(p) => SessionKeepsSocket(s, p, env);
    case Handling(p) => RecordKeepsSocket(s, f.run, p, env);
    case Leaving(p) => ClosingKeepsSocket(s, p, env);
  }

  lemma StartKeepsSocket(s: State, t: Tid, p: StartPoint, env: Env)
    requires SocketIsOpen(s)
    ensures SocketIsOpen(StartBody(s, t, p, env).state)
  {
  }

  lemma StopKeepsSocket(s: State, t: Tid, use: StopUse, p: StopPoint, env: Env)
    requires SocketIsOpen(s)
    ensures SocketIsOpen(StopBody(s, t, use, p, env).state)
  {
  }

  lemma CallKeepsSocket(s: State, p: CallPoint, env: Env)
    requires SocketIsOpen(s)
    ensures SocketIsOpen(CallBody(s, p, env).state)
  {
  }

  lemma SessionKeepsSocket(s: State, p: SessionPoint, env: Env)
    requires SocketIsOpen(s)
    ensures SocketIsOpen(SessionBody(s, p, env).state)
  {
  }

  lemma RecordKeepsSocket(s: State, run: nat, p: RecordPoint, env: Env)
    requires SocketIsOpen(s)
    ensures SocketIsOpen(RecordBody(s, run, p, env).state)
  {
    hide RecordBody;
    RecordStepsOn(s, run, p, env);
  }

  lemma ClosingKeepsSocket(s: State, p: ClosingPoint, env: Env)
    requires SocketIsOpen(s) && (s.link.sessionStarted ==> MayBeOpen(Leaving(p)))
    ensures SocketIsOpen(ClosingBody(s, p, env).state)
  {
  }

  lemma StepKeepsSocket(s: State, action: Action)
    requires Ok(s) && SocketIsOpen(s) && Enabled(s, action)
    ensures SocketIsOpen(Apply(s, action))
  {
    hide Ok, Body, MayBeOpen;
    if action.Run? {
      var a := action.agent;
      PlaceKnowsSession(s, a);
      BodyKeepsSocket(s, a, s.agents[a], action.env);
    }
  }

  lemma PlaceKnowsSession(s: State, a: Agent)
    requires Ok(s) && a in s.agents
    ensures s.link.sessionStarted ==> MayBeOpen(s.agents[a].point)
    ensures SawOpen(s.agents[a].point) ==> s.link.sessionStarted
  {
  }

  lemma {:induction false} RunKeepsSocket(s: State, actions: seq<Action>)
    requires Ok(s) && SocketIsOpen(s) && IsRun(s, actions)
    ensures SocketIsOpen(After(s, actions))
    decreases |actions|
  {
    hide Ok, Apply, SocketIsOpen;
    if actions != [] {
      StepKeepsSocket(s, actions[0]);
      StepKeepsOk(s, actions[0]);
      RunKeepsSocket(Apply(s, actions[0]), actions[1..]);
    }
  }

  lemma StartedHasSocket(s: State)
    requires Reachable(s)
    ensures SocketIsOpen(s)
  {
    hide Ok;
    var start, actions :| Initial(start) && IsRun(start, actions) && s == After(start, actions);
    InitialIsOk(start);
    RunKeepsSocket(start, actions);
  }

  /** Past its check bias() sends the bias command and then the start command, as far as the sends succeed, and then
    counts the RDT records afresh; the FT baseline stays. */
  lemma BiasSends(s: State, u: Tid, env: Env)
    requires Reachable(s) && Enabled(s, Run(Caller(u), env)) && s.agents[Caller(u)].point.Calling?
    requires s.agents[Caller(u)].point.call.BiasSend? || s.agents[Caller(u)].point.call.BiasRestart?
    ensures var t := Apply(s, Run(Caller(u), env));
            var observed := Body(s, Caller(u), s.agents[Caller(u)], env).observed;
            if !env.ok then t.link == s.link && t.pipe == s.pipe && Caller(u) !in t.agents && observed == Threw
            else if s.agents[Caller(u)].point.call.BiasSend? then
              t.link.wire == s.link.wire + [SetSoftwareBias] && t.pipe == s.pipe &&
              Caller(u) in t.agents && t.agents[Caller(u)].point == Calling(BiasRestart)
            else
              t.link.wire == s.link.wire + [StartRealtime] && Caller(u) !in t.agents && observed == Silent &&
              !t.pipe.rdt.hasLast && t.pipe.ft == s.pipe.ft && t.pipe.health == s.pipe.health
  {
    hide Ok, Reachable, Apply;
    ReachableIsOk(s);
    StartedHasSocket(s);
    PlaceKnowsSession(s, Caller(u));
    CallStep(s, u, s.agents[Caller(u)].point.call, env);
  }

  // ---------------------------------------------------------------- stop()

  /** After a stop() from another thread the client shows Stopped, or the fault that came first. */
  lemma StopShowsStopped(s: State, u: Tid, env: Env)
    requires Reachable(s) && Enabled(s, Run(Caller(u), env)) && s.agents[Caller(u)].point.Stopping?
    requires Worker(u) !in s.agents && Caller(u) !in Apply(s, Run(Caller(u), env)).agents
    ensures var t := Apply(s, Run(Caller(u), env));
            t.control.latch == s.control.latch &&
            if t.control.latch == NoFault then t.pipe.health.state == Stopped
            else t.pipe.health.state == Faulted && t.pipe.health.faultCode == t.control.latch
  {
    hide Ok, Reachable, Healthy, IsSelf, WorkersAgree, StopBody, Point.Keeps, Point.Guard;
    ReachableIsOk(s);
    OkShowsFault(s);
    OkIsTrue(s, Caller(u));
    OkAgrees(s);
    var f := s.agents[Caller(u)];
    StopLeavesNoWorker(s, u, env);
    if f.point.stop.StopDecide? {
      NotSelf(s, u);
    }
    StopEnds(s, u, f.point.use, f.point.stop, env);
  }

  lemma NotSelf(s: State, u: Tid)
    requires WorkersAgree(s) && NoWorkers(s.agents) && Caller(u) in s.agents && s.agents[Caller(u)].point.Stopping?
    requires s.agents[Caller(u)].point.stop.StopDecide? && !s.agents[Caller(u)].waiting
    ensures !IsSelf(s, u)
  {
    assert Holds(s.agents, Caller(u), Lifecycle);
    SelfCheckIsRight(s, u);
  }

  lemma StopEnds(s: State, u: Tid, use: StopUse, p: StopPoint, env: Env)
    requires StopBody(s, u, use, p, env).next.None? && !(p.StopDecide? && IsSelf(s, u))
    requires MarksStopped(Stopping(use, p)) ==> s.control.latch == NoFault
    ensures var q := StopBody(s, u, use, p, env).state;
            q.control.latch == s.control.latch &&
            q.pipe == if s.control.latch == NoFault then MarkState(s.pipe, Stopped) else s.pipe
  {
  }

  // ---------------------------------------------------------------- start()

  /** The callback a start() was called with. */
  function CallbackGiven(p: StartPoint): Option<Callback> {
    match p
    case StartEnter(callback) => Some(callback)
    case StartAwaitJoin(callback) => Some(callback)
    case StartAwaitExit(callback) => Some(callback)
    case StartRecord(callback, _) => Some(callback)
    case StartReset(callback, _) => Some(callback)
    case StartArm(callback, _) => Some(callback)
    case StartCreate(callback, _) => Some(callback)
    case StartJoin(callback, _) => Some(callback)
    case StartReaped(callback) => Some(callback)
    case _ => None
  }

  /** A worker is live: it has not exited, and no fault is latched. */
  ghost predicate IsLive(s: State) {
    s.control.handle.Some? && Worker(s.control.handle.value) in s.agents && !s.control.exited &&
    s.control.latch == NoFault
  }

  /** A new worker is about to run its first session, for a run of its own, with this callback. */
  ghost predicate BeginsRun(s: State, t: State, worker: Tid, callback: Callback, entry: Entry) {
    t.control.handle == Some(worker) && Worker(worker) in t.agents &&
    t.agents[Worker(worker)].point == Opening(WorkLoop) && t.agents[Worker(worker)].run == t.pipe.history.run &&
    t.control.callback == callback && !t.control.stopping && !t.control.exited && t.control.latch == NoFault &&
    RunIsNew(t.pipe) && t.pipe.health.state == Connecting && t.pipe.health.lastError == "" &&
    t.pipe.generation == entry.pipe.generation + 1
  }

  /** start() returns with a new worker that has this call's callback and a fresh run; it throws to the worker's own
    thread, over a live worker, and when it has rolled back; and it ends in no other way. */
  lemma StartReturns(s: State, u: Tid, env: Env)
    requires Reachable(s) && Enabled(s, Run(Caller(u), env)) && s.agents[Caller(u)].point.Starting?
    requires Caller(u) !in Apply(s, Run(Caller(u), env)).agents
    ensures var p := s.agents[Caller(u)].point.start;
            Body(s, Caller(u), s.agents[Caller(u)], env).observed == if p.StartCreate? then Silent else Threw
    ensures var p, t := s.agents[Caller(u)].point.start, Apply(s, Run(Caller(u), env));
            match p
            case StartEnter(_) => t.control == s.control && t.pipe == s.pipe && (Worker(u) in s.agents || IsLive(s))
            case StartAwaitJoin(_) => t.control == s.control && t.pipe == s.pipe && IsLive(s)
            case StartCreate(callback, saved) => BeginsRun(s, t, env.tid, callback, saved.entry)
            case UndoLatch(saved) => AsEntered(t, saved.entry)
            case UndoFault(saved) => AsEntered(t, saved.entry)
            case _ => false
  {
    hide Ok, Reachable, Apply, StartBody, BeginsRun, AsEntered, WorkersAgree;
    ReachableIsOk(s);
    OkAgrees(s);
    var p := s.agents[Caller(u)].point.start;
    StartStep(s, u, p, env);
    StartEnds(s, u, p, env);
    match p
    case StartEnter(_) => LiveWorker(s, u);
    case StartAwaitJoin(_) => LiveWorker(s, u);
    case StartCreate(_, _) => CreationBeginsRun(s, u, env);
    case UndoLatch(_) => RollBackReturns(s, u, env);
    case UndoFault(_) => RollBackReturns(s, u, env);
    case _ =>
  }

  lemma RollBackReturns(s: State, u: Tid, env: Env)
    requires Ok(s) && Enabled(s, Run(Caller(u), env)) && s.agents[Caller(u)].point.Starting?
    requires s.agents[Caller(u)].point.start.UndoLatch? || s.agents[Caller(u)].point.start.UndoFault?
    ensures var t := Apply(s, Run(Caller(u), env));
            Caller(u) !in t.agents ==> AsEntered(t, s.agents[Caller(u)].point.start.saved.entry)
  {
    hide Ok, Apply, AsEntered;
    RollBackEnds(s, u, env);
  }

  lemma StartStep(s: State, u: Tid, p: StartPoint, env: Env)
    requires Enabled(s, Run(Caller(u), env)) && s.agents[Caller(u)].point == Starting(p)
    ensures var e, t := StartBody(s, u, p, env), Apply(s, Run(Caller(u), env));
            Body(s, Caller(u), s.agents[Caller(u)], env) == e &&
            t.pipe == e.state.pipe && t.control == e.state.control &&
            (e.next.Some? ==> Caller(u) in t.agents && t.agents[Caller(u)].point == e.next.value)
  {
    hide StartBody;
  }

  lemma StartEnds(s: State, u: Tid, p: StartPoint, env: Env)
    requires StartBody(s, u, p, env).next.None?
    ensures p.StartEnter? || p.StartAwaitJoin? || (p.StartCreate? && env.ok) || p.UndoLatch? || p.UndoFault?
    ensures StartBody(s, u, p, env).observed == if p.StartCreate? then Silent else Threw
    ensures p.StartEnter? || p.StartAwaitJoin? ==>
              StartBody(s, u, p, env).state == s &&
              ((p.StartEnter? && IsSelf(s, u)) ||
               (s.control.handle.Some? && !s.control.joining && !s.control.exited && s.control.latch == NoFault))
  {
    hide ForgetDelivery, ResetForRun, CountRun, ShowFault;
  }

  lemma LiveWorker(s: State, u: Tid)
    requires WorkersAgree(s) && Caller(u) in s.agents && !s.agents[Caller(u)].waiting
    requires s.agents[Caller(u)].point.Starting? &&
             (s.agents[Caller(u)].point.start.StartEnter? || s.agents[Caller(u)].point.start.StartAwaitJoin?)
    ensures IsSelf(s, u) ==> Worker(u) in s.agents
    ensures s.control.handle.Some? ==> Worker(s.control.handle.value) in s.agents
  {
    assert Holds(s.agents, Caller(u), Lifecycle);
    SelfCheckIsRight(s, u);
  }

  lemma CreationBeginsRun(s: State, u: Tid, env: Env)
    requires Ok(s) && Enabled(s, Run(Caller(u), env)) && env.ok
    requires s.agents[Caller(u)].point.Starting? && s.agents[Caller(u)].point.start.StartCreate?
    ensures var p := s.agents[Caller(u)].point.start;
            BeginsRun(s, Apply(s, Run(Caller(u), env)), env.tid, p.callback, p.saved.entry)
  {
    hide Ok, Healthy, WorkersAgree, Apply, ResetForRun, EntryKept;
    var p := s.agents[Caller(u)].point.start;
    OkIsTrue(s, Caller(u));
    CreateShape(s, Run(Caller(u), env));
    assert s.pipe == ResetForRun(p.saved.pipe);
    ResetBeginsRun(p.saved.pipe);
  }

  /** Nothing of the last run is left, and health() shows a client that connects. */
  lemma ResetBeginsRun(p: Pipeline)
    requires p.lastDeliveryAt == NEVER
    ensures var q := ResetForRun(p);
            RunIsNew(q) && q.health.state == Connecting && q.health.lastError == "" &&
            q.generation == p.generation + 1
  {
  }

  /** A start() that does not return goes on towards a new worker with the callback it was given: it waits while another
    thread joins, waits while a faulted worker is still exiting, joins a worker that has exited,
      and then creates one. */
  lemma StartGoesOn(s: State, u: Tid, p: StartPoint, env: Env)
    requires Enabled(s, Run(Caller(u), env)) && s.agents[Caller(u)].point == Starting(p)
    requires CallbackGiven(p).Some?
    ensures var t := Apply(s, Run(Caller(u), env));
            Caller(u) in t.agents ==>
              t.agents[Caller(u)].point.Starting? &&
              var q := t.agents[Caller(u)].point.start;
              (CallbackGiven(q) == CallbackGiven(p) || (p.StartCreate? && !env.ok && q.UndoAtomics?)) &&
              (p.StartEnter? || p.StartAwaitJoin? ==>
                if s.control.joining then q.StartAwaitJoin?
                else if s.control.handle.None? then q.StartRecord?
                else if s.control.exited then q.StartJoin? && q.worker == s.control.handle.value
                else q.StartAwaitExit?) &&
              (p.StartJoin? ==> q.StartReaped? && Worker(p.worker) !in t.agents) &&
              (p.StartReaped? ==> q.StartEnter? && !t.control.joining && t.control.handle == s.control.handle) &&
              (p.StartAwaitExit? ==>
                if s.control.exited || s.control.latch == NoFault then q.StartEnter? else q.StartAwaitExit?) &&
              (p.StartRecord? ==> q.StartReset?) && (p.StartReset? ==> q.StartArm?) && (p.StartArm? ==> q.StartCreate?)
  {
    hide ForgetDelivery, ResetForRun, CountRun, ShowFault, StopBody, CallBody, SessionBody, RecordBody, ClosingBody;
  }
}
