/** Mutual exclusion and the lock order. */
module ProtocolLocks {
  import opened Types
  import opened Pipeline
  import opened Protocol

  /** The declared order, outermost first. */
  function Order(l: Lock): nat {
    match l
    case Lifecycle => 0
    case Command => 1
    case Record => 2
    case Data => 3
    case Transport => 4
  }

  /** Every acquisition in the code goes up the order. */
  lemma LockOrder(p: Point, l: Lock)
    requires p.Guard().Some? && p.Keeps(l)
    ensures Order(l) < Order(p.Guard().value)
  {
  }

  /** Where a thread waits on a condition, joins, sleeps, blocks on the network or runs user code. */
  predicate Pauses(p: Point) {
    match p
    case Starting(q) => q.StartAwaitJoin? || q.StartAwaitExit? || q.StartJoin?
    case Stopping(_, q) => q.StopAwaitJoin? || q.StopJoin?
    case Calling(q) => q.Waiting?
    case Opening(q) => q.WorkDiscover? || q.WorkConnect?
    case Handling(q) => q.WorkPoll? || q.WorkCallback?
    case Leaving(q) => q.WorkSleep?
  }

  lemma PausesHoldNothing(p: Point, l: Lock)
    requires Pauses(p)
    ensures !p.Keeps(l)
  {
  }

  ghost predicate Holds(agents: map<Agent, Frame>, a: Agent, l: Lock) {
    a in agents && Holding(agents[a], l)
  }

  /** The mutexes record exactly what the threads' places say they hold. */
  ghost predicate LocksAgree(locks: map<Lock, Agent>, agents: map<Agent, Frame>) {
    (forall l | l in locks :: Holds(agents, locks[l], l)) &&
    (forall a, l | Holds(agents, a, l) :: l in locks && locks[l] == a) &&
    (forall a | a in agents :: agents[a].waiting ==> agents[a].point.Guard().Some?)
  }

  lemma MutualExclusion(s: State, a: Agent, b: Agent, l: Lock)
    requires WellLocked(s) && Holds(s.agents, a, l) && Holds(s.agents, b, l)
    ensures a == b
  {
  }

  /** A worker sits at worker points and a caller at caller points; a thread in a call from its callback
    has its worker waiting in that callback. */
  ghost predicate PlacesAgree(agents: map<Agent, Frame>) {
    (forall a | a in agents :: a.Worker? <==> agents[a].point.IsWorkers()) &&
    (forall t: Tid | Caller(t) in agents && Worker(t) in agents :: InCallback(agents[Worker(t)].point))
  }

  ghost predicate WellLocked(s: State) {
    LocksAgree(s.locks, s.agents) && PlacesAgree(s.agents)
  }

  /** A body hands on only mutexes the thread already holds, and stays in its kind of code. */
  ghost predicate WellShaped(p: Point, e: Effect, s: State) {
    (e.next.Some? ==> forall l :: e.next.value.Keeps(l) ==> Holding(Frame(p, false, 0), l)) &&
    (e.next.Some? ==> e.next.value.IsWorkers() == p.IsWorkers()) &&
    (p.IsWorkers() ==> e.next.Some?) &&
    e.state.locks == s.locks && e.state.clock == s.clock && e.state.config == s.config
  }

  lemma EnteringShape(s: State, t: Tid, p: StartPoint, env: Env)
    requires p.StartEnter? || p.StartAwaitJoin? || p.StartAwaitExit? || p.StartJoin? || p.StartReaped?
    ensures WellShaped(Starting(p), StartBody(s, t, p, env), s)
  {
  }

  lemma CreatingShape(s: State, t: Tid, p: StartPoint, env: Env)
    requires p.StartRecord? || p.StartReset? || p.StartArm? || p.StartCreate?
    ensures WellShaped(Starting(p), StartBody(s, t, p, env), s)
  {
    hide ForgetDelivery, ResetForRun, CountRun;
  }

  lemma UndoingShape(s: State, t: Tid, p: StartPoint, env: Env)
    requires p.UndoAtomics? || p.UndoRecord? || p.UndoData? || p.UndoLatch? || p.UndoFault?
    ensures WellShaped(Starting(p), StartBody(s, t, p, env), s)
  {
    hide ShowFault;
  }

  lemma StartShape(s: State, t: Tid, p: StartPoint, env: Env)
    ensures WellShaped(Starting(p), StartBody(s, t, p, env), s)
  {
    hide StartBody, WellShaped;
    if p.StartRecord? || p.StartReset? || p.StartArm? || p.StartCreate? {
      CreatingShape(s, t, p, env);
    } else if p.UndoAtomics? || p.UndoRecord? || p.UndoData? || p.UndoLatch? || p.UndoFault? {
      UndoingShape(s, t, p, env);
    } else {
      EnteringShape(s, t, p, env);
    }
  }

  lemma DecidingShape(s: State, t: Tid, use: StopUse, p: StopPoint, env: Env)
    requires p.StopDecide?
    ensures WellShaped(Stopping(use, p), StopBody(s, t, use, p, env), s)
  {
    hide MarkState, IsSelf;
  }

  lemma ReapingShape(s: State, t: Tid, use: StopUse, p: StopPoint, env: Env)
    requires p.StopIdle? || p.StopReaped? || p.StopReapedState? || p.StopJoin?
    ensures WellShaped(Stopping(use, p), StopBody(s, t, use, p, env), s)
  {
    hide MarkState, IsSelf;
  }

  lemma RequestingShape(s: State, t: Tid, use: StopUse, p: StopPoint, env: Env)
    requires p.DestroyEnter? || p.StopEnter? || p.StopCommand? || p.StopSend? || p.StopShutdown? || p.StopAwaitJoin?
    ensures WellShaped(Stopping(use, p), StopBody(s, t, use, p, env), s)
  {
    hide MarkState, IsSelf;
  }

  lemma StopShape(s: State, t: Tid, use: StopUse, p: StopPoint, env: Env)
    ensures WellShaped(Stopping(use, p), StopBody(s, t, use, p, env), s)
  {
    hide StopBody;
    if p.StopDecide? {
      DecidingShape(s, t, use, p, env);
    } else if p.StopIdle? || p.StopReaped? || p.StopReapedState? || p.StopJoin? {
      ReapingShape(s, t, use, p, env);
    } else {
      RequestingShape(s, t, use, p, env);
    }
  }

  lemma CallShape(s: State, p: CallPoint, env: Env)
    ensures WellShaped(Calling(p), CallBody(s, p, env), s)
  {
    hide PruneWindows, Snapshot, ResetAfterBias;
  }

  lemma SessionShape(s: State, p: SessionPoint, env: Env)
    ensures WellShaped(Opening(p), SessionBody(s, p, env), s)
  {
    hide ApplyConfiguration, BeginStream, MarkState;
  }

  predicate LeavesSession(q: ClosingPoint) {
    q.WorkFailed? || q.WorkCatch? || (q.WorkClose? && q.after.ThenDecide?)
  }

  /** A step in the receive loop changes the records only, and goes on in the loop or leaves the session. */
  ghost predicate RecordSteps(s: State, e: Effect) {
    e.state == s.(pipe := e.state.pipe) && e.observed == Silent && e.next.Some? &&
    (e.next.value.Handling? || (e.next.value.Leaving? && LeavesSession(e.next.value.closing)))
  }

  /** It keeps the shape of a body and the generation too. */
  ghost predicate RecordMoves(s: State, p: RecordPoint, e: Effect) {
    RecordSteps(s, e) && WellShaped(Handling(p), e, s) && e.state.pipe.generation == s.pipe.generation
  }

  predicate IsReceiving(p: RecordPoint) {
    p.WorkReceive? || p.WorkReceiveEnter? || p.WorkPoll? || p.WorkPolled? || p.WorkReceived?
  }

  predicate IsCounting(p: RecordPoint) {
    p.WorkTimeout? || p.WorkGarbled? || p.WorkValid? || p.WorkHandle?
  }

  lemma ReceivingMoves(s: State, run: nat, p: RecordPoint, env: Env)
    requires IsReceiving(p)
    ensures RecordMoves(s, p, RecordBody(s, run, p, env))
  {
  }

  lemma CountingMoves(s: State, run: nat, p: RecordPoint, env: Env)
    requires IsCounting(p)
    ensures RecordMoves(s, p, RecordBody(s, run, p, env))
  {
    hide IsStorm;
  }

  lemma RecordingMoves(s: State, run: nat, p: RecordPoint, env: Env)
    requires p.WorkRecord?
    ensures RecordMoves(s, p, RecordBody(s, run, p, env))
  {
    hide FlightOf, FateOf, CountRecord, MakeSample;
  }

  lemma FlightMoves(s: State, run: nat, p: RecordPoint, env: Env)
    requires !IsReceiving(p) && !IsCounting(p) && !p.WorkRecord?
    ensures RecordMoves(s, p, RecordBody(s, run, p, env))
  {
    hide CallbackFailureOutcome;
  }

  lemma RecordMovesOn(s: State, run: nat, p: RecordPoint, env: Env)
    ensures RecordMoves(s, p, RecordBody(s, run, p, env))
  {
    hide RecordBody, RecordMoves;
    if IsReceiving(p) {
      ReceivingMoves(s, run, p, env);
    } else if IsCounting(p) {
      CountingMoves(s, run, p, env);
    } else if p.WorkRecord? {
      RecordingMoves(s, run, p, env);
    } else {
      FlightMoves(s, run, p, env);
    }
  }

  lemma RecordStepsOn(s: State, run: nat, p: RecordPoint, env: Env)
    ensures RecordSteps(s, RecordBody(s, run, p, env))
  {
    hide RecordBody, RecordSteps, WellShaped;
    RecordMovesOn(s, run, p, env);
  }

  lemma RecordShape(s: State, run: nat, p: RecordPoint, env: Env)
    ensures WellShaped(Handling(p), RecordBody(s, run, p, env), s)
  {
    hide RecordBody, RecordSteps, WellShaped;
    RecordMovesOn(s, run, p, env);
  }

  lemma ClosingShape(s: State, p: ClosingPoint, env: Env)
    ensures WellShaped(Leaving(p), ClosingBody(s, p, env), s)
  {
    hide ShowFault, EnterBackoff, MarkState, FaultFor, MessageFor;
  }

  lemma BodyShape(s: State, a: Agent, f: Frame, env: Env)
    ensures WellShaped(f.point, Body(s, a, f, env), s)
  {
    match f.point
    case Starting(p) => StartShape(s, a.tid, p, env);
    case Stopping(use, p) => StopShape(s, a.tid, use, p, env);
    case Calling(p) => CallShape(s, p, env);
    case Opening(p) => SessionShape(s, p, env);
    case Handling(p) => RecordShape(s, f.run, p, env);
    case Leaving(p) => ClosingShape(s, p, env);
  }

  lemma SettleKeepsLocks(s: State, e: State, a: Agent, next: Option<Point>)
    requires LocksAgree(s.locks, s.agents) && a in s.agents && !s.agents[a].waiting
    requires e.locks == s.locks
    requires next.Some? ==> forall l :: next.value.Keeps(l) ==> Holding(s.agents[a], l)
    requires forall b, l | b in s.agents && b !in e.agents :: !Holding(s.agents[b], l)
    requires forall b, l | b in e.agents && b !in s.agents :: !Holding(e.agents[b], l)
    requires forall b | b in e.agents && b !in s.agents :: !e.agents[b].waiting
    requires forall b | b in e.agents && b in s.agents :: e.agents[b] == s.agents[b]
    ensures var t := Settle(e, a, s.agents[a].run, next); LocksAgree(t.locks, t.agents)
  {
    hide Point.Guard, Point.Keeps;
    var t := Settle(e, a, s.agents[a].run, next);
    forall b, l | Holds(t.agents, b, l) ensures l in t.locks && t.locks[l] == b {
      if b != a {
        assert Holds(s.agents, b, l);
      } else {
        assert next.value.Keeps(l);
        assert Holds(s.agents, a, l);
      }
    }
    forall l | l in t.locks ensures Holds(t.agents, t.locks[l], l) {
      var b := s.locks[l];
      assert Holds(s.agents, b, l) && t.locks[l] == b;
      assert b in e.agents;
      if b == a {
        assert next.Some? && next.value.Keeps(l);
      } else {
        assert t.agents[b] == s.agents[b];
      }
    }
    forall b | b in t.agents && t.agents[b].waiting ensures t.agents[b].point.Guard().Some? {
      if b != a {
        assert b in e.agents;
      }
    }
  }

  /** Bodies add and remove no thread, except that start() makes a worker and the two joins reap one. */
  function Threads(s: State, p: Point, env: Env): map<Agent, Frame> {
    match p
    case Starting(StartCreate(_, _)) => if env.ok then s.agents[Worker(env.tid) := NewWorker(s)] else s.agents
    case Starting(StartJoin(_, w)) => s.agents - {Worker(w)}
    case Stopping(_, StopJoin(w)) => s.agents - {Worker(w)}
    case _ => s.agents
  }

  lemma StopThreads(s: State, t: Tid, use: StopUse, p: StopPoint, env: Env)
    ensures StopBody(s, t, use, p, env).state.agents == Threads(s, Stopping(use, p), env)
  {
    hide MarkState;
  }

  lemma StartThreads(s: State, t: Tid, p: StartPoint, env: Env)
    ensures StartBody(s, t, p, env).state.agents == Threads(s, Starting(p), env)
  {
    hide ForgetDelivery, ResetForRun, CountRun, ShowFault;
  }

  lemma WorkerThreads(s: State, env: Env)
    ensures forall p :: CallBody(s, p, env).state.agents == s.agents
    ensures forall p :: SessionBody(s, p, env).state.agents == s.agents
    ensures forall p :: ClosingBody(s, p, env).state.agents == s.agents
  {
    hide ShowFault, EnterBackoff, MarkState, FaultFor, MessageFor, ApplyConfiguration, BeginStream, PruneWindows,
      Snapshot, ResetAfterBias;
  }

  lemma BodyThreads(s: State, a: Agent, f: Frame, env: Env)
    ensures Body(s, a, f, env).state.agents == Threads(s, f.point, env)
  {
    hide StartBody, StopBody, CallBody, SessionBody, RecordBody, ClosingBody;
    match f.point
    case Starting(p) => StartThreads(s, a.tid, p, env);
    case Stopping(use, p) => StopThreads(s, a.tid, use, p, env);
    case Calling(p) => WorkerThreads(s, env);
    case Opening(p) => WorkerThreads(s, env);
    case Handling(p) => RecordStepsOn(s, f.run, p, env);
    case Leaving(p) => WorkerThreads(s, env);
  }

  lemma AcquireKeeps(s: State, a: Agent)
    requires WellLocked(s) && Enabled(s, Acquire(a))
    ensures WellLocked(Apply(s, Acquire(a)))
  {
    hide Point.Guard, Point.Keeps;
    var t := Apply(s, Acquire(a));
    var l0 := s.agents[a].point.Guard().value;
    forall b, l | Holds(t.agents, b, l) ensures l in t.locks && t.locks[l] == b {
      if b != a || l != l0 {
        assert Holds(s.agents, b, l);
      }
    }
    forall l | l in t.locks ensures Holds(t.agents, t.locks[l], l) {
      if l != l0 {
        assert Holds(s.agents, s.locks[l], l);
      }
    }
  }

  lemma BeginKeeps(s: State, t: Tid, op: Op)
    requires WellLocked(s) && Enabled(s, Begin(t, op))
    ensures WellLocked(Apply(s, Begin(t, op)))
  {
    var u := Apply(s, Begin(t, op));
    EntryHoldsNothing(op);
    forall b, l | Holds(u.agents, b, l) ensures l in u.locks && u.locks[l] == b {
      assert b != Caller(t);
      assert Holds(s.agents, b, l);
    }
    forall l | l in u.locks ensures Holds(u.agents, u.locks[l], l) {
      assert Holds(s.agents, s.locks[l], l);
    }
  }

  lemma EntryHoldsNothing(op: Op)
    ensures forall l :: !EntryPoint(op).Keeps(l)
    ensures EntryPoint(op).Guard().Some? && !EntryPoint(op).IsWorkers()
  {
  }

  lemma RunKeeps(s: State, a: Agent, env: Env)
    requires WellLocked(s) && Enabled(s, Run(a, env))
    ensures WellLocked(Apply(s, Run(a, env)))
  {
    hide Body;
    var f := s.agents[a];
    var e := Body(s, a, f, env);
    BodyShape(s, a, f, env);
    BodyThreads(s, a, f, env);
    ThreadsComeAndGoIdle(s, f.point, a, env);
    SettleKeepsLocks(s, e.state, a, e.next);
    SettleKeepsPlaces(s, e.state, a, env, e.next);
  }

  lemma ThreadsComeAndGoIdle(s: State, p: Point, a: Agent, env: Env)
    requires WellLocked(s) && Enabled(s, Run(a, env)) && p == s.agents[a].point
    ensures forall b, l | b in s.agents && b !in Threads(s, p, env) :: !Holding(s.agents[b], l)
    ensures forall b, l | b in Threads(s, p, env) && b !in s.agents :: !Holding(Threads(s, p, env)[b], l)
    ensures forall b | b in Threads(s, p, env) && b !in s.agents :: !Threads(s, p, env)[b].waiting
    ensures forall b | b in Threads(s, p, env) && b in s.agents :: Threads(s, p, env)[b] == s.agents[b]
  {
  }

  lemma SettleKeepsPlaces(s: State, e: State, a: Agent, env: Env, next: Option<Point>)
    requires WellLocked(s) && Enabled(s, Run(a, env))
    requires e.agents == Threads(s, s.agents[a].point, env)
    requires next.Some? ==> next.value.IsWorkers() == s.agents[a].point.IsWorkers()
    requires s.agents[a].point.IsWorkers() ==> next.Some?
    ensures PlacesAgree(Settle(e, a, s.agents[a].run, next).agents)
  {
    hide Point.Guard, Point.Keeps;
    var t := Settle(e, a, s.agents[a].run, next);
    forall w: Tid | Caller(w) in t.agents && Worker(w) in t.agents ensures InCallback(t.agents[Worker(w)].point) {
      if a == Worker(w) {
        assert false;
      }
    }
  }

  lemma StepKeepsLocks(s: State, action: Action)
    requires WellLocked(s) && Enabled(s, action)
    ensures WellLocked(Apply(s, action))
  {
    match action
    case Begin(t, op) => BeginKeeps(s, t, op);
    case Acquire(a) => AcquireKeeps(s, a);
    case Run(a, env) => RunKeeps(s, a, env);
    case Tick(_) =>
  }
}
