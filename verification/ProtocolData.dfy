/** The record and data state over whole runs: records, faults and generations under every interleaving. */
module ProtocolData {
  import opened Types
  import opened Pipeline
  import opened PipelineInvariants
  import opened Protocol
  import opened ProtocolLocks
  import opened ProtocolWorkers
  import opened ProtocolWire
  import opened ProtocolRecords
  import opened ProtocolRollback

  /** stop() on its way to mark the client stopped. */
  predicate MarksStopped(p: Point) {
    p.Stopping? && (p.stop.StopIdle? || p.stop.StopReapedState?)
  }

  /** start() after it cleared the latch. */
  predicate PastReset(p: Point) {
    p.Starting? && InCreation(p.start) && !p.start.StartRecord? && !p.start.StartReset?
  }

  ghost predicate CallerPlace(s: State, p: Point) {
    (p.Starting? ==> CreatorPlace(s, p.start)) && (MarksStopped(p) ==> s.control.latch == NoFault) &&
    (p.Calling? && p.call.Waiting? ==> p.call.generation != 0)
  }

  ghost predicate PlacesTrue(s: State) {
    forall a | a in s.agents :: TruePlace(s, a, s.agents[a])
  }

  /** A published fault is latched, unless a start() that cleared the latch holds the lifecycle mutex. */
  ghost predicate PublishedIsLatched(s: State) {
    s.control.published.Some? && s.control.latch == NoFault ==>
      Lifecycle in s.locks && s.locks[Lifecycle] in s.agents && PastReset(s.agents[s.locks[Lifecycle]].point)
  }

  ghost predicate DataOk(s: State) {
    Healthy(s) && PlacesTrue(s) && PublishedIsLatched(s) &&
    (NoWorkers(s.agents) ==> s.pipe.history.inFlight.None?)
  }

  ghost predicate Consistent(s: State) {
    SessionOk(s) && DataOk(s)
  }

  // ---------------------------------------------------------------- who is around

  lemma SpeakersHoldLifecycle(f: Frame)
    requires PastReset(f.point) || (f.point.Starting? && InCreation(f.point.start)) || MarksStopped(f.point)
    ensures Holding(f, Lifecycle)
  {
  }

  predicate Speaks(p: Point) {
    (p.Starting? && InCreation(p.start)) || MarksStopped(p)
  }

  /** While one thread holds the lifecycle mutex, no other is creating, rolling back or marking. */
  lemma OthersDoNotSpeak(s: State, a: Agent)
    requires WellLocked(s) && Holds(s.agents, a, Lifecycle)
    ensures forall b | b in s.agents && b != a :: !Speaks(s.agents[b].point)
  {
    hide MarksStopped, InCreation, Point.Keeps, Point.Guard;
    forall b | b in s.agents && b != a ensures !Speaks(s.agents[b].point) {
      if Speaks(s.agents[b].point) {
        SpeakersHoldLifecycle(s.agents[b]);
        MutualExclusion(s, a, b, Lifecycle);
      }
    }
  }

  /** And none of them is while a worker exists. */
  lemma SpeakersHaveNoWorker(s: State, a: Agent)
    requires WorkersAgree(s) && a in s.agents && Speaks(s.agents[a].point)
    ensures NoWorkers(s.agents) && a.Caller?
  {
    assert a.Caller?;
    assert RoleHolds(s.control, s.agents, a.tid, RoleOf(s.agents[Caller(a.tid)].point));
  }

  /** Places depend on the record state, the latch and the atomics only. */
  ghost predicate SameView(s: State, t: State) {
    t.config == s.config && t.clock == s.clock && t.pipe == s.pipe &&
    t.control.latch == s.control.latch && t.control.published == s.control.published
  }

  lemma WorkerPlaceSameView(s: State, t: State, p: Point, run: nat)
    requires SameView(s, t) && WorkerPlace(s, p, run)
    ensures WorkerPlace(t, p, run)
  {
  }

  lemma CallerPlaceSameView(s: State, t: State, p: Point)
    requires SameView(s, t) && CallerPlace(s, p)
    requires Speaks(p) ==>
             t.control.stopping == s.control.stopping && t.control.exited == s.control.exited &&
             t.control.callback == s.control.callback
    ensures CallerPlace(t, p)
  {
    hide Sound;
  }

  // ---------------------------------------------------------------- time and new calls

  lemma TimeKeepsPlaces(s: State, t: State)
    requires DataOk(s) && t == s.(clock := t.clock) && s.clock <= t.clock
    ensures DataOk(t)
  {
    TimePassesKeeps(s.config, s.pipe, s.clock, t.clock);
    forall a | a in t.agents
      ensures TruePlace(t, a, t.agents[a])
    {
      assert TruePlace(s, a, s.agents[a]);
      var p := s.agents[a].point;
      if a.Caller? && p.Starting? {
        TimeKeepsCreator(s, t, p.start);
      }
    }
  }

  lemma TimeKeepsCreator(s: State, t: State, p: StartPoint)
    requires t == s.(clock := t.clock) && s.clock <= t.clock && CreatorPlace(s, p)
    ensures CreatorPlace(t, p)
  {
    hide Sound;
    if InCreation(p) {
      TimePassesKeeps(s.config, p.saved.entry.pipe, s.clock, t.clock);
    }
  }

  /** Nothing a place speaks about changed. */
  ghost predicate SameFacts(s: State, t: State) {
    SameView(s, t) && t.control.stopping == s.control.stopping && t.control.exited == s.control.exited &&
    t.control.callback == s.control.callback
  }

  ghost predicate TruePlace(s: State, a: Agent, f: Frame) {
    if a.Worker? then WorkerPlace(s, f.point, f.run) else CallerPlace(s, f.point)
  }

  lemma TrueInSameFacts(s: State, t: State, a: Agent, f: Frame, g: Frame)
    requires SameFacts(s, t) && TruePlace(s, a, f) && g.point == f.point && g.run == f.run
    ensures TruePlace(t, a, g)
  {
    if a.Worker? {
      WorkerPlaceSameView(s, t, f.point, f.run);
    } else {
      CallerPlaceSameView(s, t, f.point);
    }
  }

  /** The holder of the lifecycle mutex that cleared the latch is still at it. */
  lemma PublishedStays(s: State, t: State)
    requires WellLocked(t) && PublishedIsLatched(s)
    requires t.control.published == s.control.published && t.control.latch == s.control.latch
    requires forall b | b in s.agents && PastReset(s.agents[b].point) :: b in t.agents && PastReset(t.agents[b].point)
    ensures PublishedIsLatched(t)
  {
    hide Point.Keeps, Point.Guard, PastReset;
    if s.control.published.Some? && s.control.latch == NoFault {
      var b := s.locks[Lifecycle];
      SpeakersHoldLifecycle(t.agents[b]);
      assert Holds(t.agents, b, Lifecycle);
    }
  }

  lemma BeginKeepsData(s: State, u: Tid, op: Op)
    requires Consistent(s) && Enabled(s, Begin(u, op))
    ensures DataOk(Apply(s, Begin(u, op)))
  {
    hide Sound, OneWorker, Announced, SessionsBracketed, WorkerPlace, CallerPlace;
    var t := Apply(s, Begin(u, op));
    StepKeepsLocks(s, Begin(u, op));
    EntryIsTrue(t, op);
    forall a | a in t.agents ensures TruePlace(t, a, t.agents[a]) {
      if a in s.agents {
        assert TruePlace(s, a, s.agents[a]);
        TrueInSameFacts(s, t, a, s.agents[a], t.agents[a]);
      }
    }
    PublishedStays(s, t);
    if NoWorkers(t.agents) {
      forall w: Tid ensures Worker(w) !in s.agents {
        assert Worker(w) in s.agents ==> Worker(w) in t.agents;
      }
    }
  }

  lemma EntryIsTrue(t: State, op: Op)
    ensures CallerPlace(t, EntryPoint(op))
  {
  }

  lemma AcquireKeepsData(s: State, a: Agent)
    requires Consistent(s) && Enabled(s, Acquire(a))
    ensures DataOk(Apply(s, Acquire(a)))
  {
    hide Sound, OneWorker, Announced, SessionsBracketed, WorkerPlace, CallerPlace, PastReset;
    var t := Apply(s, Acquire(a));
    StepKeepsLocks(s, Acquire(a));
    forall b | b in t.agents ensures TruePlace(t, b, t.agents[b]) {
      assert TruePlace(s, b, s.agents[b]);
      TrueInSameFacts(s, t, b, s.agents[b], t.agents[b]);
    }
    PublishedStays(s, t);
    if NoWorkers(t.agents) {
      forall w: Tid ensures Worker(w) !in s.agents {
        assert Worker(w) in s.agents ==> Worker(w) in t.agents;
      }
    }
  }

  // ---------------------------------------------------------------- the worker's steps

  lemma QuietPlaceStaysTrue(s: State, t: State, p: Point)
    requires !Speaks(p) && CallerPlace(s, p)
    ensures CallerPlace(t, p)
  {
  }

  lemma WorkerIsUnique(s: State, w: Tid, x: Tid)
    requires WorkersAgree(s) && Worker(w) in s.agents && Worker(x) in s.agents
    ensures w == x
  {
    assert s.control.active == Some(w) && s.control.active == Some(x);
  }

  lemma WorkerThreads(s: State, p: Point, env: Env)
    requires p.IsWorkers()
    ensures Threads(s, p, env) == s.agents
  {
  }

  lemma WorkerRunKeepsData(s: State, w: Tid, env: Env)
    requires Consistent(s) && Enabled(s, Run(Worker(w), env))
    ensures DataOk(Apply(s, Run(Worker(w), env)))
  {
    hide Sound, SessionsBracketed, WorkerPlace, CallerPlace, Body, PastReset, Speaks, Threads;
    var a := Worker(w);
    var t := Apply(s, Run(a, env));
    var f := s.agents[a];
    assert TruePlace(s, a, f);
    WorkerBodyKeeps(s, w, f, env);
    BodyThreads(s, a, f, env);
    WorkerThreads(s, f.point, env);
    BodyShape(s, a, f, env);
    HealthyInSameView(Body(s, a, f, env).state, t);
    forall b | b in t.agents ensures TruePlace(t, b, t.agents[b]) {
      if b == a {
        WorkerPlaceSameView(Body(s, a, f, env).state, t, t.agents[a].point, f.run);
      } else if b.Worker? {
        WorkerIsUnique(s, w, b.tid);
      } else {
        if Speaks(s.agents[b].point) {
          SpeakersHaveNoWorker(s, b);
        }
        assert TruePlace(s, b, s.agents[b]);
        QuietPlaceStaysTrue(s, t, s.agents[b].point);
      }
    }
    NoResetWithWorker(s, w);
  }

  lemma NoResetWithWorker(s: State, w: Tid)
    requires Consistent(s) && Worker(w) in s.agents
    ensures s.control.published.Some? ==> s.control.latch != NoFault
  {
    if s.control.published.Some? && s.control.latch == NoFault {
      SpeakersHaveNoWorker(s, s.locks[Lifecycle]);
    }
  }

  lemma HealthyInSameView(s: State, t: State)
    requires Healthy(s) && SameView(s, t)
    ensures Healthy(t)
  {
  }

  // ---------------------------------------------------------------- callers that only look, or only write the atomics

  /** Places at which a caller writes the record state or the latch. */
  predicate WritesData(p: Point) {
    match p
    case Starting(q) => InCreation(q)
    case Stopping(_, _) => MarksStopped(p)
    case Calling(q) => q.HealthEnter? || q.BiasRestart?
    case _ => true
  }

  ghost predicate Looks(s: State, p: Point, e: Effect) {
    SameView(s, e.state) &&
    (SameFacts(s, e.state) || Holding(Frame(p, false, 0), Lifecycle)) &&
    (e.next.Some? ==> CallerPlace(e.state, e.next.value))
  }

  /** With neither a handle nor a joiner, start() finds the client at rest. */
  ghost predicate AtRest(s: State) {
    s.control.handle.None? && !s.control.joining ==>
      s.pipe.history.inFlight.None? && (s.control.latch == NoFault ==> s.control.published.None?)
  }

  lemma StartLooks(s: State, t: Tid, p: StartPoint, env: Env)
    requires !InCreation(p) && Healthy(s)
    requires p.StartEnter? || p.StartAwaitJoin? ==> AtRest(s)
    ensures Looks(s, Starting(p), StartBody(s, t, p, env))
  {
    hide Sound;
    PrunedFromItself(s.pipe, s.clock);
  }

  lemma DecidingLooks(s: State, t: Tid, use: StopUse, p: StopPoint, env: Env)
    requires p.StopDecide?
    requires !MarksStopped(Stopping(use, p)) && Healthy(s)
    ensures Looks(s, Stopping(use, p), StopBody(s, t, use, p, env))
  {
    hide Healthy, MarkState, IsSelf;
  }

  lemma ReapingLooks(s: State, t: Tid, use: StopUse, p: StopPoint, env: Env)
    requires p.StopIdle? || p.StopReaped? || p.StopReapedState? || p.StopJoin?
    requires !MarksStopped(Stopping(use, p)) && Healthy(s)
    ensures Looks(s, Stopping(use, p), StopBody(s, t, use, p, env))
  {
    hide Healthy, MarkState, IsSelf;
  }

  lemma RequestingLooks(s: State, t: Tid, use: StopUse, p: StopPoint, env: Env)
    requires p.DestroyEnter? || p.StopEnter? || p.StopCommand? || p.StopSend? || p.StopShutdown? || p.StopAwaitJoin?
    requires !MarksStopped(Stopping(use, p)) && Healthy(s)
    ensures Looks(s, Stopping(use, p), StopBody(s, t, use, p, env))
  {
    hide Healthy, MarkState, IsSelf;
  }

  lemma StopLooks(s: State, t: Tid, use: StopUse, p: StopPoint, env: Env)
    requires !MarksStopped(Stopping(use, p)) && Healthy(s)
    ensures Looks(s, Stopping(use, p), StopBody(s, t, use, p, env))
  {
    hide StopBody;
    if p.StopDecide? {
      DecidingLooks(s, t, use, p, env);
    } else if p.StopIdle? || p.StopReaped? || p.StopReapedState? || p.StopJoin? {
      ReapingLooks(s, t, use, p, env);
    } else {
      RequestingLooks(s, t, use, p, env);
    }
  }

  lemma CallLooks(s: State, p: CallPoint, env: Env)
    requires !p.HealthEnter? && !p.BiasRestart? && CallerPlace(s, Calling(p))
    ensures Looks(s, Calling(p), CallBody(s, p, env))
  {
  }

  lemma LifecycleHolderIsAtRest(s: State, a: Agent)
    requires Consistent(s) && Holds(s.agents, a, Lifecycle) && !Speaks(s.agents[a].point)
    requires !RoleOf(s.agents[a].point).Armed?
    ensures AtRest(s)
  {
    hide Sound, SessionsBracketed;
    if s.control.handle.None? && !s.control.joining {
      UnownedMeansNone(s, a);
    }
  }

  lemma CallerLooks(s: State, u: Tid, env: Env)
    requires Consistent(s) && Enabled(s, Run(Caller(u), env)) && !WritesData(s.agents[Caller(u)].point)
    ensures Looks(s, s.agents[Caller(u)].point, Body(s, Caller(u), s.agents[Caller(u)], env))
  {
    hide Sound, SessionsBracketed, OneWorker, Announced, PublishedIsLatched;
    var a := Caller(u);
    var f := s.agents[a];
    assert TruePlace(s, a, f);
    match f.point
    case Starting(p) =>
      if p.StartEnter? || p.StartAwaitJoin? {
        assert Holds(s.agents, a, Lifecycle);
        LifecycleHolderIsAtRest(s, a);
      }
      StartLooks(s, u, p, env);
    case Stopping(use, p) => StopLooks(s, u, use, p, env);
    case Calling(p) => CallLooks(s, p, env);
  }

  lemma LookingKeepsData(s: State, u: Tid, env: Env)
    requires Consistent(s) && Enabled(s, Run(Caller(u), env)) && !WritesData(s.agents[Caller(u)].point)
    ensures DataOk(Apply(s, Run(Caller(u), env)))
  {
    hide Sound, SessionsBracketed, WorkerPlace, CallerPlace, Body, PastReset, Speaks, Threads, WritesData;
    var a := Caller(u);
    var t := Apply(s, Run(a, env));
    var f := s.agents[a];
    var e := Body(s, a, f, env);
    CallerLooks(s, u, env);
    BodyThreads(s, a, f, env);
    StepKeepsLocks(s, Run(a, env));
    LookersMakeNoThread(s, f.point, env);
    HealthyInSameView(s, t);
    forall b | b in t.agents ensures TruePlace(t, b, t.agents[b]) {
      if b == a {
        CallerPlaceSameView(e.state, t, t.agents[a].point);
      } else {
        assert TruePlace(s, b, s.agents[b]);
        if b.Worker? {
          WorkerPlaceSameView(s, t, s.agents[b].point, s.agents[b].run);
        } else if SameFacts(s, e.state) {
          CallerPlaceSameView(s, t, s.agents[b].point);
        } else {
          assert Holding(f, Lifecycle);
          assert Holds(s.agents, a, Lifecycle);
          OthersDoNotSpeak(s, a);
          assert TruePlace(s, b, s.agents[b]);
          QuietPlaceStaysTrue(s, t, s.agents[b].point);
        }
      }
    }
    forall b | b in s.agents && PastReset(s.agents[b].point) ensures b in t.agents && PastReset(t.agents[b].point) {
      ResettersAreCallers(s.agents[b].point);
    }
    PublishedStays(s, t);
    if NoWorkers(t.agents) {
      if w: Tid :| Worker(w) in s.agents {
        ReapedIsDone(s, a, env, w);
        assert TruePlace(s, Worker(w), s.agents[Worker(w)]);
        DoneCarriesNothing(s, s.agents[Worker(w)].run);
      }
    }
  }

  lemma ReapedIsDone(s: State, a: Agent, env: Env, w: Tid)
    requires Enabled(s, Run(a, env)) && Worker(w) in s.agents && Worker(w) !in Threads(s, s.agents[a].point, env)
    ensures s.agents[Worker(w)].point == Leaving(WorkDone)
  {
  }

  lemma DoneCarriesNothing(s: State, run: nat)
    requires WorkerPlace(s, Leaving(WorkDone), run)
    ensures s.pipe.history.inFlight.None?
  {
  }

  /** A caller that writes no data makes no thread, may reap a finished worker, and is not past a reset. */
  lemma LookersMakeNoThread(s: State, p: Point, env: Env)
    requires !WritesData(p)
    ensures forall b | b in Threads(s, p, env) :: b in s.agents && Threads(s, p, env)[b] == s.agents[b]
    ensures forall b | b in s.agents && b !in Threads(s, p, env) :: b.Worker?
    ensures !PastReset(p)
  {
  }

  lemma ResettersAreCallers(p: Point)
    requires PastReset(p)
    ensures !p.IsWorkers()
  {
  }

  // ---------------------------------------------------------------- health() and bias()

  /** Pruning and the tracker reset touch nothing a place speaks about. */
  lemma ObserverKeepsWorker(s: State, t: State, p: Point, run: nat)
    requires WorkerPlace(s, p, run)
    requires t.config == s.config && t.clock == s.clock && t.control == s.control
    requires t.pipe ==
             s.pipe.(receiveTimes := t.pipe.receiveTimes, deliveryTimes := t.pipe.deliveryTimes, rdt := t.pipe.rdt,
                     history := t.pipe.history)
    requires t.pipe.history == s.pipe.history.(past := t.pipe.history.past, stream := t.pipe.history.stream)
    ensures WorkerPlace(t, p, run)
  {
  }

  lemma PruningKeepsCreator(s: State, t: State, p: StartPoint)
    requires CreatorPlace(s, p) && t.config == s.config && t.clock == s.clock && t.control == s.control
    requires t.pipe == PruneWindows(s.pipe, s.clock)
    ensures CreatorPlace(t, p)
  {
    hide Sound, PrunedFrom;
    match p
    case StartRecord(_, saved) => PruningPrunes(saved.entry.pipe, s.pipe, s.clock);
    case StartReset(_, saved) => PruningPrunes(ForgetDelivery(saved.entry.pipe), s.pipe, s.clock);
    case UndoLatch(saved) => PruningPrunes(saved.entry.pipe, s.pipe, s.clock);
    case UndoFault(saved) => PruningPrunes(saved.entry.pipe, s.pipe, s.clock);
    case _ =>
  }

  lemma HealthKeepsData(s: State, u: Tid, env: Env)
    requires Consistent(s) && Enabled(s, Run(Caller(u), env)) && s.agents[Caller(u)].point == Calling(HealthEnter)
    ensures DataOk(Apply(s, Run(Caller(u), env)))
  {
    hide Sound, SessionsBracketed, OneWorker, Announced, WorkerPlace, CreatorPlace, PruneWindows;
    var a := Caller(u);
    var t := Apply(s, Run(a, env));
    PruneWindowsKeeps(s.config, s.pipe, s.clock);
    StepKeepsLocks(s, Run(a, env));
    PruningShape(s.pipe, s.clock);
    forall b | b in t.agents ensures TruePlace(t, b, t.agents[b]) {
      assert TruePlace(s, b, s.agents[b]);
      if b.Worker? {
        ObserverKeepsWorker(s, t, s.agents[b].point, s.agents[b].run);
      } else if s.agents[b].point.Starting? {
        PruningKeepsCreator(s, t, s.agents[b].point.start);
      }
    }
    PublishedStays(s, t);
    if w: Tid :| Worker(w) in s.agents {
      assert Worker(w) in t.agents;
    }
  }

  lemma PruningShape(p: Pipeline, now: real)
    ensures var q := PruneWindows(p, now);
            q == p.(receiveTimes := q.receiveTimes, deliveryTimes := q.deliveryTimes)
  {
  }

  /** bias() got past its check, so a worker is streaming. */
  lemma BiasKeepsData(s: State, u: Tid, env: Env)
    requires Consistent(s) && Enabled(s, Run(Caller(u), env)) && s.agents[Caller(u)].point == Calling(BiasRestart)
    ensures DataOk(Apply(s, Run(Caller(u), env)))
  {
    hide Sound, OneWorker, Announced, WorkerPlace, CallerPlace, Speaks, StartBody, StopBody, SessionBody, RecordBody,
      ClosingBody;
    var a := Caller(u);
    var t := Apply(s, Run(a, env));
    assert SawOpen(s.agents[a].point);
    var w: Tid :| Worker(w) in s.agents;
    assert Worker(w) in t.agents;
    BeginStreamKeeps(s.config, s.pipe, s.clock);
    StepKeepsLocks(s, Run(a, env));
    forall b | b in t.agents ensures TruePlace(t, b, t.agents[b]) {
      assert TruePlace(s, b, s.agents[b]);
      if b.Worker? {
        ObserverKeepsWorker(s, t, s.agents[b].point, s.agents[b].run);
      } else {
        if Speaks(s.agents[b].point) {
          SpeakersHaveNoWorker(s, b);
        }
        assert TruePlace(s, b, s.agents[b]);
        QuietPlaceStaysTrue(s, t, s.agents[b].point);
      }
    }
    PublishedStays(s, t);
  }

  // ---------------------------------------------------------------- start() and stop() with no worker around

  ghost predicate SpeakerKeeps(s: State, p: Point, e: Effect) {
    Healthy(e.state) && e.state.pipe.history.inFlight.None? &&
    (e.next.Some? ==> CallerPlace(e.state, e.next.value)) &&
    (e.state.control.published.Some? && e.state.control.latch == NoFault ==>
      e.next.Some? && PastReset(e.next.value) && e.next.value.Keeps(Lifecycle))
  }

  lemma CreationSpeaks(s: State, t: Tid, p: StartPoint, env: Env)
    requires InCreation(p) && !(p.StartCreate? && env.ok)
    requires Healthy(s) && s.pipe.history.inFlight.None? && CreatorPlace(s, p)
    requires s.control.published.Some? && s.control.latch == NoFault ==> PastReset(Starting(p))
    ensures SpeakerKeeps(s, Starting(p), StartBody(s, t, p, env))
  {
    hide Sound, PrunedFrom;
    if p.UndoLatch? || p.UndoFault? {
      FailedStartChangesNothing(s, t, p, env);
    } else if p.UndoAtomics? || p.UndoRecord? || p.UndoData? {
      UndoKeeps(s, t, p, env);
    } else {
      ForwardKeeps(s, t, p, env);
    }
  }

  lemma MarkingSpeaks(s: State, t: Tid, use: StopUse, p: StopPoint, env: Env)
    requires MarksStopped(Stopping(use, p))
    requires Healthy(s) && s.pipe.history.inFlight.None? && s.control.latch == NoFault
    requires s.control.published.None?
    ensures SpeakerKeeps(s, Stopping(use, p), StopBody(s, t, use, p, env))
  {
    hide Sound;
    MarkKeeps(s.config, s.pipe, MarkState(s.pipe, Stopped), s.clock);
  }

  lemma SpeakerBodyKeeps(s: State, u: Tid, env: Env)
    requires Consistent(s) && Enabled(s, Run(Caller(u), env)) && Speaks(s.agents[Caller(u)].point)
    requires !(s.agents[Caller(u)].point.Starting? && s.agents[Caller(u)].point.start.StartCreate? && env.ok)
    ensures SpeakerKeeps(s, s.agents[Caller(u)].point, Body(s, Caller(u), s.agents[Caller(u)], env))
  {
    hide Sound, SessionsBracketed, OneWorker, Announced, StartBody, StopBody, CallBody, SessionBody, RecordBody,
      ClosingBody;
    var a := Caller(u);
    var f := s.agents[a];
    assert TruePlace(s, a, f);
    SpeakersHaveNoWorker(s, a);
    SpeakersHoldLifecycle(f);
    assert Holds(s.agents, a, Lifecycle);
    match f.point
    case Starting(p) => CreationSpeaks(s, u, p, env);
    case Stopping(use, p) => MarkingSpeaks(s, u, use, p, env);
  }

  lemma SpeakingKeepsData(s: State, u: Tid, env: Env)
    requires Consistent(s) && Enabled(s, Run(Caller(u), env)) && Speaks(s.agents[Caller(u)].point)
    requires !(s.agents[Caller(u)].point.Starting? && s.agents[Caller(u)].point.start.StartCreate? && env.ok)
    ensures DataOk(Apply(s, Run(Caller(u), env)))
  {
    hide Sound, SessionsBracketed, WorkerPlace, CallerPlace, Body, PastReset, Speaks, Threads, CreatorPlace;
    var a := Caller(u);
    var t := Apply(s, Run(a, env));
    var f := s.agents[a];
    var e := Body(s, a, f, env);
    SpeakerBodyKeeps(s, u, env);
    BodyThreads(s, a, f, env);
    BodyShape(s, a, f, env);
    SpeakersReapNobody(s, f.point, env);
    StepKeepsLocks(s, Run(a, env));
    SpeakersHaveNoWorker(s, a);
    SpeakersHold(f);
    assert Holds(s.agents, a, Lifecycle);
    OthersDoNotSpeak(s, a);
    HealthyInSameView(e.state, t);
    forall b | b in t.agents ensures TruePlace(t, b, t.agents[b]) {
      if b == a {
        CallerPlaceSameView(e.state, t, t.agents[a].point);
      } else {
        assert b.Caller?;
        assert TruePlace(s, b, s.agents[b]);
        QuietPlaceStaysTrue(s, t, s.agents[b].point);
      }
    }
    if t.control.published.Some? && t.control.latch == NoFault {
      assert a in t.agents && Holding(t.agents[a], Lifecycle);
      assert Holds(t.agents, a, Lifecycle);
    }
  }

  lemma SpeakersHold(f: Frame)
    requires Speaks(f.point)
    ensures Holding(f, Lifecycle)
  {
    SpeakersHoldLifecycle(f);
  }

  lemma SpeakersReapNobody(s: State, p: Point, env: Env)
    requires Speaks(p) && !(p.Starting? && p.start.StartCreate? && env.ok)
    ensures Threads(s, p, env) == s.agents
  {
  }

  /** The worker that start() makes begins a run of its own, on a reset record state. */
  lemma NewRunIsTrue(s: State, t: State, callback: Callback, saved: Saved)
    requires Healthy(s) && CreatorPlace(s, StartCreate(callback, saved)) && s.pipe.history.inFlight.None?
    requires t.config == s.config && t.clock == s.clock && t.pipe == CountRun(s.pipe)
    requires t.control.latch == s.control.latch && t.control.published.None?
    ensures Healthy(t) && WorkerPlace(t, Opening(WorkLoop), s.pipe.history.run + 1)
  {
    hide Sound, EntryKept;
    CountRunKeeps(s.config, s.pipe, s.clock);
  }

  lemma CreateKeepsData(s: State, u: Tid, env: Env)
    requires Consistent(s) && Enabled(s, Run(Caller(u), env)) && Creates(s, Run(Caller(u), env))
    ensures DataOk(Apply(s, Run(Caller(u), env)))
  {
    hide Apply, Enabled, OneWorker, Announced, SessionsBracketed, Healthy, WorkerPlace, CreatorPlace, CountRun,
      MarksStopped, InCreation;
    var a := Caller(u);
    var t := Apply(s, Run(a, env));
    var f := s.agents[a];
    CreateShape(s, Run(a, env));
    assert TruePlace(s, a, f);
    assert Speaks(f.point) by { CreatorsSpeak(f.point); }
    SpeakersHaveNoWorker(s, a);
    CreatorHolds(f);
    assert Holds(s.agents, a, Lifecycle);
    OthersDoNotSpeak(s, a);
    assert f.point.start == StartCreate(f.point.start.callback, f.point.start.saved);
    NewRunIsTrue(s, t, f.point.start.callback, f.point.start.saved);
    forall b | b in t.agents ensures TruePlace(t, b, t.agents[b]) {
      if b.Caller? {
        assert TruePlace(s, b, s.agents[b]);
        QuietPlaceStaysTrue(s, t, s.agents[b].point);
      } else {
        assert b == Worker(env.tid) && t.agents[b] == NewWorker(s);
      }
    }
    assert Worker(env.tid) in t.agents;
  }

  lemma CreatorsSpeak(p: Point)
    requires p.Starting? && p.start.StartCreate?
    ensures Speaks(p)
  {
  }

  // ---------------------------------------------------------------- every step

  lemma StepKeepsData(s: State, action: Action)
    requires Consistent(s) && Enabled(s, action)
    ensures DataOk(Apply(s, action))
  {
    hide Body, Healthy, PlacesTrue, SessionsBracketed, OneWorker, Announced;
    match action
    case Begin(u, op) => BeginKeepsData(s, u, op);
    case Acquire(a) => AcquireKeepsData(s, a);
    case Tick(_) => TimeKeepsPlaces(s, Apply(s, action));
    case Run(a, env) =>
      var p := s.agents[a].point;
      if a.Worker? {
        WorkerRunKeepsData(s, a.tid, env);
      } else if !WritesData(p) {
        LookingKeepsData(s, a.tid, env);
      } else if p == Calling(HealthEnter) {
        HealthKeepsData(s, a.tid, env);
      } else if p == Calling(BiasRestart) {
        BiasKeepsData(s, a.tid, env);
      } else if p.Starting? && p.start.StartCreate? && env.ok {
        CreateKeepsData(s, a.tid, env);
      } else {
        SpeakingKeepsData(s, a.tid, env);
      }
  }

  /** Every step of every thread keeps the client consistent. */
  lemma StepKeepsConsistent(s: State, action: Action)
    requires Consistent(s) && Enabled(s, action)
    ensures Consistent(Apply(s, action))
  {
    hide DataOk, SessionOk, Apply;
    StepKeepsData(s, action);
    StepKeepsSessions(s, action);
  }
}
