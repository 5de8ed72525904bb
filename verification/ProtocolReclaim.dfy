/** Destruction: the storage of the client is released only when no thread can still use it. */
module ProtocolReclaim {
  import opened Types
  import opened Pipeline
  import opened Protocol
  import opened ProtocolLocks
  import opened ProtocolWorkers

  predicate Destroys(p: Point) {
    p.Stopping? && (p.use != Plain || p.stop.DestroyEnter?)
  }

  /** The deferred destroyer's own calls. */
  predicate Deferred(p: Point) {
    p.Stopping? && p.use != FromCallback && !p.stop.DestroyEnter?
  }

  ghost predicate OneCaller(agents: map<Agent, Frame>) {
    forall t: Tid, u: Tid | Caller(t) in agents && Caller(u) in agents :: t == u
  }

  /** One thread destroys the client; every other call in it comes from the callback of its worker. */
  ghost predicate OneDestroyer(agents: map<Agent, Frame>) {
    (forall t: Tid, u: Tid |
       Caller(t) in agents && Caller(u) in agents && Destroys(agents[Caller(t)].point) &&
       Destroys(agents[Caller(u)].point) ::
       t == u) &&
    (forall t: Tid | Caller(t) in agents :: Destroys(agents[Caller(t)].point) || Worker(t) in agents)
  }

  ghost predicate ReclaimAgrees(reclaim: Reclaim, agents: map<Agent, Frame>) {
    match reclaim
    case Alive => forall t: Tid | Caller(t) in agents :: !Destroys(agents[Caller(t)].point)
    case Closing => OneDestroyer(agents)
    case Pending => forall t: Tid :: Caller(t) !in agents
    case Reclaiming =>
      OneCaller(agents) &&
      forall t: Tid | Caller(t) in agents :: Destroys(agents[Caller(t)].point) && Deferred(agents[Caller(t)].point)
    case Freed => agents == map[]
  }

  ghost predicate ReclaimOk(s: State) {
    WorkersAgree(s) && ReclaimAgrees(s.reclaim, s.agents)
  }

  /** What a body does to the ownership of the storage. */
  ghost predicate PassesOn(s: State, p: Point, e: Effect) {
    if !Destroys(p) then e.state.reclaim == s.reclaim && (e.next.Some? ==> !Destroys(e.next.value))
    else if e.next.Some? then
      e.state.reclaim == s.reclaim && Destroys(e.next.value) && (Deferred(p) ==> Deferred(e.next.value))
    else
      (p.use == FromCallback && e.state.reclaim == Pending) || (p.use == Destruct && e.state.reclaim == Freed)
  }

  lemma StopPassesOn(s: State, t: Tid, use: StopUse, p: StopPoint, env: Env)
    ensures PassesOn(s, Stopping(use, p), StopBody(s, t, use, p, env))
  {
    hide MarkState;
  }

  lemma StartPassesOn(s: State, t: Tid, p: StartPoint, env: Env)
    ensures PassesOn(s, Starting(p), StartBody(s, t, p, env))
  {
    hide ForgetDelivery, ResetForRun, CountRun, ShowFault;
  }

  lemma SessionPassesOn(s: State, p: SessionPoint, env: Env)
    ensures PassesOn(s, Opening(p), SessionBody(s, p, env))
  {
    hide ApplyConfiguration, BeginStream, MarkState;
  }

  lemma RecordPassesOn(s: State, run: nat, p: RecordPoint, env: Env)
    ensures PassesOn(s, Handling(p), RecordBody(s, run, p, env))
  {
    hide RecordBody;
    RecordStepsOn(s, run, p, env);
  }

  lemma ClosingPassesOn(s: State, p: ClosingPoint, env: Env)
    ensures PassesOn(s, Leaving(p), ClosingBody(s, p, env))
  {
    hide ShowFault, EnterBackoff, MarkState, FaultFor, MessageFor;
  }

  lemma BodyPassesOn(s: State, a: Agent, f: Frame, env: Env)
    ensures PassesOn(s, f.point, Body(s, a, f, env))
  {
    hide PassesOn, StopBody, SessionBody, RecordBody, ClosingBody, StartBody;
    match f.point
    case Starting(p) => StartPassesOn(s, a.tid, p, env);
    case Stopping(use, p) => StopPassesOn(s, a.tid, use, p, env);
    case Calling(p) => CallPassesOn(s, p, env);
    case Opening(p) => SessionPassesOn(s, p, env);
    case Handling(p) => RecordPassesOn(s, f.run, p, env);
    case Leaving(p) => ClosingPassesOn(s, p, env);
  }

  lemma CallPassesOn(s: State, p: CallPoint, env: Env)
    ensures PassesOn(s, Calling(p), CallBody(s, p, env))
  {
    hide PruneWindows, Snapshot, ResetAfterBias;
  }

  /** A stop by any thread but the worker's own returns only with no worker left. */
  lemma StopLeavesNoWorker(s: State, u: Tid, env: Env)
    requires WorkersAgree(s) && Enabled(s, Run(Caller(u), env))
    requires s.agents[Caller(u)].point.Stopping? && Worker(u) !in s.agents
    requires Body(s, Caller(u), s.agents[Caller(u)], env).next.None?
    ensures NoWorkers(s.agents)
  {
    hide HasExited, SavedExited, MarkState;
    var a := Caller(u);
    var p := s.agents[a].point.stop;
    NeverReached(s, a);
    assert RoleHolds(s.control, s.agents, u, RoleOf(s.agents[a].point));
    if p.StopDecide? {
      assert Holds(s.agents, a, Lifecycle);
      DecidersKnow(s, u);
    }
  }

  /** When the destructor's last stop returns, the worker has been joined. */
  lemma DestructorLeavesNoWorker(s: State, u: Tid, env: Env)
    requires WorkersAgree(s) && Enabled(s, Run(Caller(u), env))
    requires s.agents[Caller(u)].point.Stopping? && s.agents[Caller(u)].point.use == Destruct
    requires Body(s, Caller(u), s.agents[Caller(u)], env).next.None?
    ensures NoWorkers(s.agents)
  {
    hide HasExited, SavedExited, MarkState;
    NeverReached(s, Caller(u));
    assert RoleHolds(s.control, s.agents, u, RoleOf(s.agents[Caller(u)].point));
    StopLeavesNoWorker(s, u, env);
  }

  /** A thread that calls from its callback keeps its worker. */
  lemma CallersKeepWorkers(s: State, a: Agent, env: Env, v: Tid)
    requires WorkersAgree(s) && Enabled(s, Run(a, env)) && Worker(v) in s.agents
    requires Caller(v) in Apply(s, Run(a, env)).agents
    ensures Worker(v) in Apply(s, Run(a, env)).agents
  {
    hide Body, OneWorker, Announced, LocksAgree;
    BodyThreads(s, a, s.agents[a], env);
    BodyShape(s, a, s.agents[a], env);
    OthersStayPut(s, a, env);
    assert Caller(v) in s.agents && InCallback(s.agents[Worker(v)].point);
  }

  lemma OnlyWorker(s: State, v: Tid, w: Tid)
    requires WorkersAgree(s) && Worker(v) in s.agents && Worker(w) in s.agents
    ensures v == w
  {
    hide RoleOf, HasExited, SavedExited;
    assert s.control.active == Some(v) && s.control.active == Some(w);
  }

  /** The destroyer of a closing client returns when it is the only call left. */
  lemma DestroyerIsLast(s: State, u: Tid, env: Env)
    requires ReclaimOk(s) && s.reclaim == Closing && Enabled(s, Run(Caller(u), env))
    requires Destroys(s.agents[Caller(u)].point) && Body(s, Caller(u), s.agents[Caller(u)], env).next.None?
    ensures forall v: Tid | Caller(v) in s.agents :: v == u
  {
    hide StopBody, Announced, LocksAgree, RoleOf, HasExited, SavedExited, OneWorker;
    var p := s.agents[Caller(u)].point;
    BodyPassesOn(s, Caller(u), s.agents[Caller(u)], env);
    forall v: Tid | Caller(v) in s.agents ensures v == u {
      if !Destroys(s.agents[Caller(v)].point) {
        if p.use == Destruct {
          DestructorLeavesNoWorker(s, u, env);
        } else {
          EnteringGoesOn(s, u, p.use, p.stop, env);
          FromCallbackIsInside(s, u);
          OnlyWorker(s, u, v);
        }
      }
    }
  }

  lemma EnteringGoesOn(s: State, t: Tid, use: StopUse, p: StopPoint, env: Env)
    ensures StopBody(s, t, use, p, env).next.None? ==> !p.DestroyEnter?
  {
    hide MarkState;
  }

  lemma FromCallbackIsInside(s: State, u: Tid)
    requires WorkersAgree(s) && Caller(u) in s.agents
    requires s.agents[Caller(u)].point.Stopping? && s.agents[Caller(u)].point.use == FromCallback
    requires !s.agents[Caller(u)].point.stop.DestroyEnter?
    ensures Worker(u) in s.agents
  {
    hide HasExited, SavedExited;
    NeverReached(s, Caller(u));
    assert RoleHolds(s.control, s.agents, u, RoleOf(s.agents[Caller(u)].point));
  }

  /** Threads that stay what they were keep the agreement. */
  lemma StillAgrees(reclaim: Reclaim, agents: map<Agent, Frame>, moved: map<Agent, Frame>)
    requires ReclaimAgrees(reclaim, agents) && reclaim != Freed
    requires forall u: Tid | Caller(u) in moved ::
               Caller(u) in agents && (Worker(u) in agents ==> Worker(u) in moved) &&
               (Destroys(moved[Caller(u)].point) <==> Destroys(agents[Caller(u)].point)) &&
               (Destroys(agents[Caller(u)].point) && Deferred(agents[Caller(u)].point) ==>
                Deferred(moved[Caller(u)].point))
    ensures ReclaimAgrees(reclaim, moved)
  {
    hide Destroys, Deferred;
  }

  /** The last step of a destruction releases the storage or hands it over. */
  lemma ReturnKeepsReclaim(s: State, u: Tid, env: Env)
    requires ReclaimOk(s) && Enabled(s, Run(Caller(u), env)) && Destroys(s.agents[Caller(u)].point)
    requires Body(s, Caller(u), s.agents[Caller(u)], env).next.None?
    ensures ReclaimAgrees(Apply(s, Run(Caller(u), env)).reclaim, Apply(s, Run(Caller(u), env)).agents)
  {
    hide Body, OneWorker, Announced, LocksAgree, PlacesAgree;
    var a, f := Caller(u), s.agents[Caller(u)];
    var t := Apply(s, Run(a, env));
    BodyPassesOn(s, a, f, env);
    BodyThreads(s, a, f, env);
    OthersStayPut(s, a, env);
    if s.reclaim == Closing {
      DestroyerIsLast(s, u, env);
    }
    if f.point.use == Destruct {
      DestructorLeavesNoWorker(s, u, env);
      StoppersMakeNoThread(s, f.point, env);
      assert forall b :: b in t.agents ==> b in s.agents && b != a;
      assert t.agents.Keys == {};
      assert t.agents == map[];
    }
  }

  lemma RunKeepsReclaim(s: State, a: Agent, env: Env)
    requires ReclaimOk(s) && Enabled(s, Run(a, env))
    ensures ReclaimAgrees(Apply(s, Run(a, env)).reclaim, Apply(s, Run(a, env)).agents)
  {
    hide Body, OneWorker, Announced, Destroys, Deferred, LocksAgree;
    var t := Apply(s, Run(a, env));
    var f := s.agents[a];
    var e := Body(s, a, f, env);
    BodyPassesOn(s, a, f, env);
    BodyShape(s, a, f, env);
    WorkersDoNotDestroy(f.point);
    if Destroys(f.point) && e.next.None? {
      ReturnKeepsReclaim(s, a.tid, env);
    } else {
      OthersStayPut(s, a, env);
      forall v: Tid | Caller(v) in t.agents && Worker(v) in s.agents ensures Worker(v) in t.agents {
        CallersKeepWorkers(s, a, env, v);
      }
      StillAgrees(s.reclaim, s.agents, t.agents);
    }
  }

  lemma OthersStayPut(s: State, a: Agent, env: Env)
    requires WorkersAgree(s) && Enabled(s, Run(a, env))
    ensures var t := Apply(s, Run(a, env));
            forall u: Tid | Caller(u) in t.agents && Caller(u) != a ::
              Caller(u) in s.agents && t.agents[Caller(u)] == s.agents[Caller(u)]
  {
    hide Body;
    BodyThreads(s, a, s.agents[a], env);
  }

  lemma WorkersDoNotDestroy(p: Point)
    ensures p.IsWorkers() ==> !Destroys(p)
    ensures Destroys(p) ==> p.Stopping?
  {
  }

  lemma StoppersMakeNoThread(s: State, p: Point, env: Env)
    requires p.Stopping?
    ensures forall b | b in Threads(s, p, env) :: b in s.agents
  {
  }

  lemma StepKeepsReclaim(s: State, action: Action)
    requires ReclaimOk(s) && Enabled(s, action)
    ensures ReclaimOk(Apply(s, action))
  {
    hide Body, OneWorker, Announced, LocksAgree, PlacesAgree;
    StepKeepsWorkers(s, action);
    match action
    case Run(a, env) => RunKeepsReclaim(s, a, env);
    case Begin(_, op) => assert Destroys(EntryPoint(op)) <==> op == DestroyOp || op == ReclaimOp;
    case Acquire(_) =>
    case Tick(_) =>
  }

  /** Released storage is never touched again: its worker is joined, no call is inside it and none can begin. */
  lemma FreedIsFinal(s: State, action: Action)
    requires ReclaimOk(s) && s.reclaim == Freed && Enabled(s, action)
    ensures s.agents == map[] && action.Tick?
  {
  }

  /** A client destroyed from its own callback waits for the deferred destroyer while its worker runs on. */
  lemma CallbackHandsOver(s: State, u: Tid, env: Env)
    requires ReclaimOk(s) && Enabled(s, Run(Caller(u), env))
    requires s.agents[Caller(u)].point.Stopping? && s.agents[Caller(u)].point.use == FromCallback
    requires Body(s, Caller(u), s.agents[Caller(u)], env).next.None?
    ensures var t := Apply(s, Run(Caller(u), env));
            t.reclaim == Pending && Worker(u) in t.agents && InCallback(t.agents[Worker(u)].point)
  {
    hide MarkState, StartBody, CallBody, SessionBody, RecordBody, ClosingBody, Announced, LocksAgree, ReclaimAgrees;
    assert RoleHolds(s.control, s.agents, u, RoleOf(s.agents[Caller(u)].point));
  }
}
