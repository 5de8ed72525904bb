/** One worker, one joiner: who owns the worker thread in every interleaving. */
module ProtocolWorkers {
  import opened Types
  import opened Pipeline
  import opened Protocol
  import opened ProtocolLocks

  /** What a caller's place in the code says about the worker. */
  datatype Role =
    | Free                  // nothing
    | Inside                // the caller is the worker thread, in its callback
    | Outside               // the caller is not the worker thread
    | Alone                 // no worker exists and none is being joined
    | Armed                 // the same, and start() has already announced a worker
    | Joining(worker: Tid)  // this caller took the handle and joins the worker
    | Reaping               // this caller joined the worker and has not said so yet
    | Never                 // the worker thread does not get here

  function RoleOfUse(use: StopUse): Role {
    match use
    case Plain => Free
    case FromCallback => Inside
    case BeforeDestruct => Outside
    case Destruct => Outside
  }

  function RoleOf(p: Point): Role {
    match p
    case Starting(q) => (
      match q
      case StartEnter(_) => Free
      case StartAwaitJoin(_) => Outside
      case StartAwaitExit(_) => Outside
      case StartRecord(_, _) => Alone
      case StartReset(_, _) => Alone
      case StartArm(_, _) => Alone
      case StartCreate(_, _) => Armed
      case UndoAtomics(_) => Armed
      case UndoRecord(_) => Alone
      case UndoData(_) => Alone
      case UndoLatch(_) => Alone
      case UndoFault(_) => Alone
      case StartJoin(_, w) => Joining(w)
      case StartReaped(_) => Reaping
    )
    case Stopping(use, q) => (
      match q
      case DestroyEnter => Free
      case StopAwaitJoin => if use == FromCallback then Never else Outside
      case StopIdle => if use == FromCallback then Never else Alone
      case StopJoin(w) => if use == FromCallback then Never else Joining(w)
      case StopReaped => if use == FromCallback then Never else Reaping
      case StopReapedState => if use == FromCallback then Never else Reaping
      case _ => RoleOfUse(use)
    )
    case _ => Free
  }

  /** After worker_exited_ is set. */
  predicate HasExited(p: Point) {
    p.Leaving? && (p.closing.WorkExited? || p.closing.WorkMarkStopped? || p.closing.WorkDone?)
  }

  ghost predicate NoWorkers(agents: map<Agent, Frame>) {
    forall w: Tid :: Worker(w) !in agents
  }

  ghost predicate RoleHolds(c: Control, agents: map<Agent, Frame>, t: Tid, role: Role) {
    match role
    case Free => true
    case Inside => Worker(t) in agents
    case Outside => Worker(t) !in agents
    case Alone => NoWorkers(agents) && c.handle.None? && !c.joining && c.exited
    case Armed => NoWorkers(agents) && c.handle.None? && !c.joining && !c.exited && !c.stopping
    case Joining(w) => c.joiner == Some(t) && Worker(w) in agents && Worker(t) !in agents && c.handle.None?
    case Reaping => c.joiner == Some(t) && NoWorkers(agents) && c.handle.None? && c.exited
    case Never => false
  }

  /** The worker is held by the handle, or by the one caller that set joining_ and is at its join. */
  ghost predicate Owned(c: Control, agents: map<Agent, Frame>, w: Tid) {
    if c.joining then
      c.joiner.Some? && Caller(c.joiner.value) in agents && RoleOf(agents[Caller(c.joiner.value)].point) == Joining(w)
    else c.handle == Some(w)
  }

  ghost predicate OneWorker(c: Control, agents: map<Agent, Frame>) {
    (forall w: Tid | Worker(w) in agents ::
      c.active == Some(w) && Owned(c, agents, w) && (c.exited <==> HasExited(agents[Worker(w)].point))) &&
    (c.handle.Some? ==> Worker(c.handle.value) in agents) &&
    (c.joining <==> c.joiner.Some?) &&
    (c.joining ==>
      c.handle.None? && Caller(c.joiner.value) in agents &&
      (RoleOf(agents[Caller(c.joiner.value)].point).Joining? ||
       RoleOf(agents[Caller(c.joiner.value)].point).Reaping?)) &&
    (forall t: Tid | Caller(t) in agents :: RoleHolds(c, agents, t, RoleOf(agents[Caller(t)].point))) &&
    (forall t: Tid | Caller(t) in agents :: SavedExited(agents[Caller(t)].point))
  }

  /** start() found no worker when it remembered the state to roll back to. */
  predicate SavedExited(p: Point) {
    p.Starting? && RoleOf(p) in {Alone, Armed} ==> p.start.saved.exited
  }

  /** While worker_exited_ is false there is a worker, or a start() about to make one that holds the lifecycle mutex. */
  ghost predicate Announced(s: State) {
    !s.control.exited ==>
      !NoWorkers(s.agents) ||
      (Lifecycle in s.locks && s.locks[Lifecycle] in s.agents && RoleOf(s.agents[s.locks[Lifecycle]].point).Armed?)
  }

  ghost predicate WorkersAgree(s: State) {
    WellLocked(s) && OneWorker(s.control, s.agents) && Announced(s)
  }

  /** A thread whose role speaks for the whole client holds the lifecycle mutex, unless it owns the join. */
  lemma RolesHoldLifecycle(f: Frame)
    requires RoleOf(f.point).Alone? || RoleOf(f.point).Armed?
    ensures Holding(f, Lifecycle)
  {
  }

  /** The places whose bodies write the control fields that roles speak about, or change role on their own. */
  predicate Decides(p: Point) {
    match p
    case Starting(q) =>
      q.StartEnter? || q.StartAwaitJoin? || q.StartArm? || q.StartCreate? || q.UndoAtomics? || q.StartJoin? ||
      q.StartReaped?
    case Stopping(_, q) =>
      q.DestroyEnter? || q.StopEnter? || q.StopDecide? || q.StopIdle? || q.StopJoin? || q.StopReaped? ||
      q.StopReapedState?
    case Leaving(q) => q.WorkExit?
    case _ => false
  }

  /** What every other body does to roles: nothing. */
  ghost predicate Bystander(s: State, p: Point, e: Effect) {
    e.state.control == s.control.(
      callback := e.state.control.callback, latch := e.state.control.latch, published := e.state.control.published) &&
    (e.next.Some? ==> RoleOf(e.next.value) == RoleOf(p) || RoleOf(e.next.value) == Free || RoleOf(p) == Never) &&
    (e.next.Some? ==> HasExited(e.next.value) == HasExited(p)) &&
    (e.next.Some? && SavedExited(p) ==> SavedExited(e.next.value)) &&
    !RoleOf(p).Joining? && !RoleOf(p).Reaping? && !RoleOf(p).Armed?
  }

  lemma StartBystander(s: State, t: Tid, p: StartPoint, env: Env)
    requires !Decides(Starting(p))
    ensures Bystander(s, Starting(p), StartBody(s, t, p, env))
  {
    hide ForgetDelivery, ResetForRun, CountRun, ShowFault;
  }

  lemma StopBystander(s: State, t: Tid, use: StopUse, p: StopPoint, env: Env)
    requires !Decides(Stopping(use, p))
    ensures Bystander(s, Stopping(use, p), StopBody(s, t, use, p, env))
  {
    hide MarkState;
  }

  lemma CallBystander(s: State, p: CallPoint, env: Env)
    ensures Bystander(s, Calling(p), CallBody(s, p, env))
  {
    hide PruneWindows, Snapshot, ResetAfterBias;
  }

  lemma SessionBystander(s: State, p: SessionPoint, env: Env)
    ensures Bystander(s, Opening(p), SessionBody(s, p, env))
  {
    hide ApplyConfiguration, BeginStream, MarkState;
  }

  lemma RecordBystander(s: State, run: nat, p: RecordPoint, env: Env)
    ensures Bystander(s, Handling(p), RecordBody(s, run, p, env))
  {
    hide RecordBody;
    RecordStepsOn(s, run, p, env);
  }

  lemma ClosingBystander(s: State, p: ClosingPoint, env: Env)
    requires !Decides(Leaving(p))
    ensures Bystander(s, Leaving(p), ClosingBody(s, p, env))
  {
    hide ShowFault, EnterBackoff, MarkState, FaultFor, MessageFor;
  }

  lemma BodyBystander(s: State, a: Agent, f: Frame, env: Env)
    requires !Decides(f.point)
    ensures Bystander(s, f.point, Body(s, a, f, env))
  {
    match f.point
    case Starting(p) => StartBystander(s, a.tid, p, env);
    case Stopping(use, p) => StopBystander(s, a.tid, use, p, env);
    case Calling(p) => CallBystander(s, p, env);
    case Opening(p) => SessionBystander(s, p, env);
    case Handling(p) => RecordBystander(s, f.run, p, env);
    case Leaving(p) => ClosingBystander(s, p, env);
  }

  // ---------------------------------------------------------------- every step keeps it

  /** The fields that roles speak about. */
  ghost predicate SameOwnership(c: Control, d: Control) {
    d == c.(callback := d.callback, latch := d.latch, published := d.published)
  }

  /** One thread moved on or returned, and what its new place says about the worker is true. */
  ghost predicate Moved(c: Control, agents: map<Agent, Frame>, moved: map<Agent, Frame>, a: Agent) {
    a in agents &&
    (forall b :: b != a ==> (b in moved <==> b in agents)) &&
    (forall b :: b != a && b in agents ==> moved[b].point == agents[b].point) &&
    (a.Worker? ==> a in moved) &&
    (a in moved ==> HasExited(moved[a].point) == HasExited(agents[a].point) && SavedExited(moved[a].point)) &&
    (a in moved && a.Caller? ==> RoleHolds(c, agents, a.tid, RoleOf(moved[a].point))) &&
    (a !in moved || RoleOf(moved[a].point) != RoleOf(agents[a].point) ==>
       !RoleOf(agents[a].point).Joining? && !RoleOf(agents[a].point).Reaping?)
  }

  lemma MovedKeeps(c: Control, d: Control, agents: map<Agent, Frame>, moved: map<Agent, Frame>, a: Agent)
    requires OneWorker(c, agents) && SameOwnership(c, d) && Moved(c, agents, moved, a)
    ensures OneWorker(d, moved)
  {
    hide RoleOf, HasExited, SavedExited;
    forall t: Tid | Caller(t) in moved ensures RoleHolds(d, moved, t, RoleOf(moved[Caller(t)].point)) {
      if Caller(t) != a {
        assert RoleHolds(c, agents, t, RoleOf(agents[Caller(t)].point));
      }
    }
    forall w: Tid | Worker(w) in moved
      ensures d.active == Some(w) && Owned(d, moved, w) && (d.exited <==> HasExited(moved[Worker(w)].point))
    {
      assert Owned(c, agents, w);
    }
  }

  /** While some other thread holds the lifecycle mutex, or a worker exists, the announcement stands. */
  lemma AnnouncedStays(s: State, a: Agent, t: State)
    requires WellLocked(s) && WellLocked(t) && Announced(s) && Moved(s.control, s.agents, t.agents, a)
    requires t.control.exited == s.control.exited
    requires RoleOf(s.agents[a].point).Armed? ==> a in t.agents && RoleOf(t.agents[a].point).Armed?
    ensures Announced(t)
  {
    hide RoleOf, HasExited, SavedExited, Point.Keeps, Point.Guard;
    if !s.control.exited && NoWorkers(t.agents) {
      forall w: Tid ensures Worker(w) !in s.agents {
        assert Worker(w) in s.agents ==> Worker(w) in t.agents;
      }
      var b := s.locks[Lifecycle];
      ArmedHoldsLifecycle(t, b);
    }
  }

  lemma ArmedHoldsLifecycle(t: State, b: Agent)
    requires WellLocked(t) && b in t.agents && RoleOf(t.agents[b].point).Armed?
    ensures Lifecycle in t.locks && t.locks[Lifecycle] == b
  {
    RolesHoldLifecycle(t.agents[b]);
    assert Holds(t.agents, b, Lifecycle);
  }

  lemma BystanderKeeps(s: State, a: Agent, env: Env)
    requires WorkersAgree(s) && Enabled(s, Run(a, env)) && !Decides(s.agents[a].point)
    ensures WorkersAgree(Apply(s, Run(a, env)))
  {
    hide Body, RoleOf, HasExited, SavedExited, Point.Keeps, Point.Guard, Decides;
    var t := Apply(s, Run(a, env));
    BodyShape(s, a, s.agents[a], env);
    BodyBystander(s, a, s.agents[a], env);
    BystanderMakesNoThread(s, s.agents[a].point, env);
    BodyThreads(s, a, s.agents[a], env);
    StepKeepsLocks(s, Run(a, env));
    NeverReached(s, a);
    assert Moved(s.control, s.agents, t.agents, a);
    MovedKeeps(s.control, t.control, s.agents, t.agents, a);
    AnnouncedStays(s, a, t);
  }

  lemma NeverReached(s: State, a: Agent)
    requires OneWorker(s.control, s.agents) && PlacesAgree(s.agents) && a in s.agents
    ensures !RoleOf(s.agents[a].point).Never?
    ensures SavedExited(s.agents[a].point)
  {
    if a.Caller? {
      assert RoleHolds(s.control, s.agents, a.tid, RoleOf(s.agents[Caller(a.tid)].point));
    }
  }

  lemma BystanderMakesNoThread(s: State, p: Point, env: Env)
    requires !Decides(p)
    ensures Threads(s, p, env) == s.agents
  {
  }

  /** Roles and ownership depend on the threads' places only. */
  lemma SamePlacesKeep(c: Control, agents: map<Agent, Frame>, moved: map<Agent, Frame>)
    requires OneWorker(c, agents)
    requires moved.Keys == agents.Keys && forall b | b in agents :: moved[b].point == agents[b].point
    ensures OneWorker(c, moved)
  {
    hide RoleOf, HasExited, SavedExited;
    forall u: Tid | Caller(u) in moved ensures RoleHolds(c, moved, u, RoleOf(moved[Caller(u)].point)) {
      assert RoleHolds(c, agents, u, RoleOf(agents[Caller(u)].point));
    }
    forall w: Tid | Worker(w) in moved
      ensures c.active == Some(w) && Owned(c, moved, w) && (c.exited <==> HasExited(moved[Worker(w)].point))
    {
      assert Owned(c, agents, w);
    }
  }

  /** A thread that comes in with no role changes nothing. */
  lemma NewcomerKeeps(c: Control, agents: map<Agent, Frame>, moved: map<Agent, Frame>, u: Tid)
    requires OneWorker(c, agents) && Caller(u) !in agents
    requires moved.Keys == agents.Keys + {Caller(u)} && forall b | b in agents :: moved[b] == agents[b]
    requires RoleHolds(c, moved, u, RoleOf(moved[Caller(u)].point)) && SavedExited(moved[Caller(u)].point)
    ensures OneWorker(c, moved)
  {
    hide RoleOf, HasExited, SavedExited;
    forall v: Tid | Caller(v) in moved ensures RoleHolds(c, moved, v, RoleOf(moved[Caller(v)].point)) {
      if v != u {
        assert RoleHolds(c, agents, v, RoleOf(agents[Caller(v)].point));
      }
    }
    forall w: Tid | Worker(w) in moved
      ensures c.active == Some(w) && Owned(c, moved, w) && (c.exited <==> HasExited(moved[Worker(w)].point))
    {
      assert Owned(c, agents, w);
    }
  }

  lemma AnnouncementStands(s: State, t: State)
    requires WellLocked(s) && WellLocked(t) && Announced(s) && t.control == s.control
    requires forall b | b in s.agents :: b in t.agents && t.agents[b].point == s.agents[b].point
    ensures Announced(t)
  {
    hide RoleOf, HasExited, SavedExited, Point.Keeps, Point.Guard;
    if !s.control.exited && NoWorkers(t.agents) {
      forall w: Tid ensures Worker(w) !in s.agents {
        assert Worker(w) in s.agents ==> Worker(w) in t.agents;
      }
      ArmedHoldsLifecycle(t, s.locks[Lifecycle]);
    }
  }

  lemma AcquireKeepsWorkers(s: State, a: Agent)
    requires WorkersAgree(s) && Enabled(s, Acquire(a))
    ensures WorkersAgree(Apply(s, Acquire(a)))
  {
    hide OneWorker, Announced, WellLocked, Body, Settle, Point.Keeps, Point.Guard;
    var t := Apply(s, Acquire(a));
    StepKeepsLocks(s, Acquire(a));
    SamePlacesKeep(s.control, s.agents, t.agents);
    AnnouncementStands(s, t);
  }

  lemma EntryRoles(c: Control, agents: map<Agent, Frame>, u: Tid, op: Op)
    requires op.ReclaimOp? ==> Worker(u) !in agents
    ensures RoleHolds(c, agents, u, RoleOf(EntryPoint(op))) && SavedExited(EntryPoint(op))
  {
  }

  lemma BeginKeepsWorkers(s: State, u: Tid, op: Op)
    requires WorkersAgree(s) && Enabled(s, Begin(u, op))
    ensures WorkersAgree(Apply(s, Begin(u, op)))
  {
    hide OneWorker, Announced, WellLocked, Body, Settle, Point.Keeps, Point.Guard, RoleOf, RoleHolds, SavedExited,
      EntryPoint;
    var t := Apply(s, Begin(u, op));
    StepKeepsLocks(s, Begin(u, op));
    EntryRoles(s.control, t.agents, u, op);
    NewcomerKeeps(s.control, s.agents, t.agents, u);
    AnnouncementStands(s, t);
  }

  // ---------------------------------------------------------------- deciding under the lifecycle mutex

  lemma OthersAreNotAlone(s: State, a: Agent)
    requires WellLocked(s) && Holds(s.agents, a, Lifecycle)
    ensures forall b | b in s.agents && b != a :: !RoleOf(s.agents[b].point).Alone? && !RoleOf(s.agents[b].point).Armed?
  {
    hide RoleOf, HasExited, Point.Keeps, Point.Guard;
    forall b | b in s.agents && b != a ensures !RoleOf(s.agents[b].point).Alone? && !RoleOf(s.agents[b].point).Armed? {
      if RoleOf(s.agents[b].point).Alone? || RoleOf(s.agents[b].point).Armed? {
        RolesHoldLifecycle(s.agents[b]);
        MutualExclusion(s, a, b, Lifecycle);
      }
    }
  }

  /** The self-check is right: a caller that passes it is the worker thread, and no other caller is. */
  lemma SelfCheckIsRight(s: State, t: Tid)
    requires WorkersAgree(s) && Holds(s.agents, Caller(t), Lifecycle) && !RoleOf(s.agents[Caller(t)].point).Armed?
    ensures IsSelf(s, t) <==> Worker(t) in s.agents
  {
    hide RoleOf, Point.Keeps, Point.Guard;
    if Worker(t) in s.agents {
      assert InCallback(s.agents[Worker(t)].point);
      assert s.control.active == Some(t);
    }
    if IsSelf(s, t) {
      OthersAreNotAlone(s, Caller(t));
      assert !NoWorkers(s.agents);
      var w: Tid :| Worker(w) in s.agents;
      assert s.control.active == Some(w);
    }
  }

  lemma UnownedMeansNone(s: State, a: Agent)
    requires WorkersAgree(s) && Holds(s.agents, a, Lifecycle) && !RoleOf(s.agents[a].point).Armed?
    requires s.control.handle.None? && !s.control.joining
    ensures NoWorkers(s.agents) && s.control.exited
  {
    hide RoleOf, HasExited, Point.Keeps, Point.Guard;
    forall w: Tid ensures Worker(w) !in s.agents {
      assert Worker(w) in s.agents ==> Owned(s.control, s.agents, w);
    }
    assert s.locks[Lifecycle] == a;
  }

  /** Taking the handle makes this caller the joiner of the worker. */
  lemma TakingKeeps(s: State, t: State, u: Tid, w: Tid)
    requires WorkersAgree(s) && Holds(s.agents, Caller(u), Lifecycle)
    requires s.control.handle == Some(w) && Worker(u) !in s.agents
    requires t.control == s.control.(joining := true, joiner := Some(u), handle := None)
    requires forall b :: b != Caller(u) ==> (b in t.agents <==> b in s.agents)
    requires forall b :: b != Caller(u) && b in s.agents ==> t.agents[b] == s.agents[b]
    requires Caller(u) in t.agents && RoleOf(t.agents[Caller(u)].point) == Joining(w)
    requires SavedExited(t.agents[Caller(u)].point)
    ensures OneWorker(t.control, t.agents)
  {
    hide RoleOf, HasExited, SavedExited, Point.Keeps, Point.Guard;
    OthersAreNotAlone(s, Caller(u));
    forall v: Tid | Caller(v) in t.agents ensures RoleHolds(t.control, t.agents, v, RoleOf(t.agents[Caller(v)].point)) {
      if v != u {
        assert RoleHolds(s.control, s.agents, v, RoleOf(s.agents[Caller(v)].point));
      }
    }
    forall x: Tid | Worker(x) in t.agents
      ensures t.control.active == Some(x) && Owned(t.control, t.agents, x)
      ensures t.control.exited <==> HasExited(t.agents[Worker(x)].point)
    {
      assert Owned(s.control, s.agents, x);
    }
  }

  /** Every outcome of a decision: the handle is taken, or the next place's role is true already. */
  ghost predicate Decided(s: State, u: Tid, p: Point, e: Effect) {
    (e.state.control == s.control.(joining := true, joiner := Some(u), handle := None) &&
      s.control.handle.Some? && e.next.Some? && RoleOf(e.next.value) == Joining(s.control.handle.value) &&
      SavedExited(e.next.value) && Worker(u) !in s.agents) ||
    (SameOwnership(s.control, e.state.control) &&
      !RoleOf(p).Joining? && !RoleOf(p).Reaping? &&
      (e.next.Some? ==>
        RoleHolds(s.control, s.agents, u, RoleOf(e.next.value)) &&
        SavedExited(e.next.value) && HasExited(e.next.value) == HasExited(p)))
  }

  ghost predicate KnowsWorker(s: State, u: Tid) {
    (IsSelf(s, u) <==> Worker(u) in s.agents) &&
    (s.control.handle.None? && !s.control.joining ==> NoWorkers(s.agents) && s.control.exited)
  }

  lemma DecidersKnow(s: State, u: Tid)
    requires WorkersAgree(s) && Holds(s.agents, Caller(u), Lifecycle) && !RoleOf(s.agents[Caller(u)].point).Armed?
    ensures KnowsWorker(s, u)
    ensures RoleHolds(s.control, s.agents, u, RoleOf(s.agents[Caller(u)].point))
  {
    hide RoleOf;
    SelfCheckIsRight(s, u);
    if s.control.handle.None? && !s.control.joining {
      UnownedMeansNone(s, Caller(u));
    }
  }

  lemma StartDecided(s: State, u: Tid, p: StartPoint, env: Env)
    requires p.StartEnter? || p.StartAwaitJoin?
    requires KnowsWorker(s, u) && RoleHolds(s.control, s.agents, u, RoleOf(Starting(p)))
    ensures Decided(s, u, Starting(p), StartBody(s, u, p, env))
  {
  }

  lemma StopDecided(s: State, u: Tid, use: StopUse, p: StopPoint, env: Env)
    requires p.StopDecide? || p.DestroyEnter? || p.StopIdle?
    requires KnowsWorker(s, u) && RoleHolds(s.control, s.agents, u, RoleOf(Stopping(use, p)))
    ensures Decided(s, u, Stopping(use, p), StopBody(s, u, use, p, env))
  {
    hide MarkState;
  }

  lemma JoiningTakesHandle(c: Control, agents: map<Agent, Frame>)
    requires OneWorker(c, agents)
    ensures c.joining ==> c.handle.None?
  {
  }

  lemma DecisionKeeps(s: State, u: Tid, env: Env)
    requires WorkersAgree(s) && Enabled(s, Run(Caller(u), env))
    requires Decided(s, u, s.agents[Caller(u)].point, Body(s, Caller(u), s.agents[Caller(u)], env))
    requires Threads(s, s.agents[Caller(u)].point, env) == s.agents
    requires Holds(s.agents, Caller(u), Lifecycle)
    ensures var t := Apply(s, Run(Caller(u), env)); OneWorker(t.control, t.agents)
  {
    hide Body, RoleOf, HasExited, SavedExited, Owned, OneWorker, Announced, LocksAgree;
    var a := Caller(u);
    var t := Apply(s, Run(a, env));
    BodyThreads(s, a, s.agents[a], env);
    JoiningTakesHandle(s.control, s.agents);
    if t.control.joining && !s.control.joining {
      TakingKeeps(s, t, u, s.control.handle.value);
    } else {
      assert Moved(s.control, s.agents, t.agents, a);
      MovedKeeps(s.control, t.control, s.agents, t.agents, a);
    }
  }

  // ---------------------------------------------------------------- writing what the roles speak about

  /** Only thread a moved; the others stayed where they were. */
  ghost predicate OnlyMoved(agents: map<Agent, Frame>, moved: map<Agent, Frame>, a: Agent) {
    (forall b :: b != a ==> (b in moved <==> b in agents)) &&
    (forall b :: b != a && b in agents ==> moved[b] == agents[b])
  }

  ghost predicate OthersNotAlone(agents: map<Agent, Frame>, a: Agent) {
    forall b | b in agents && b != a :: !RoleOf(agents[b].point).Alone? && !RoleOf(agents[b].point).Armed?
  }

  /** With no worker around, start() may announce one and take the announcement back. */
  lemma AloneWrites(c: Control, d: Control, agents: map<Agent, Frame>, moved: map<Agent, Frame>, u: Tid)
    requires OneWorker(c, agents) && OthersNotAlone(agents, Caller(u)) && OnlyMoved(agents, moved, Caller(u))
    requires NoWorkers(agents) && c.handle.None? && !c.joining
    requires d == c.(stopping := d.stopping, exited := d.exited, callback := d.callback)
    requires Caller(u) in moved ==>
             RoleHolds(d, moved, u, RoleOf(moved[Caller(u)].point)) && SavedExited(moved[Caller(u)].point)
    ensures OneWorker(d, moved)
  {
    hide RoleOf, HasExited, SavedExited;
    forall t: Tid | Caller(t) in moved ensures RoleHolds(d, moved, t, RoleOf(moved[Caller(t)].point)) {
      if t != u {
        assert RoleHolds(c, agents, t, RoleOf(agents[Caller(t)].point));
      }
    }
  }

  lemma MakingKeeps(c: Control, d: Control, agents: map<Agent, Frame>, moved: map<Agent, Frame>, u: Tid, w: Tid)
    requires OneWorker(c, agents) && OthersNotAlone(agents, Caller(u))
    requires NoWorkers(agents) && c.handle.None? && !c.joining && !c.exited
    requires Caller(w) !in agents && Caller(u) in agents
    requires w != u && Worker(w) in moved && !HasExited(moved[Worker(w)].point)
    requires moved == (agents - {Caller(u)})[Worker(w) := moved[Worker(w)]]
    requires d == c.(handle := Some(w), active := Some(w), published := None)
    ensures OneWorker(d, moved)
  {
    hide RoleOf, HasExited, SavedExited;
    forall t: Tid | Caller(t) in moved ensures RoleHolds(d, moved, t, RoleOf(moved[Caller(t)].point)) {
      assert RoleHolds(c, agents, t, RoleOf(agents[Caller(t)].point));
    }
  }

  lemma JoiningKeeps(c: Control, d: Control, agents: map<Agent, Frame>, moved: map<Agent, Frame>, u: Tid, w: Tid)
    requires OneWorker(c, agents) && Caller(u) in agents && RoleOf(agents[Caller(u)].point) == Joining(w)
    requires Worker(w) in agents && HasExited(agents[Worker(w)].point)
    requires forall t: Tid | Caller(t) in agents && Worker(t) in agents :: InCallback(agents[Worker(t)].point)
    requires OnlyMoved(agents - {Worker(w)}, moved, Caller(u))
    requires Caller(u) in moved && RoleOf(moved[Caller(u)].point) == Reaping && SavedExited(moved[Caller(u)].point)
    requires SameOwnership(c, d)
    ensures OneWorker(d, moved)
  {
    hide RoleOf, SavedExited;
    forall x: Tid ensures Worker(x) !in moved {
      if Worker(x) in agents {
        assert c.active == Some(x) && c.active == Some(w);
      }
    }
    forall t: Tid | Caller(t) in moved ensures RoleHolds(d, moved, t, RoleOf(moved[Caller(t)].point)) {
      if t != u {
        assert RoleHolds(c, agents, t, RoleOf(agents[Caller(t)].point));
      }
    }
  }

  lemma ReapingKeeps(c: Control, d: Control, agents: map<Agent, Frame>, moved: map<Agent, Frame>, u: Tid)
    requires OneWorker(c, agents) && Caller(u) in agents && RoleOf(agents[Caller(u)].point) == Reaping
    requires OthersNotAlone(agents, Caller(u)) && OnlyMoved(agents, moved, Caller(u))
    requires Caller(u) in moved ==>
               SavedExited(moved[Caller(u)].point) &&
               (RoleOf(moved[Caller(u)].point) == Free || RoleOf(moved[Caller(u)].point) == Outside)
    requires SameOwnership(c.(active := None, joining := false, joiner := None), d)
    ensures OneWorker(d, moved)
  {
    hide RoleOf, HasExited, SavedExited;
    assert RoleHolds(c, agents, u, Reaping);
    forall t: Tid | Caller(t) in moved ensures RoleHolds(d, moved, t, RoleOf(moved[Caller(t)].point)) {
      if t != u {
        assert RoleHolds(c, agents, t, RoleOf(agents[Caller(t)].point));
      }
    }
  }

  lemma StoppingKeeps(c: Control, agents: map<Agent, Frame>, u: Tid)
    requires OneWorker(c, agents) && OthersNotAlone(agents, Caller(u))
    requires Caller(u) in agents && !RoleOf(agents[Caller(u)].point).Armed?
    ensures OneWorker(c.(stopping := true), agents)
  {
    hide RoleOf, HasExited, SavedExited;
    forall t: Tid | Caller(t) in agents
      ensures RoleHolds(c.(stopping := true), agents, t, RoleOf(agents[Caller(t)].point))
    {
      assert RoleHolds(c, agents, t, RoleOf(agents[Caller(t)].point));
    }
    forall x: Tid | Worker(x) in agents ensures Owned(c.(stopping := true), agents, x) {
      assert Owned(c, agents, x);
    }
  }

  lemma ExitingKeeps(c: Control, agents: map<Agent, Frame>, moved: map<Agent, Frame>, w: Tid)
    requires OneWorker(c, agents) && Worker(w) in agents && OnlyMoved(agents, moved, Worker(w))
    requires Worker(w) in moved && HasExited(moved[Worker(w)].point)
    ensures OneWorker(c.(exited := true), moved)
  {
    hide RoleOf, HasExited, SavedExited;
    forall t: Tid | Caller(t) in moved ensures RoleHolds(c.(exited := true), moved, t, RoleOf(moved[Caller(t)].point)) {
      assert RoleHolds(c, agents, t, RoleOf(agents[Caller(t)].point));
    }
    forall x: Tid | Worker(x) in moved
      ensures x == w && Owned(c.(exited := true), moved, x)
    {
      assert Owned(c, agents, x) && Owned(c, agents, w);
    }
  }

  // ---------------------------------------------------------------- the deciding steps

  /** A thread that holds the lifecycle mutex and announces nothing finds a worker behind every announcement. */
  lemma HolderSeesWorker(s: State, a: Agent)
    requires WorkersAgree(s) && Holds(s.agents, a, Lifecycle) && !RoleOf(s.agents[a].point).Armed?
    ensures !s.control.exited ==> !NoWorkers(s.agents)
  {
    hide RoleOf, Point.Keeps, Point.Guard;
    assert s.locks[Lifecycle] == a;
  }

  predicate IsDecision(p: Point) {
    match p
    case Starting(q) => q.StartEnter? || q.StartAwaitJoin?
    case Stopping(_, q) => q.StopDecide? || q.DestroyEnter? || q.StopIdle?
    case _ => false
  }

  lemma DecidersHoldLifecycle(f: Frame)
    requires IsDecision(f.point) && !f.waiting
    ensures Holding(f, Lifecycle) && !RoleOf(f.point).Armed?
  {
  }

  lemma DecisionAnnounces(s: State, u: Tid, env: Env)
    requires Enabled(s, Run(Caller(u), env))
    requires Decided(s, u, s.agents[Caller(u)].point, Body(s, Caller(u), s.agents[Caller(u)], env))
    requires Threads(s, s.agents[Caller(u)].point, env) == s.agents
    requires !s.control.exited ==> !NoWorkers(s.agents)
    ensures Announced(Apply(s, Run(Caller(u), env)))
  {
    hide Body, RoleOf, HasExited, SavedExited, RoleHolds;
    var t := Apply(s, Run(Caller(u), env));
    BodyThreads(s, Caller(u), s.agents[Caller(u)], env);
    if !s.control.exited {
      var w: Tid :| Worker(w) in s.agents;
      assert Worker(w) in t.agents;
    }
  }

  lemma DecisionSteps(s: State, u: Tid, env: Env)
    requires WorkersAgree(s) && Enabled(s, Run(Caller(u), env))
    requires IsDecision(s.agents[Caller(u)].point)
    ensures WorkersAgree(Apply(s, Run(Caller(u), env)))
  {
    hide Owned, StartBody, StopBody, RoleOf, HasExited, SavedExited, Point.Keeps, Point.Guard, OneWorker, Announced;
    var a := Caller(u);
    var t := Apply(s, Run(a, env));
    StepKeepsLocks(s, Run(a, env));
    DecidersHoldLifecycle(s.agents[a]);
    assert Holds(s.agents, a, Lifecycle);
    HolderSeesWorker(s, a);
    DecidersKnow(s, u);
    match s.agents[a].point
    case Starting(p) =>
      StartDecided(s, u, p, env);
      DecisionKeeps(s, u, env);
      DecisionAnnounces(s, u, env);
    case Stopping(use, p) =>
      StopDecided(s, u, use, p, env);
      DecisionKeeps(s, u, env);
      DecisionAnnounces(s, u, env);
  }

  predicate IsAnnouncement(p: Point, env: Env) {
    p.Starting? && (p.start.StartArm? || p.start.UndoAtomics? || (p.start.StartCreate? && !env.ok))
  }

  lemma AnnouncementEffect(s: State, u: Tid, f: Frame, env: Env)
    requires IsAnnouncement(f.point, env) && SavedExited(f.point)
    requires RoleHolds(s.control, s.agents, u, RoleOf(f.point))
    ensures var e := Body(s, Caller(u), f, env);
            NoWorkers(s.agents) && s.control.handle.None? && !s.control.joining &&
            Holding(f.(waiting := false), Lifecycle) &&
            e.state.control == s.control.(
              stopping := e.state.control.stopping, exited := e.state.control.exited,
                callback := e.state.control.callback) &&
            e.next.Some? && SavedExited(e.next.value) &&
            RoleHolds(e.state.control, s.agents, u, RoleOf(e.next.value)) &&
            (e.state.control.exited || RoleOf(e.next.value).Armed?) &&
            Threads(s, f.point, env) == s.agents
  {
  }

  lemma AloneSteps(s: State, u: Tid, env: Env)
    requires WorkersAgree(s) && Enabled(s, Run(Caller(u), env)) && IsAnnouncement(s.agents[Caller(u)].point, env)
    ensures WorkersAgree(Apply(s, Run(Caller(u), env)))
  {
    hide HasExited, Owned, Body, RoleOf, SavedExited, IsAnnouncement, Threads, Point.Keeps, Point.Guard;
    var a := Caller(u);
    var t := Apply(s, Run(a, env));
    StepKeepsLocks(s, Run(a, env));
    NeverReached(s, a);
    assert RoleHolds(s.control, s.agents, u, RoleOf(s.agents[a].point));
    AnnouncementEffect(s, u, s.agents[a], env);
    BodyThreads(s, a, s.agents[a], env);
    assert Holds(s.agents, a, Lifecycle);
    OthersAreNotAlone(s, a);
    AloneKeepsRole(t.control, s.agents, t.agents, u, RoleOf(t.agents[a].point));
    AloneWrites(s.control, t.control, s.agents, t.agents, u);
    if !t.control.exited {
      ArmedHoldsLifecycle(t, a);
    }
  }

  lemma AloneKeepsRole(c: Control, agents: map<Agent, Frame>, moved: map<Agent, Frame>, u: Tid, role: Role)
    requires NoWorkers(agents) && OnlyMoved(agents, moved, Caller(u)) && RoleHolds(c, agents, u, role)
    ensures RoleHolds(c, moved, u, role)
  {
  }

  ghost predicate Creates(s: State, action: Action) {
    action.Run? && action.agent.Caller? && action.agent in s.agents &&
    s.agents[action.agent].point.Starting? && s.agents[action.agent].point.start.StartCreate? && action.env.ok
  }

  /** What making the worker comes to. */
  lemma CreateShape(s: State, action: Action)
    requires Enabled(s, action) && Creates(s, action)
    ensures var t, w := Apply(s, action), action.env.tid;
            t.agents == (s.agents - {action.agent})[Worker(w) := NewWorker(s)] &&
            t.control == s.control.(handle := Some(w), active := Some(w), published := None) &&
            t.pipe == CountRun(s.pipe) && t.config == s.config && t.clock == s.clock &&
            Caller(w) !in s.agents && Worker(w) !in s.agents && !s.agents[action.agent].waiting
  {
    hide StopBody, CallBody, SessionBody, RecordBody, ClosingBody, CountRun;
    var a, w := action.agent, action.env.tid;
    assert (s.agents[Worker(w) := NewWorker(s)]) - {a} == (s.agents - {a})[Worker(w) := NewWorker(s)];
  }

  lemma CreatorHolds(f: Frame)
    requires f.point.Starting? && f.point.start.StartCreate?
    ensures Holding(f, Lifecycle) && RoleOf(f.point) == Armed
  {
  }

  lemma NewWorkerIsYoung(s: State)
    ensures NewWorker(s).point == Opening(WorkLoop) && !HasExited(NewWorker(s).point)
  {
  }

  lemma CreateStep(s: State, u: Tid, env: Env)
    requires WorkersAgree(s) && Enabled(s, Run(Caller(u), env)) && Creates(s, Run(Caller(u), env))
    ensures WorkersAgree(Apply(s, Run(Caller(u), env)))
  {
    hide Owned, Apply, Enabled, NewWorker, RoleOf, HasExited, SavedExited, Point.Keeps, Point.Guard, LocksAgree,
      PlacesAgree;
    var a := Caller(u);
    var t := Apply(s, Run(a, env));
    StepKeepsLocks(s, Run(a, env));
    CreateShape(s, Run(a, env));
    CreatorHolds(s.agents[a]);
    assert Holds(s.agents, a, Lifecycle);
    OthersAreNotAlone(s, a);
    assert RoleHolds(s.control, s.agents, u, RoleOf(s.agents[a].point));
    NewWorkerIsYoung(s);
    MakingKeeps(s.control, t.control, s.agents, t.agents, u, env.tid);
    assert Worker(env.tid) in t.agents;
  }

  predicate IsJoin(p: Point) {
    match p
    case Starting(q) => q.StartJoin?
    case Stopping(_, q) => q.StopJoin?
    case _ => false
  }

  predicate IsReap(p: Point) {
    match p
    case Starting(q) => q.StartReaped?
    case Stopping(_, q) => q.StopReaped? || q.StopReapedState?
    case _ => false
  }

  lemma JoinEffect(s: State, u: Tid, f: Frame, env: Env)
    requires IsJoin(f.point) && !RoleOf(f.point).Never?
    ensures var e := Body(s, Caller(u), f, env);
            RoleOf(f.point).Joining? && e.state.control == s.control &&
            e.next.Some? && RoleOf(e.next.value) == Reaping && SavedExited(e.next.value) &&
            Threads(s, f.point, env) == s.agents - {Worker(RoleOf(f.point).worker)}
  {
  }

  lemma JoinSteps(s: State, u: Tid, env: Env)
    requires WorkersAgree(s) && Enabled(s, Run(Caller(u), env)) && IsJoin(s.agents[Caller(u)].point)
    ensures WorkersAgree(Apply(s, Run(Caller(u), env)))
  {
    hide Owned, Body;
    var a := Caller(u);
    var t := Apply(s, Run(a, env));
    StepKeepsLocks(s, Run(a, env));
    NeverReached(s, a);
    JoinEffect(s, u, s.agents[a], env);
    BodyThreads(s, a, s.agents[a], env);
    assert RoleHolds(s.control, s.agents, u, RoleOf(s.agents[a].point));
    var w := RoleOf(s.agents[a].point).worker;
    assert IsDone(s, w);
    JoiningKeeps(s.control, t.control, s.agents, t.agents, u, w);
    assert s.control.exited;
  }

  /** After the join: the flag and the identity are cleared, or the state is still to be marked. */
  lemma ReapEffect(s: State, u: Tid, f: Frame, env: Env)
    requires IsReap(f.point) && !RoleOf(f.point).Never? && s.control.joining
    ensures var e := Body(s, Caller(u), f, env);
            RoleOf(f.point) == Reaping && !HasExited(f.point) && Threads(s, f.point, env) == s.agents &&
            Holding(f.(waiting := false), Lifecycle) &&
            (e.next.Some? ==> SavedExited(e.next.value) && !HasExited(e.next.value)) &&
            if e.state.control.joining then
              e.state.control == s.control && e.next.Some? && RoleOf(e.next.value) == Reaping
            else
              e.state.control == s.control.(active := None, joining := false, joiner := None) &&
              (e.next.Some? ==> RoleOf(e.next.value) == Free || RoleOf(e.next.value) == Outside)
  {
    hide MarkState;
  }

  lemma ReapRole(p: Point)
    requires IsReap(p)
    ensures RoleOf(p) == Reaping || RoleOf(p) == Never
  {
  }

  lemma ReapSteps(s: State, u: Tid, env: Env)
    requires WorkersAgree(s) && Enabled(s, Run(Caller(u), env)) && IsReap(s.agents[Caller(u)].point)
    ensures WorkersAgree(Apply(s, Run(Caller(u), env)))
  {
    hide Owned, Body, RoleOf, HasExited, SavedExited, Point.Keeps, Point.Guard;
    var a := Caller(u);
    var t := Apply(s, Run(a, env));
    StepKeepsLocks(s, Run(a, env));
    NeverReached(s, a);
    ReapRole(s.agents[a].point);
    assert RoleHolds(s.control, s.agents, u, RoleOf(s.agents[a].point));
    ReapEffect(s, u, s.agents[a], env);
    BodyThreads(s, a, s.agents[a], env);
    assert Holds(s.agents, a, Lifecycle);
    OthersAreNotAlone(s, a);
    if t.control.joining {
      MovedKeeps(s.control, t.control, s.agents, t.agents, a);
    } else {
      ReapingKeeps(s.control, t.control, s.agents, t.agents, u);
    }
  }

  lemma StopEnterStep(s: State, u: Tid, env: Env)
    requires WorkersAgree(s) && Enabled(s, Run(Caller(u), env))
    requires s.agents[Caller(u)].point.Stopping? && s.agents[Caller(u)].point.stop.StopEnter?
    ensures WorkersAgree(Apply(s, Run(Caller(u), env)))
  {
    hide Owned, StartBody, CallBody, SessionBody, RecordBody, ClosingBody;
    var a := Caller(u);
    var t := Apply(s, Run(a, env));
    StepKeepsLocks(s, Run(a, env));
    assert Holds(s.agents, a, Lifecycle);
    OthersAreNotAlone(s, a);
    HolderSeesWorker(s, a);
    assert RoleHolds(s.control, s.agents, u, RoleOf(s.agents[a].point));
    StoppingKeeps(s.control, s.agents, u);
    MovedKeeps(s.control.(stopping := true), t.control, s.agents, t.agents, a);
  }

  lemma ExitStep(s: State, w: Tid, env: Env)
    requires WorkersAgree(s) && Enabled(s, Run(Worker(w), env))
    requires s.agents[Worker(w)].point == Leaving(WorkExit)
    ensures WorkersAgree(Apply(s, Run(Worker(w), env)))
  {
    var a := Worker(w);
    var t := Apply(s, Run(a, env));
    StepKeepsLocks(s, Run(a, env));
    ExitingKeeps(s.control, s.agents, t.agents, w);
  }

  lemma RunKeepsWorkers(s: State, a: Agent, env: Env)
    requires WorkersAgree(s) && Enabled(s, Run(a, env))
    ensures WorkersAgree(Apply(s, Run(a, env)))
  {
    var p := s.agents[a].point;
    if !Decides(p) {
      BystanderKeeps(s, a, env);
    } else {
      assert a.Worker? <==> p.IsWorkers();
      match p
      case Starting(q) =>
        match q {
        case StartEnter(_) => DecisionSteps(s, a.tid, env);
        case StartAwaitJoin(_) => DecisionSteps(s, a.tid, env);
        case StartCreate(_, _) => if env.ok { CreateStep(s, a.tid, env); } else { AloneSteps(s, a.tid, env); }
        case StartJoin(_, _) => JoinSteps(s, a.tid, env);
        case StartReaped(_) => ReapSteps(s, a.tid, env);
        case _ => AloneSteps(s, a.tid, env);
        }
      case Stopping(_, q) =>
        match q {
        case StopEnter => StopEnterStep(s, a.tid, env);
        case StopJoin(_) => JoinSteps(s, a.tid, env);
        case StopReaped => ReapSteps(s, a.tid, env);
        case StopReapedState => ReapSteps(s, a.tid, env);
        case _ => DecisionSteps(s, a.tid, env);
        }
      case Leaving(_) => ExitStep(s, a.tid, env);
    }
  }

  /** One worker, one joiner: every step of every thread keeps the ownership of the worker. */
  lemma StepKeepsWorkers(s: State, action: Action)
    requires WorkersAgree(s) && Enabled(s, action)
    ensures WorkersAgree(Apply(s, action))
  {
    hide Body, RoleOf, HasExited, SavedExited, Decides;
    match action
    case Run(a, env) => RunKeepsWorkers(s, a, env);
    case Begin(u, op) => BeginKeepsWorkers(s, u, op);
    case Acquire(a) => AcquireKeepsWorkers(s, a);
    case Tick(_) =>
  }
}
