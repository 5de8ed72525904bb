/** The commands on the wire: every session is bracketed, and a stop is never lost. */
module ProtocolWire {
  import opened Types
  import opened Pipeline
  import opened Protocol
  import opened ProtocolLocks
  import opened ProtocolWorkers

  // ---------------------------------------------------------------- the language of the wire

  /** A session on the wire: after its start, some bias commands, each followed by a restart or not. */
  datatype WireSession = WireSession(restarts: seq<bool>)

  function SpellBiases(restarts: seq<bool>): seq<WireCommand> {
    if restarts == [] then [] else
      SpellBiases(restarts[..|restarts| - 1]) +
      (if restarts[|restarts| - 1] then [SetSoftwareBias, StartRealtime] else [SetSoftwareBias])
  }

  function SpellSession(session: WireSession): seq<WireCommand> {
    [StartRealtime] + SpellBiases(session.restarts) + [StopStreaming]
  }

  /** The words of (Start (Bias Start?)* Stop)*. */
  function Spell(sessions: seq<WireSession>): seq<WireCommand> {
    if sessions == [] then [] else Spell(sessions[..|sessions| - 1]) + SpellSession(sessions[|sessions| - 1])
  }

  ghost predicate IsComplete(wire: seq<WireCommand>) {
    exists sessions :: wire == Spell(sessions)
  }

  /** The wire can be read so far: closed sessions and perhaps one that is open. */
  datatype Reading = Closed(sessions: seq<WireSession>) | Open(sessions: seq<WireSession>, session: WireSession)

  function SpellReading(r: Reading): seq<WireCommand> {
    match r
    case Closed(sessions) => Spell(sessions)
    case Open(sessions, session) => Spell(sessions) + ([StartRealtime] + SpellBiases(session.restarts))
  }

  ghost predicate Reads(wire: seq<WireCommand>, open: bool, biased: bool) {
    exists r: Reading ::
      wire == SpellReading(r) && r.Open? == open &&
      (biased ==> open && r.session.restarts != [] && !r.session.restarts[|r.session.restarts| - 1])
  }

  lemma StartReads(wire: seq<WireCommand>)
    requires Reads(wire, false, false)
    ensures Reads(wire + [StartRealtime], true, false)
  {
    var r: Reading :| wire == SpellReading(r) && r.Closed?;
    var q := Open(r.sessions, WireSession([]));
    assert wire + [StartRealtime] == SpellReading(q);
  }

  lemma BiasReads(wire: seq<WireCommand>)
    requires Reads(wire, true, false)
    ensures Reads(wire + [SetSoftwareBias], true, true)
  {
    var r: Reading :| wire == SpellReading(r) && r.Open?;
    var longer := r.session.restarts + [false];
    var q := Open(r.sessions, WireSession(longer));
    assert longer[..|longer| - 1] == r.session.restarts;
    assert wire + [SetSoftwareBias] == SpellReading(q);
  }

  lemma SpellLastBias(before: seq<bool>)
    ensures SpellBiases(before + [false]) == SpellBiases(before) + [SetSoftwareBias]
    ensures SpellBiases(before + [true]) == SpellBiases(before) + [SetSoftwareBias, StartRealtime]
  {
    assert (before + [false])[..|before|] == before && (before + [true])[..|before|] == before;
  }

  lemma RestartSpells(sessions: seq<WireSession>, before: seq<bool>)
    ensures SpellReading(Open(sessions, WireSession(before + [false]))) + [StartRealtime] ==
            SpellReading(Open(sessions, WireSession(before + [true])))
  {
    hide Spell, SpellBiases;
    SpellLastBias(before);
    assert SpellBiases(before) + [SetSoftwareBias] + [StartRealtime] ==
           SpellBiases(before) + [SetSoftwareBias, StartRealtime];
  }

  lemma RestartReads(wire: seq<WireCommand>)
    requires Reads(wire, true, true)
    ensures Reads(wire + [StartRealtime], true, false)
  {
    hide SpellReading;
    var r: Reading :| wire == SpellReading(r) && r.Open? && r.session.restarts != [] &&
                      !r.session.restarts[|r.session.restarts| - 1];
    var before := r.session.restarts[..|r.session.restarts| - 1];
    assert r.session.restarts == before + [false];
    assert r == Open(r.sessions, WireSession(before + [false]));
    RestartSpells(r.sessions, before);
    assert wire + [StartRealtime] == SpellReading(Open(r.sessions, WireSession(before + [true])));
  }

  lemma StopReads(wire: seq<WireCommand>)
    requires Reads(wire, true, false)
    ensures Reads(wire + [StopStreaming], false, false)
  {
    var r: Reading :| wire == SpellReading(r) && r.Open?;
    var all := r.sessions + [r.session];
    assert all[..|all| - 1] == r.sessions;
    assert wire + [StopStreaming] == SpellReading(Closed(all));
  }

  lemma ReadsWeaken(wire: seq<WireCommand>)
    requires Reads(wire, true, true)
    ensures Reads(wire, true, false)
  {
    var r: Reading :| wire == SpellReading(r) && r.Open?;
    assert SpellReading(r) == wire && r.Open?;
  }

  /** Whatever has been read so far is a prefix of a word of the language, and a word when nothing is open. */
  lemma ReadsIsPrefix(wire: seq<WireCommand>, open: bool, biased: bool)
    requires Reads(wire, open, biased)
    ensures !open ==> IsComplete(wire)
    ensures open ==> IsComplete(wire + [StopStreaming])
  {
    var r: Reading :| wire == SpellReading(r) && r.Open? == open;
    if open {
      assert wire == SpellReading(r) && r.Open? == true;
      StopReads(wire);
      var q: Reading :| wire + [StopStreaming] == SpellReading(q) && q.Open? == false;
      assert wire + [StopStreaming] == Spell(q.sessions);
    } else {
      assert wire == Spell(r.sessions);
    }
  }

  // ---------------------------------------------------------------- who may send

  /** Worker places at which a session may be open. */
  predicate MayBeOpen(p: Point) {
    match p
    case Handling(_) => true
    case Opening(q) => q.WorkBeginStream?
    case Leaving(q) => q.WorkFailed? || q.WorkClose? || q.WorkCloseSend? || q.WorkFault? || q.WorkCatch?
    case _ => true
  }

  /** Places that have seen session_started_ under the command mutex they still hold. */
  predicate SawOpen(p: Point) {
    match p
    case Stopping(_, q) => q.StopSend?
    case Calling(q) => q.BiasSend? || q.BiasRestart?
    case Leaving(q) => q.WorkCloseSend?
    case _ => false
  }

  predicate Biased(p: Point) {
    p == Calling(BiasRestart)
  }

  /** stop() past its first statement, up to its decision. */
  predicate IsStopping(p: Point) {
    p.Stopping? && (p.stop.StopCommand? || p.stop.StopSend? || p.stop.StopShutdown?)
  }

  ghost predicate SomeoneBiased(agents: map<Agent, Frame>) {
    exists a :: a in agents && Biased(agents[a].point)
  }

  ghost predicate PlacesKnowSession(stopping: bool, open: bool, agents: map<Agent, Frame>) {
    (forall a | a in agents ::
      (open ==> MayBeOpen(agents[a].point)) &&
      (SawOpen(agents[a].point) ==> open) &&
      (IsStopping(agents[a].point) ==> stopping) &&
      (agents[a].point.Stopping? && agents[a].point.stop.StopShutdown? ==> !open)) &&
    (open ==> !NoWorkers(agents))
  }

  ghost predicate SessionsBracketed(s: State) {
    PlacesKnowSession(s.control.stopping, s.link.sessionStarted, s.agents) &&
    Reads(s.link.wire, s.link.sessionStarted, SomeoneBiased(s.agents))
  }

  // ---------------------------------------------------------------- bodies that send nothing

  predicate Sends(p: Point) {
    match p
    case Stopping(_, q) => q.StopSend?
    case Calling(q) => q.BiasSend? || q.BiasRestart?
    case Opening(q) => q.WorkSendStart?
    case Leaving(q) => q.WorkCloseSend?
    case _ => false
  }

  /** Places at which start() rewrites stopping_. */
  predicate Rearms(p: Point) {
    p.Starting? && (p.start.StartArm? || p.start.UndoAtomics?)
  }

  /** What a new place claims to know about the session is true. */
  ghost predicate Knows(stopping: bool, open: bool, p: Point) {
    (open ==> MayBeOpen(p)) && (SawOpen(p) ==> open) && (IsStopping(p) ==> stopping) &&
    (p.Stopping? && p.stop.StopShutdown? ==> !open)
  }

  ghost predicate Silently(s: State, p: Point, e: Effect) {
    e.state.link.wire == s.link.wire && e.state.link.sessionStarted == s.link.sessionStarted &&
    (s.control.stopping && !Rearms(p) ==> e.state.control.stopping) &&
    (e.next.Some? && Knows(s.control.stopping, s.link.sessionStarted, p) ==>
      Knows(e.state.control.stopping, s.link.sessionStarted, e.next.value)) &&
    (e.next.Some? ==> !Biased(e.next.value))
  }

  lemma StartSilently(s: State, t: Tid, p: StartPoint, env: Env)
    ensures Silently(s, Starting(p), StartBody(s, t, p, env))
  {
    hide ForgetDelivery, ResetForRun, CountRun, ShowFault;
  }

  lemma DecidingSilently(s: State, t: Tid, use: StopUse, p: StopPoint, env: Env)
    requires p.StopDecide?
    requires !p.StopSend?
    ensures Silently(s, Stopping(use, p), StopBody(s, t, use, p, env))
  {
    hide MarkState, IsSelf;
  }

  lemma ReapingSilently(s: State, t: Tid, use: StopUse, p: StopPoint, env: Env)
    requires p.StopIdle? || p.StopReaped? || p.StopReapedState? || p.StopJoin?
    requires !p.StopSend?
    ensures Silently(s, Stopping(use, p), StopBody(s, t, use, p, env))
  {
    hide MarkState, IsSelf;
  }

  lemma RequestingSilently(s: State, t: Tid, use: StopUse, p: StopPoint, env: Env)
    requires p.DestroyEnter? || p.StopEnter? || p.StopCommand? || p.StopSend? || p.StopShutdown? || p.StopAwaitJoin?
    requires !p.StopSend?
    ensures Silently(s, Stopping(use, p), StopBody(s, t, use, p, env))
  {
    hide MarkState, IsSelf;
  }

  lemma StopSilently(s: State, t: Tid, use: StopUse, p: StopPoint, env: Env)
    requires !p.StopSend?
    ensures Silently(s, Stopping(use, p), StopBody(s, t, use, p, env))
  {
    hide StopBody;
    if p.StopDecide? {
      DecidingSilently(s, t, use, p, env);
    } else if p.StopIdle? || p.StopReaped? || p.StopReapedState? || p.StopJoin? {
      ReapingSilently(s, t, use, p, env);
    } else {
      RequestingSilently(s, t, use, p, env);
    }
  }

  lemma CallSilently(s: State, p: CallPoint, env: Env)
    requires !p.BiasSend? && !p.BiasRestart?
    ensures Silently(s, Calling(p), CallBody(s, p, env))
  {
    hide PruneWindows, Snapshot, ResetAfterBias;
  }

  lemma SessionSilently(s: State, p: SessionPoint, env: Env)
    requires !p.WorkSendStart?
    ensures Silently(s, Opening(p), SessionBody(s, p, env))
  {
    hide ApplyConfiguration, BeginStream, MarkState;
  }

  lemma RecordSilently(s: State, run: nat, p: RecordPoint, env: Env)
    ensures Silently(s, Handling(p), RecordBody(s, run, p, env))
  {
    hide RecordBody;
    RecordStepsOn(s, run, p, env);
  }

  lemma ClosingSilently(s: State, p: ClosingPoint, env: Env)
    requires !p.WorkCloseSend?
    ensures Silently(s, Leaving(p), ClosingBody(s, p, env))
  {
    hide ShowFault, EnterBackoff, MarkState, FaultFor, MessageFor;
  }

  lemma BodySilently(s: State, a: Agent, f: Frame, env: Env)
    requires !Sends(f.point)
    ensures Silently(s, f.point, Body(s, a, f, env))
  {
    match f.point
    case Starting(p) => StartSilently(s, a.tid, p, env);
    case Stopping(use, p) => StopSilently(s, a.tid, use, p, env);
    case Calling(p) => CallSilently(s, p, env);
    case Opening(p) => SessionSilently(s, p, env);
    case Handling(p) => RecordSilently(s, f.run, p, env);
    case Leaving(p) => ClosingSilently(s, p, env);
  }

  // ---------------------------------------------------------------- every step keeps the brackets

  ghost predicate SessionOk(s: State) {
    WorkersAgree(s) && SessionsBracketed(s)
  }

  predicate UnderCommand(p: Point) {
    SawOpen(p) || Biased(p) || (p.Stopping? && p.stop.StopShutdown?)
  }

  lemma UnderCommandHolds(f: Frame)
    requires UnderCommand(f.point)
    ensures Holding(f, Command)
  {
  }

  lemma CommandIsExclusive(s: State, a: Agent)
    requires WellLocked(s) && Holds(s.agents, a, Command)
    ensures forall b | b in s.agents && b != a :: !UnderCommand(s.agents[b].point)
  {
    hide SawOpen, Biased, UnderCommand, Point.Keeps, Point.Guard;
    forall b | b in s.agents && b != a ensures !UnderCommand(s.agents[b].point) {
      if UnderCommand(s.agents[b].point) {
        UnderCommandHolds(s.agents[b]);
        MutualExclusion(s, a, b, Command);
      }
    }
  }

  lemma StoppersHoldLifecycle(f: Frame)
    requires IsStopping(f.point)
    ensures Holding(f, Lifecycle)
  {
  }

  lemma RearmingHoldsLifecycle(f: Frame)
    requires Rearms(f.point)
    ensures Holding(f, Lifecycle)
  {
  }

  lemma RearmingIsExclusive(s: State, a: Agent)
    requires WellLocked(s) && a in s.agents && Rearms(s.agents[a].point)
    ensures forall b | b in s.agents && b != a :: !IsStopping(s.agents[b].point)
  {
    hide IsStopping, Point.Keeps, Point.Guard;
    RearmingHoldsLifecycle(s.agents[a]);
    assert Holds(s.agents, a, Lifecycle);
    forall b | b in s.agents && b != a ensures !IsStopping(s.agents[b].point) {
      if IsStopping(s.agents[b].point) {
        StoppersHoldLifecycle(s.agents[b]);
        MutualExclusion(s, a, b, Lifecycle);
      }
    }
  }

  /** A thread made or reaped by this step has nothing to do with an open session. */
  lemma ThreadsKnow(s: State, a: Agent, env: Env)
    requires SessionOk(s) && Enabled(s, Run(a, env))
    ensures var moved := Threads(s, s.agents[a].point, env);
            (forall b | b in moved && b !in s.agents ::
               Knows(false, s.link.sessionStarted, moved[b].point) && !Biased(moved[b].point)) &&
            (forall b | b in s.agents && b !in moved :: !Biased(s.agents[b].point)) &&
            (s.link.sessionStarted ==> exists w: Tid :: Worker(w) in s.agents && Worker(w) in moved)
  {
    hide Reads, StartBody, StopBody, CallBody, SessionBody, RecordBody, ClosingBody, LocksAgree, Announced;
    var p := s.agents[a].point;
    if s.link.sessionStarted {
      var w: Tid :| Worker(w) in s.agents;
      assert MayBeOpen(s.agents[Worker(w)].point);
      if p.Starting? && p.start.StartCreate? {
        assert RoleHolds(s.control, s.agents, a.tid, RoleOf(p));
      }
      assert Worker(w) in Threads(s, p, env);
    }
  }

  lemma SilentKeeps(s: State, a: Agent, env: Env)
    requires SessionOk(s) && Enabled(s, Run(a, env)) && !Sends(s.agents[a].point)
    ensures SessionsBracketed(Apply(s, Run(a, env)))
  {
    hide Body, MayBeOpen, SawOpen, IsStopping, Biased, Rearms, Sends, Threads, Point.Keeps, Point.Guard, Reads;
    hide OneWorker, Announced, LocksAgree;
    var t := Apply(s, Run(a, env));
    var p := s.agents[a].point;
    BodySilently(s, a, s.agents[a], env);
    BodyThreads(s, a, s.agents[a], env);
    BodyShape(s, a, s.agents[a], env);
    ThreadsKnow(s, a, env);
    ThreadsComeAndGoIdle(s, p, a, env);
    if Rearms(p) {
      RearmingIsExclusive(s, a);
    }
    NotBiasedUnlessSending(p);
    assert Knows(s.control.stopping, s.link.sessionStarted, p);
    forall b | b in t.agents ensures Knows(t.control.stopping, t.link.sessionStarted, t.agents[b].point) {
      if b != a && b in s.agents {
        assert Knows(s.control.stopping, s.link.sessionStarted, s.agents[b].point);
      }
    }
    if s.link.sessionStarted {
      var w: Tid :| Worker(w) in s.agents && Worker(w) in Threads(s, p, env);
      assert Worker(w) in t.agents by {
        if a == Worker(w) {
          assert p.IsWorkers();
        }
      }
    }
    BiasedTogether(s, t, a);
  }

  lemma NotBiasedUnlessSending(p: Point)
    requires !Sends(p)
    ensures !Biased(p)
  {
  }

  lemma BiasedTogether(s: State, t: State, a: Agent)
    requires a in s.agents && !Biased(s.agents[a].point) && (a in t.agents ==> !Biased(t.agents[a].point))
    requires forall b | b in t.agents && b !in s.agents :: !Biased(t.agents[b].point)
    requires forall b | b in s.agents && b !in t.agents && b != a :: !Biased(s.agents[b].point)
    requires forall b | b in s.agents && b in t.agents && b != a :: t.agents[b] == s.agents[b]
    ensures SomeoneBiased(s.agents) == SomeoneBiased(t.agents)
  {
    hide Biased;
  }

  /** A sender holds the command mutex; what it learns holds for everybody else. */
  lemma SendersAreAlone(s: State, a: Agent, env: Env)
    requires SessionOk(s) && Enabled(s, Run(a, env)) && Sends(s.agents[a].point)
    ensures forall b | b in s.agents && b != a :: !UnderCommand(s.agents[b].point)
    ensures Threads(s, s.agents[a].point, env) == s.agents
    ensures SomeoneBiased(s.agents) == Biased(s.agents[a].point)
    ensures forall b | b in s.agents && b != a && b.Worker? && a.Worker? :: false
  {
    assert Holds(s.agents, a, Command);
    CommandIsExclusive(s, a);
    if a.Worker? {
      forall w: Tid | Worker(w) in s.agents ensures w == a.tid {
        assert s.control.active == Some(w) && s.control.active == Some(a.tid);
      }
    }
  }

  lemma StopsSendKeeps(s: State, a: Agent, env: Env)
    requires SessionOk(s) && Enabled(s, Run(a, env))
    requires match s.agents[a].point
             case Stopping(_, p) => p.StopSend?
             case Leaving(p) => p.WorkCloseSend?
             case _ => false
    ensures SessionsBracketed(Apply(s, Run(a, env)))
  {
    hide Reads, OneWorker, Announced, StartBody, CallBody, SessionBody, RecordBody;
    var t := Apply(s, Run(a, env));
    SendersAreAlone(s, a, env);
    StopReads(s.link.wire);
    assert a in t.agents && !Biased(t.agents[a].point);
    assert !SomeoneBiased(t.agents);
  }

  lemma BiasesSendKeeps(s: State, a: Agent, env: Env)
    requires SessionOk(s) && Enabled(s, Run(a, env))
    requires match s.agents[a].point
             case Calling(p) => p.BiasSend? || p.BiasRestart?
             case _ => false
    ensures SessionsBracketed(Apply(s, Run(a, env)))
  {
    hide Reads, ResetAfterBias, OneWorker, Announced, StartBody, StopBody, SessionBody, RecordBody, ClosingBody;
    var t := Apply(s, Run(a, env));
    SendersAreAlone(s, a, env);
    var w: Tid :| Worker(w) in s.agents;
    assert Worker(w) in t.agents;
    if s.agents[a].point.call.BiasSend? {
      BiasReads(s.link.wire);
      if a in t.agents {
        assert Biased(t.agents[a].point);
        assert SomeoneBiased(t.agents);
      } else {
        assert !SomeoneBiased(t.agents);
      }
    } else {
      RestartReads(s.link.wire);
      ReadsWeaken(s.link.wire);
      assert !SomeoneBiased(t.agents);
    }
  }

  lemma StartSendKeeps(s: State, a: Agent, env: Env)
    requires SessionOk(s) && Enabled(s, Run(a, env)) && s.agents[a].point == Opening(WorkSendStart)
    ensures SessionsBracketed(Apply(s, Run(a, env)))
  {
    hide Reads, OneWorker, Announced, StartBody, StopBody, CallBody, RecordBody, ClosingBody;
    var t := Apply(s, Run(a, env));
    SendersAreAlone(s, a, env);
    assert !s.link.sessionStarted;
    StartReads(s.link.wire);
    assert a in t.agents && !Biased(t.agents[a].point);
    assert !SomeoneBiased(t.agents);
  }

  lemma StepKeepsSessions(s: State, action: Action)
    requires SessionOk(s) && Enabled(s, action)
    ensures SessionOk(Apply(s, action))
  {
    hide Body, MayBeOpen, SawOpen, IsStopping, Biased, Reads, WorkersAgree;
    var t := Apply(s, action);
    StepKeepsWorkers(s, action);
    match action
    case Begin(u, op) => BeginKnows(s, u, op);
    case Acquire(a) => AcquireKnows(s, a);
    case Run(a, env) =>
      if !Sends(s.agents[a].point) {
        SilentKeeps(s, a, env);
      } else {
        match s.agents[a].point
        case Stopping(_, _) => StopsSendKeeps(s, a, env);
        case Calling(_) => BiasesSendKeeps(s, a, env);
        case Opening(_) => StartSendKeeps(s, a, env);
        case Leaving(_) => StopsSendKeeps(s, a, env);
      }
    case Tick(_) =>
  }

  lemma EntryKnows(op: Op, stopping: bool, open: bool)
    ensures Knows(stopping, open, EntryPoint(op)) && !Biased(EntryPoint(op))
  {
  }

  lemma BeginKnows(s: State, u: Tid, op: Op)
    requires SessionOk(s) && Enabled(s, Begin(u, op))
    ensures SessionsBracketed(Apply(s, Begin(u, op)))
  {
    hide Reads, WorkersAgree, MayBeOpen, SawOpen, IsStopping, Biased, Body, Settle, EntryPoint;
    var t := Apply(s, Begin(u, op));
    EntryKnows(op, s.control.stopping, s.link.sessionStarted);
    if a :| a in s.agents && Biased(s.agents[a].point) {
      assert a in t.agents && Biased(t.agents[a].point);
    }
    if s.link.sessionStarted {
      var w: Tid :| Worker(w) in s.agents;
      assert Worker(w) in t.agents;
    }
  }

  lemma AcquireKnows(s: State, a: Agent)
    requires SessionOk(s) && Enabled(s, Acquire(a))
    ensures SessionsBracketed(Apply(s, Acquire(a)))
  {
    hide Reads, MayBeOpen, SawOpen, IsStopping, Biased, WorkersAgree, Point.Keeps, Point.Guard, Body, Settle;
    var t := Apply(s, Acquire(a));
    if b :| b in s.agents && Biased(s.agents[b].point) {
      assert b in t.agents && Biased(t.agents[b].point);
    }
    if b :| b in t.agents && Biased(t.agents[b].point) {
      assert b in s.agents && Biased(s.agents[b].point);
    }
    if s.link.sessionStarted {
      var w: Tid :| Worker(w) in s.agents;
      assert Worker(w) in t.agents;
    }
  }

  // ---------------------------------------------------------------- what it means

  /** The wire log is a prefix of a word of (Start (Bias Start?)* Stop)*, and a word when no session is open. */
  lemma WireIsBracketed(s: State)
    requires SessionOk(s)
    ensures if s.link.sessionStarted then IsComplete(s.link.wire + [StopStreaming]) else IsComplete(s.link.wire)
  {
    hide Reads;
    if s.link.sessionStarted && SomeoneBiased(s.agents) {
      ReadsWeaken(s.link.wire);
    }
    ReadsIsPrefix(s.link.wire, s.link.sessionStarted, false);
  }

  /** When a worker has exited, every session it opened is closed on the wire. */
  lemma WireIsCompleteAfterExit(s: State, w: Tid)
    requires SessionOk(s) && Worker(w) in s.agents && HasExited(s.agents[Worker(w)].point)
    ensures IsComplete(s.link.wire)
  {
    hide Reads, Spell;
    WireIsBracketed(s);
  }
}
