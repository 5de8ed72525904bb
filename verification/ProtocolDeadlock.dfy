/** Who waits for whom, over mutexes, joins and awaited conditions; and why that never closes a cycle. */
module ProtocolDeadlock {
  import opened Types
  import opened Protocol
  import opened ProtocolLocks
  import opened ProtocolWorkers

  predicate AwaitsJoin(p: Point) {
    match p
    case Starting(q) => q.StartAwaitJoin?
    case Stopping(_, q) => q.StopAwaitJoin?
    case _ => false
  }

  predicate AwaitsExit(p: Point) {
    p.Starting? && p.start.StartAwaitExit?
  }

  function JoinTarget(p: Point): Option<Tid> {
    match p
    case Starting(StartJoin(_, w)) => Some(w)
    case Stopping(_, StopJoin(w)) => Some(w)
    case _ => None
  }

  /** a cannot move on until b does something. */
  ghost predicate WaitsFor(s: State, a: Agent, b: Agent) {
    a in s.agents && b in s.agents &&
    var f, c := s.agents[a], s.control;
    if f.waiting then
      (f.point.Guard().Some? && f.point.Guard().value in s.locks && s.locks[f.point.Guard().value] == b) ||
      (AwaitsJoin(f.point) && c.joining && c.joiner.Some? && b == Caller(c.joiner.value)) ||
      (AwaitsExit(f.point) && !c.exited && c.latch != NoFault && b.Worker?)
    else
      (JoinTarget(f.point).Some? && b == Worker(JoinTarget(f.point).value) && s.agents[b].point != Leaving(WorkDone)) ||
      (a.Worker? && InCallback(f.point) && b == Caller(a.tid))
  }

  function Rank(c: Control, f: Frame): nat {
    if f.waiting then
      if AwaitsJoin(f.point) && c.joining then 9
      else if AwaitsExit(f.point) && !c.exited && c.latch != NoFault then 8
      else if f.point.Guard().Some? then 6 - Order(f.point.Guard().value)
      else 0
    else if JoinTarget(f.point).Some? then 8
    else if InCallback(f.point) then 7
    else 0
  }

  /** Whoever holds a mutex is running, or waits for one further up the order. */
  lemma HoldersRankBelow(c: Control, f: Frame, l: Lock)
    requires Holding(f, l)
    ensures Rank(c, f) < 6 - Order(l)
  {
  }

  lemma WorkersRankBelow(c: Control, p: Point, waiting: bool, run: nat)
    requires p.IsWorkers()
    ensures Rank(c, Frame(p, waiting, run)) <= 7
  {
  }

  lemma JoinersRankBelow(c: Control, f: Frame)
    requires RoleOf(f.point).Joining? || RoleOf(f.point).Reaping?
    ensures Rank(c, f) <= 8
  {
  }

  lemma InsidersRankBelow(c: Control, agents: map<Agent, Frame>, t: Tid, f: Frame)
    requires RoleHolds(c, agents, t, RoleOf(f.point)) && Worker(t) in agents && !f.point.IsWorkers()
    ensures Rank(c, f) <= 6
  {
  }

  /** Every wait goes down in rank. */
  lemma WaitsGoDown(s: State, a: Agent, b: Agent)
    requires WorkersAgree(s) && WaitsFor(s, a, b)
    ensures a in s.agents && b in s.agents
    ensures Rank(s.control, s.agents[b]) < Rank(s.control, s.agents[a])
    ensures s.agents[b].point != Leaving(WorkDone)
  {
    hide RoleOf, HasExited, SavedExited;
    var f, g, c := s.agents[a], s.agents[b], s.control;
    if f.waiting && f.point.Guard().value in s.locks && s.locks[f.point.Guard().value] == b {
      assert Holds(s.agents, b, f.point.Guard().value);
      HoldersRankBelow(c, g, f.point.Guard().value);
    } else if f.waiting && AwaitsJoin(f.point) && c.joining && b == Caller(c.joiner.value) {
      JoinersRankBelow(c, g);
    } else if f.waiting {
      WorkersRankBelow(c, g.point, g.waiting, g.run);
      ExitedWhenDone(s, b.tid);
    } else if JoinTarget(f.point).Some? && b == Worker(JoinTarget(f.point).value) && g.point != Leaving(WorkDone) {
      WorkersRankBelow(c, g.point, g.waiting, g.run);
    } else {
      assert RoleHolds(c, s.agents, a.tid, RoleOf(g.point));
      InsidersRankBelow(c, s.agents, a.tid, g);
    }
  }

  lemma ExitedWhenDone(s: State, w: Tid)
    requires WorkersAgree(s) && Worker(w) in s.agents && !s.control.exited
    ensures s.agents[Worker(w)].point != Leaving(WorkDone)
  {
  }

  /** No cycle: following waits from a thread never leads back to it. */
  ghost predicate WaitChain(s: State, chain: seq<Agent>) {
    forall i | 1 <= i < |chain| :: WaitsFor(s, chain[i - 1], chain[i])
  }

  lemma {:induction false} ChainGoesDown(s: State, chain: seq<Agent>)
    requires WorkersAgree(s) && WaitChain(s, chain) && |chain| >= 2
    ensures chain[0] in s.agents && chain[|chain| - 1] in s.agents
    ensures Rank(s.control, s.agents[chain[|chain| - 1]]) < Rank(s.control, s.agents[chain[0]])
  {
    hide WorkersAgree, WaitsFor, Rank;
    WaitsGoDown(s, chain[|chain| - 2], chain[|chain| - 1]);
    if |chain| > 2 {
      ChainGoesDown(s, chain[..|chain| - 1]);
    }
  }

  lemma NoDeadlock(s: State, chain: seq<Agent>)
    requires WorkersAgree(s) && WaitChain(s, chain) && |chain| >= 2
    ensures chain[0] != chain[|chain| - 1]
  {
    ChainGoesDown(s, chain);
  }

  /** Nothing in the client stands in this thread's way. */
  ghost predicate Unblocked(s: State, a: Agent) {
    a in s.agents && s.agents[a].point != Leaving(WorkDone) && forall b :: !WaitsFor(s, a, b)
  }

  lemma UnblockedCanStep(s: State, a: Agent)
    requires WorkersAgree(s) && Unblocked(s, a)
    ensures Enabled(s, Acquire(a)) || exists env :: Enabled(s, Run(a, env))
  {
    var f := s.agents[a];
    if f.waiting {
      var l := f.point.Guard().value;
      if l in s.locks {
        assert Holds(s.agents, s.locks[l], l);
        assert WaitsFor(s, a, s.locks[l]);
      }
      assert Enabled(s, Acquire(a));
    } else {
      var env := Env(false, false, false, 0, "", "", Calibration(1.0, 1.0, Newton, NewtonMeter), Nothing);
      if JoinTarget(f.point).Some? {
        assert !WaitsFor(s, a, Worker(JoinTarget(f.point).value));
      }
      if InCallback(f.point) {
        assert !WaitsFor(s, a, Caller(a.tid));
      }
      assert Enabled(s, Run(a, env));
    }
  }

  /** While any thread is still to finish, some thread can move. */
  lemma {:induction false} SomeoneCanMove(s: State, a: Agent) returns (b: Agent)
    requires WorkersAgree(s) && a in s.agents && s.agents[a].point != Leaving(WorkDone)
    ensures Unblocked(s, b)
    ensures Enabled(s, Acquire(b)) || exists env :: Enabled(s, Run(b, env))
    decreases Rank(s.control, s.agents[a])
  {
    if c :| WaitsFor(s, a, c) {
      WaitsGoDown(s, a, c);
      b := SomeoneCanMove(s, c);
    } else {
      b := a;
      UnblockedCanStep(s, a);
    }
  }
}
