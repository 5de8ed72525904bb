/** A start() whose thread creation fails leaves the client as it found it. */
module ProtocolRollback {
  import opened Types
  import opened RateWindow
  import opened Pipeline
  import opened PipelineInvariants
  import opened Protocol
  import opened ProtocolRecords

  /** Only old receipts have left the windows in the meantime. */
  ghost predicate PrunedFrom(a: Pipeline, b: Pipeline, clock: real) {
    b == a.(receiveTimes := b.receiveTimes, deliveryTimes := b.deliveryTimes) &&
    DroppedOld(a.receiveTimes, b.receiveTimes, clock) &&
    DroppedOld(a.deliveryTimes, b.deliveryTimes, clock)
  }

  lemma PrunedFromItself(a: Pipeline, clock: real)
    ensures PrunedFrom(a, a, clock)
  {
  }

  lemma PruningPrunes(a: Pipeline, b: Pipeline, clock: real)
    requires PrunedFrom(a, b, clock)
    ensures PrunedFrom(a, PruneWindows(b, clock), clock)
  {
    PruneDropsOld(b.receiveTimes, clock, clock);
    PruneDropsOld(b.deliveryTimes, clock, clock);
    DroppedOldComposes(a.receiveTimes, b.receiveTimes, Prune(b.receiveTimes, clock), clock, clock);
    DroppedOldComposes(a.deliveryTimes, b.deliveryTimes, Prune(b.deliveryTimes, clock), clock, clock);
  }

  lemma PrunedIsSound(config: Config, a: Pipeline, b: Pipeline, clock: real)
    requires Sound(config, a, clock) && PrunedFrom(a, b, clock)
    ensures Sound(config, b, clock)
  {
    WindowsAreApart(config, a, b, clock);
  }

  /** What start() knows about the state it entered the creation branch with. */
  ghost predicate EntryKept(s: State, saved: Saved) {
    var entry := saved.entry;
    saved.stopping == entry.stopping && saved.exited == entry.exited && saved.latch == entry.latch &&
    saved.callback == entry.callback &&
    Sound(s.config, entry.pipe, s.clock) && entry.pipe.history.inFlight.None? &&
    FaultOnShow(entry.latch, entry.published, entry.pipe.health) &&
    (entry.latch == NoFault ==> entry.published.None?) &&
    s.control.published == entry.published
  }

  ghost predicate AtomicsAsEntered(s: State, entry: Entry) {
    s.control.stopping == entry.stopping && s.control.exited == entry.exited
  }

  ghost predicate CopyTaken(s: State, saved: Saved) {
    saved.lastDeliveryAt == saved.entry.pipe.lastDeliveryAt &&
    PrunedFrom(ForgetDelivery(saved.entry.pipe), saved.pipe, s.clock)
  }

  /** What start() may rely on at each place of the creation branch. */
  ghost predicate CreatorPlace(s: State, p: StartPoint) {
    match p
    case StartRecord(_, saved) =>
      EntryKept(s, saved) && AtomicsAsEntered(s, saved.entry) && s.control.latch == saved.entry.latch &&
      PrunedFrom(saved.entry.pipe, s.pipe, s.clock)
    case StartReset(_, saved) =>
      EntryKept(s, saved) && AtomicsAsEntered(s, saved.entry) && s.control.latch == saved.entry.latch &&
      saved.lastDeliveryAt == saved.entry.pipe.lastDeliveryAt &&
      PrunedFrom(ForgetDelivery(saved.entry.pipe), s.pipe, s.clock)
    case StartArm(_, saved) =>
      EntryKept(s, saved) && CopyTaken(s, saved) && AtomicsAsEntered(s, saved.entry) &&
      s.control.latch == NoFault && s.pipe == ResetForRun(saved.pipe)
    case StartCreate(callback, saved) =>
      EntryKept(s, saved) && CopyTaken(s, saved) && s.control.latch == NoFault &&
      s.pipe == ResetForRun(saved.pipe) && !s.control.stopping && !s.control.exited && s.control.callback == callback
    case UndoAtomics(saved) =>
      EntryKept(s, saved) && CopyTaken(s, saved) && s.control.latch == NoFault && s.pipe == ResetForRun(saved.pipe)
    case UndoRecord(saved) =>
      EntryKept(s, saved) && CopyTaken(s, saved) && AtomicsAsEntered(s, saved.entry) &&
      s.control.callback == saved.entry.callback && s.control.latch == NoFault && s.pipe == ResetForRun(saved.pipe)
    case UndoData(saved) =>
      EntryKept(s, saved) && CopyTaken(s, saved) && AtomicsAsEntered(s, saved.entry) &&
      s.control.callback == saved.entry.callback && s.control.latch == NoFault &&
      s.pipe == ResetForRun(saved.pipe).(lastDeliveryAt := saved.entry.pipe.lastDeliveryAt)
    case UndoLatch(saved) => RolledBack(s, saved)
    case UndoFault(saved) => RolledBack(s, saved) && saved.latch != NoFault
    case _ => true
  }

  /** Everything is back but the latch: for a moment the snapshot may say Faulted while the latch says None. */
  ghost predicate RolledBack(s: State, saved: Saved) {
    EntryKept(s, saved) && CopyTaken(s, saved) && AtomicsAsEntered(s, saved.entry) &&
    s.control.callback == saved.entry.callback && s.control.latch == NoFault &&
    PrunedFrom(saved.entry.pipe, s.pipe, s.clock)
  }

  /** The client is as it was on entry: only receipts older than a second may have left the rate windows. */
  ghost predicate AsEntered(s: State, entry: Entry) {
    s.control.latch == entry.latch && s.control.callback == entry.callback &&
    AtomicsAsEntered(s, entry) && s.control.published == entry.published &&
    PrunedFrom(entry.pipe, s.pipe, s.clock)
  }

  // ---------------------------------------------------------------- the places follow one another

  predicate InCreation(p: StartPoint) {
    !p.StartEnter? && !p.StartAwaitJoin? && !p.StartAwaitExit? && !p.StartJoin? && !p.StartReaped?
  }

  ghost predicate CreatorKeeps(s: State, e: Effect) {
    Healthy(e.state) && e.state.pipe.history.inFlight.None? &&
    (e.next.Some? ==> e.next.value.Starting? && CreatorPlace(e.state, e.next.value.start))
  }

  lemma ForwardKeeps(s: State, t: Tid, p: StartPoint, env: Env)
    requires p.StartRecord? || p.StartReset? || p.StartArm? || (p.StartCreate? && !env.ok)
    requires Healthy(s) && s.pipe.history.inFlight.None? && CreatorPlace(s, p)
    ensures CreatorKeeps(s, StartBody(s, t, p, env))
  {
    hide Sound;
    match p
    case StartRecord(_, _) => ResetForRunKeeps(s.config, s.pipe, s.clock);
    case StartReset(_, saved) =>
      ForgottenResets(s.pipe, saved.entry.pipe, s.clock);
      ResetForRunKeeps(s.config, s.pipe, s.clock);
    case StartArm(_, _) =>
    case StartCreate(_, _) =>
  }

  lemma ForgottenResets(p: Pipeline, entry: Pipeline, clock: real)
    requires PrunedFrom(ForgetDelivery(entry), p, clock)
    ensures ForgetDelivery(p) == p
  {
  }

  lemma UndoKeeps(s: State, t: Tid, p: StartPoint, env: Env)
    requires p.UndoAtomics? || p.UndoRecord? || p.UndoData?
    requires Healthy(s) && s.pipe.history.inFlight.None? && CreatorPlace(s, p)
    ensures CreatorKeeps(s, StartBody(s, t, p, env))
  {
    hide Sound;
    match p
    case UndoAtomics(_) =>
    case UndoRecord(saved) => LastDeliveryIsApart(s.config, s.pipe, saved.lastDeliveryAt, s.clock);
    case UndoData(saved) =>
      var q := StartBody(s, t, p, env).state.pipe;
      assert PrunedFrom(saved.entry.pipe, q, s.clock);
      PrunedIsSound(s.config, saved.entry.pipe, q, s.clock);
  }

  /** Failed start is a no-op: the last step of a roll-back leaves the client as start() found it. */
  lemma FailedStartChangesNothing(s: State, t: Tid, p: StartPoint, env: Env)
    requires p.UndoLatch? || p.UndoFault?
    requires Healthy(s) && s.pipe.history.inFlight.None? && CreatorPlace(s, p)
    ensures var e := StartBody(s, t, p, env);
            CreatorKeeps(s, e) && (e.next.None? ==> AsEntered(e.state, p.saved.entry))
  {
    hide Sound;
    match p
    case UndoLatch(_) =>
    case UndoFault(saved) =>
      var fault := Fault(saved.latch, saved.pipe.health.lastError);
      assert ShowFault(s.pipe, fault) == s.pipe;
  }

  /** Rates shown after the roll-back are those the client would have shown without the failed start. */
  lemma RolledBackRates(s: State, entry: Entry, now: real)
    requires AsEntered(s, entry) && s.clock <= now
    requires Sorted(entry.pipe.receiveTimes) && Sorted(entry.pipe.deliveryTimes)
    ensures Snapshot(PruneWindows(s.pipe, now), s.control.latch, now) ==
            Snapshot(PruneWindows(entry.pipe, now), entry.latch, now)
  {
    var a, b := entry.pipe, s.pipe;
    DroppedOldSameRate(a.receiveTimes, b.receiveTimes, s.clock, now);
    DroppedOldSameRate(a.deliveryTimes, b.deliveryTimes, s.clock, now);
    PruneIsRecent(a.receiveTimes, now);
    PruneIsRecent(b.receiveTimes, now);
    PruneIsRecent(a.deliveryTimes, now);
    PruneIsRecent(b.deliveryTimes, now);
  }
}
