/**
 What each edge of the runtime answers, situation by situation.  The situations
 are told in the fields of record, assignment, goal and clock, the answers as
 the state the Session is left in once the edge has run to its end.
 */
module ApiRecoveryAnswers {
  import opened Wrappers
  import opened ApiRecoveryRecords
  import opened ApiRecoveryMachine
  import opened ApiRecoveryInvariants
  import opened ApiRecoverySafety
  import opened ApiRecoveryFallback

  // ---- Situations ---------------------------------------------------------------

  /** The live assignment is the record's, at continuation `c`. */
  predicate Assigned(w: World, record: Record, c: Continuation) {
    w.assignment == Some(record.base.assignment.(continuation := c))
  }

  function GoalRef(goal: Goal): Continuation { GoalContinuation(goal.id, goal.revision, goal.objectiveHash) }

  /** Assignment and, for a goal, the live goal are exactly at `c`, and the goal waits to be resumed. */
  predicate OnTarget(w: World, record: Record, c: Continuation) {
    Assigned(w, record, c) && (c.GoalContinuation? ==> w.goal.phase.Active? && !w.goal.armed && GoalRef(w.goal) == c)
  }

  /** A goal has a round left, a review its route. */
  predicate Room(w: World, c: Continuation) {
    if c.GoalContinuation? then w.goal.roundsStarted < w.goal.maxRounds else w.reviewRoute
  }

  /** The goal runs armed at `c`, and the assignment is the record's, before or after that resume. */
  predicate Adoptable(w: World, record: Record, c: Continuation) {
    && w.goal.phase.Active? && w.goal.armed && GoalRef(w.goal) == c
    && (Assigned(w, record, record.base.assignment.continuation) || Assigned(w, record, c))
  }

  /** The goal was already resumed for this record, and its recovering record is missing. */
  predicate Landed(w: World, record: Record) {
    var own := record.base.assignment.continuation;
    own.GoalContinuation? && Adoptable(w, record, own.(revision := own.revision + 1))
  }

  /** The runtime is started, no continuation is in flight, the agent idles and no write is under way. */
  predicate Free(s: State) {
    s.started && !s.inFlight && s.host.queue == [] && s.host.world.agent.Some? && s.host.world.status.Idle?
  }

  /** Numbers a durable record can hold. */
  predicate InRange(w: World) { w.now <= MAX_SAFE_INTEGER && w.goal.revision < MAX_SAFE_INTEGER }

  /** A fired timer is forgotten, a start has started; nothing else happens before the record is looked at. */
  function Looked(s: State, a: Action): State {
    match a
    case DoTimer => s.(timer := None)
    case DoStart => s.(started := true)
    case _ => s
  }

  /** The idle edge, or an adapter update that meets no operator record, from the live agent. */
  predicate IdleEdge(s: State, a: Action) {
    && s.pending.None? && s.host.world.agent.Some?
    && ((a.DoAgentReady? && s.host.world.agent == Some(a.caller))
        || (a.DoAdapterEdge? && s.host.world.agent == Some(a.caller)))
  }

  /** The edges that look at a stored scheduled record: its own timer, and the idle edges. */
  predicate ScheduledEdge(s: State, a: Action) {
    && s.host.store.Some? && s.host.store.value.Scheduled?
    && ((a.DoTimer? && s.timer == s.host.store) || IdleEdge(s, a))
  }

  // ---- From the claim to the end ----------------------------------------------------

  /** Maintenance, write and checkpoint of an adopted continuation. */
  function AdoptRun(id: nat): seq<Action> {
    [DoEnter(id, ResumeOk)] + ([DoStoreOp(true)] + ([DoContinue(id + 1)] + ([DoFlush(id + 2, true)] + [])))
  }

  /** The recovering record names the goal as it is; nothing was resumed. */
  function AdoptedOn(s: State, record: Record): State
    requires Acting(record)
  {
    var h, w := s.host, s.host.world;
    s.(host := h.(store := Some(ContinuedRecord(record, GoalRef(w.goal), w.now)), nextId := h.nextId + 3,
                  effectsSaved := |h.effects|, world := w.(saved := |w.log|, goalSaved := w.goal)))
  }

  lemma ClaimIsAdopted(s: State, record: Record, expected: Continuation)
    requires Inv(s) && Free(s) && InRange(s.host.world) && s.host.store == Some(record) && record.Scheduled?
    requires Landed(s.host.world, record)
    ensures Reaches(Claimed(s, record, expected, Some(GoalRef(s.host.world.goal))), AdoptRun(s.host.nextId),
                    AdoptedOn(s, record))
  {
    MoveAdopts(s, record, expected);
    AdoptionSettles(s, record);
    FreeHasAgent(s);
    hide *;
    var id, next := s.host.nextId, ContinuedRecord(record, GoalRef(s.host.world.goal), s.host.world.now);
    Prepend(Claimed(s, record, expected, Some(GoalRef(s.host.world.goal))), DoEnter(id, ResumeOk),
            EnqueuePut(InMaintenance(s), next, Writing(next)),
            [DoStoreOp(true)] + ([DoContinue(id + 1)] + ([DoFlush(id + 2, true)] + [])), AdoptedOn(s, record));
    AdoptRunParts(id);
  }

  lemma FreeHasAgent(s: State)
    requires Free(s)
    ensures s.host.world.agent.Some?
  {
  }

  lemma MoveAdopts(s: State, record: Record, expected: Continuation)
    requires Inv(s) && Free(s) && InRange(s.host.world) && s.host.store == Some(record) && record.Scheduled?
    requires Landed(s.host.world, record)
    ensures var next := ContinuedRecord(record, GoalRef(s.host.world.goal), s.host.world.now);
            Moves(Claimed(s, record, expected, Some(GoalRef(s.host.world.goal))), DoEnter(s.host.nextId, ResumeOk),
                  EnqueuePut(InMaintenance(s), next, Writing(next)))
  {
    AdoptFits(s, record);
    hide Inv, Accepts, EnqueuePut;
    EnterAdopts(s, record, expected);
    hide EnterMaintenance, Landed;
    MoveEnter(Claimed(s, record, expected, Some(GoalRef(s.host.world.goal))), s.host.nextId);
  }

  lemma AdoptRunParts(id: nat)
    ensures AdoptRun(id) == [DoEnter(id, ResumeOk)]
                            + ([DoStoreOp(true)] + ([DoContinue(id + 1)] + ([DoFlush(id + 2, true)] + [])))
  {
  }

  lemma AdoptionSettles(s: State, record: Record)
    requires Inv(s) && Free(s) && InRange(s.host.world) && s.host.store == Some(record) && record.Scheduled?
    requires Landed(s.host.world, record)
    ensures var id, next := s.host.nextId, ContinuedRecord(record, GoalRef(s.host.world.goal), s.host.world.now);
            Reaches(EnqueuePut(InMaintenance(s), next, Writing(next)),
                    [DoStoreOp(true)] + ([DoContinue(id + 1)] + ([DoFlush(id + 2, true)] + [])), AdoptedOn(s, record))
  {
    AdoptFits(s, record);
    hide Inv, Reaches, Accepts, EnqueuePut, Landed, ContinuedRecord;
    var t := ContinuationSettles(InMaintenance(s), ContinuedRecord(record, GoalRef(s.host.world.goal), s.host.world.now));
  }

  function InMaintenance(s: State): State {
    s.(inFlight := true, host := s.host.(nextId := s.host.nextId + 1, world := s.host.world.(status := Maintenance)))
  }

  lemma AdoptFits(s: State, record: Record)
    requires Inv(s) && InRange(s.host.world) && s.host.store == Some(record) && record.Scheduled?
    requires Landed(s.host.world, record)
    ensures Accepts(record) && Accepts(ContinuedRecord(record, GoalRef(s.host.world.goal), s.host.world.now))
    ensures forall id :: id in s.host.tasks ==> id < s.host.nextId
  {
    ContinuedIsAccepted(record, GoalRef(s.host.world.goal), s.host.world.now);
  }

  lemma EnterAdopts(s: State, record: Record, expected: Continuation)
    requires Free(s) && s.host.store == Some(record) && record.Scheduled? && Accepts(record)
    requires Landed(s.host.world, record) && s.host.nextId !in s.host.tasks
    ensures var id, w := s.host.nextId, s.host.world;
            var m := InMaintenance(s);
            var next := ContinuedRecord(record, GoalRef(w.goal), w.now);
            EnterMaintenance(Claimed(s, record, expected, Some(GoalRef(w.goal))), id, ResumeOk)
            == EnqueuePut(m, next, Writing(next))
  {
    hide EnqueuePut, SchemaAccepts;
    assert Drop(Claimed(s, record, expected, Some(GoalRef(s.host.world.goal))), s.host.nextId).host.tasks == s.host.tasks;
  }

  /** The removal of the stored record, to its end. */
  function RemoveRun(id: nat): seq<Action> { [DoStoreOp(true)] + ([DoContinue(id)] + []) }

  function Removed(s: State): State { s.(timer := None, host := s.host.(store := None, nextId := s.host.nextId + 1)) }

  // ---- A scheduled record ------------------------------------------------------------

  /** Where a due record on an idle agent leads, by its target alone. */
  function Decision(s: State, record: Record): State
    requires Acting(record) && s.host.world.agent.Some?
  {
    var w, own := s.host.world, record.base.assignment.continuation;
    if Landed(w, record) then Claimed(s, record, own, Some(GoalRef(w.goal)))
    else if !OnTarget(w, record, own) then EnqueueRemove(s, record, Removing(record, false, false))
    else if Room(w, own) then Claimed(s, record, own, None)
    else Spawn(s, PublishOperator(PromotionRecord(record, record.terminalSeq, w.now), None), Ready(false, false))
  }

  lemma ResumeDecides(s: State, record: Record, known: Option<nat>)
    requires Free(s) && s.host.store == Some(record) && record.Scheduled? && Accepts(record)
    requires record.dueAt <= s.host.world.now as real && (s.pending.Some? ==> s.pending.value.Awaiting?)
    requires known.None? || known == s.host.world.agent
    ensures ResumeScheduled(s, record, known) == Decision(s, record)
  {
    hide EnqueueRemove;
  }

  /** An edge that comes to a due record on an idle agent decides so. */
  lemma DueEdgeDecides(s: State, a: Action)
    requires Inv(s) && Free(s) && ScheduledEdge(s, a) && s.host.store.value.dueAt <= s.host.world.now as real
    ensures Moves(s, a, Decision(Looked(s, a), s.host.store.value))
  {
    var record := s.host.store.value;
    assert Accepts(record) && (s.pending.Some? ==> s.pending.value.Awaiting?);
    ResumeDecides(Looked(s, a), record, None);
    ResumeDecides(Looked(s, a), record, s.host.world.agent);
    hide Inv, ResumeScheduled, Decision, SessionEvent, ReconcileAwaiting, ResumeRecovering, Accepts;
  }

  /**
   A due record on its exact target, with room left, is continued once: from its
   timer, from an idle edge, from an adapter update.
   */
  lemma DueEdgeContinues(s: State, a: Action)
    requires Inv(s) && Free(s) && InRange(s.host.world) && ScheduledEdge(s, a)
    requires s.host.store.value.dueAt <= s.host.world.now as real
    requires var own := s.host.store.value.base.assignment.continuation;
             OnTarget(s.host.world, s.host.store.value, own) && Room(s.host.world, own)
    ensures var record := s.host.store.value;
            var own := record.base.assignment.continuation;
            Reaches(s, [a] + ClaimRun(own, s.host.nextId), ContinuedOn(Looked(s, a), record, own))
  {
    var record, l := s.host.store.value, Looked(s, a);
    var own := record.base.assignment.continuation;
    DueEdgeDecides(s, a);
    LookedIsGood(s, a);
    assert Claimable(l, record, own);
    hide *;
    ClaimIsContinued(l, record, own);
    EdgeThen(s, a, Claimed(l, record, own, None), ClaimRun(own, s.host.nextId), ContinuedOn(l, record, own));
  }

  lemma EdgeThen(s: State, a: Action, m: State, rest: seq<Action>, t: State)
    requires Moves(s, a, m) && Reaches(m, rest, t)
    ensures Reaches(s, [a] + rest, t)
  {
    Prepend(s, a, m, rest, t);
  }

  /** Forgetting a timer and starting keep the invariant and everything but the two fields. */
  lemma LookedIsGood(s: State, a: Action)
    requires Inv(s)
    ensures var l := Looked(s, a);
            && Inv(l) && l.host == s.host && l.inFlight == s.inFlight && l.pending == s.pending
            && (s.started ==> l.started) && (a.DoStart? ==> l.started)
  {
    SameOwners(s, Looked(s, a));
  }

  /** A resume that already landed is adopted: recorded, and not repeated. */
  lemma LandedEdgeAdopts(s: State, a: Action)
    requires Inv(s) && Free(s) && InRange(s.host.world) && ScheduledEdge(s, a)
    requires s.host.store.value.dueAt <= s.host.world.now as real && Landed(s.host.world, s.host.store.value)
    ensures Reaches(s, [a] + AdoptRun(s.host.nextId), AdoptedOn(Looked(s, a), s.host.store.value))
  {
    var record, l := s.host.store.value, Looked(s, a);
    var own := record.base.assignment.continuation;
    DueEdgeDecides(s, a);
    LookedIsGood(s, a);
    assert Free(l);
    hide *;
    ClaimIsAdopted(l, record, own);
    EdgeThen(s, a, Claimed(l, record, own, Some(GoalRef(s.host.world.goal))), AdoptRun(s.host.nextId), AdoptedOn(l, record));
  }

  /** A record whose target drifted is removed, exactly it, and its timer goes. */
  lemma DriftedEdgeRemoves(s: State, a: Action)
    requires Inv(s) && Free(s) && ScheduledEdge(s, a)
    requires s.host.store.value.dueAt <= s.host.world.now as real && !Landed(s.host.world, s.host.store.value)
    requires !OnTarget(s.host.world, s.host.store.value, s.host.store.value.base.assignment.continuation)
    ensures Reaches(s, [a] + RemoveRun(s.host.nextId), Removed(Looked(s, a)))
  {
    var record, l := s.host.store.value, Looked(s, a);
    DueEdgeDecides(s, a);
    StoredFits(s);
    LookedIsGood(s, a);
    hide Inv, Moves, Reaches, Accepts, EnqueueRemove, OnTarget, Landed, ScheduledEdge;
    var t := RemoveSettles(l, record);
    EdgeThen(s, a, EnqueueRemove(l, record, Removing(record, false, false)), RemoveRun(s.host.nextId), t);
  }

  lemma StoredFits(s: State)
    requires Inv(s) && s.host.store.Some?
    ensures Accepts(s.host.store.value) && s.host.nextId !in s.host.tasks && s.host.nextId + 1 !in s.host.tasks
  {
  }

  /** With no room left nothing happens but the refused promotion: the record stalls. */
  lemma ExhaustedEdgeStalls(s: State, a: Action)
    requires Inv(s) && Free(s) && ScheduledEdge(s, a) && s.host.store.value.dueAt <= s.host.world.now as real
    requires var own := s.host.store.value.base.assignment.continuation;
             OnTarget(s.host.world, s.host.store.value, own) && !Room(s.host.world, own)
    ensures var l := Looked(s, a);
            Reaches(s, [a] + ([DoContinue(s.host.nextId)] + []), l.(host := l.host.(nextId := l.host.nextId + 1)))
  {
    var record, l := s.host.store.value, Looked(s, a);
    DueEdgeDecides(s, a);
    StoredFits(s);
    assert !Landed(s.host.world, record);
    hide Inv, Moves, Reaches, Accepts, OnTarget, Landed, Room, ScheduledEdge, PromotionRecord;
    var pc := PublishOperator(PromotionRecord(record, record.terminalSeq, s.host.world.now), None);
    RefusalEnds(l, pc);
    EdgeThen(s, a, Spawn(l, pc, Ready(false, false)), [DoContinue(s.host.nextId)] + [],
             l.(host := l.host.(nextId := l.host.nextId + 1)));
  }

  /** A refused write's activation ends without a trace. */
  lemma RefusalEnds(s: State, pc: Pc)
    requires s.host.nextId !in s.host.tasks && (pc.PublishOperator? || pc.PublishScheduled?)
    ensures Reaches(Spawn(s, pc, Ready(false, false)), [DoContinue(s.host.nextId)] + [],
                    s.(host := s.host.(nextId := s.host.nextId + 1)))
  {
    var m, t := Spawn(s, pc, Ready(false, false)), s.(host := s.host.(nextId := s.host.nextId + 1));
    assert Drop(m, s.host.nextId).host.tasks == s.host.tasks;
    assert Continue(m, s.host.nextId) == t;
    MoveContinue(m, s.host.nextId);
    hide Moves, Reaches;
    ReachesNothing(t);
    Prepend(m, DoContinue(s.host.nextId), t, [], t);
  }

  /** An early edge arms the record's timer, and an early callback arms it anew; timers may be unavailable. */
  lemma EarlyEdgeArms(s: State, a: Action)
    requires Inv(s) && s.started && ScheduledEdge(s, a) && s.host.world.now as real < s.host.store.value.dueAt
    ensures var l, record := Looked(s, a), s.host.store;
            Moves(s, a, l.(timer := if l.timer == record || s.host.world.timerOk then record else None))
  {
    StoredFits(s);
    hide SessionEvent, ReconcileAwaiting, RemoveCurrent, ResumeExact;
  }

  /** A due record waits while a continuation is in flight or the agent is busy, and its timer is not armed again. */
  lemma BusyEdgeWaits(s: State, a: Action)
    requires Inv(s) && s.started && ScheduledEdge(s, a) && s.host.store.value.dueAt <= s.host.world.now as real
    requires s.inFlight || !s.host.world.status.Idle? || s.host.world.agent.None?
    ensures Moves(s, a, Looked(s, a))
  {
    StoredFits(s);
    hide SessionEvent, ReconcileAwaiting, RemoveCurrent, ResumeExact;
  }

  /** A record that appears with its agent, or at the start, is armed. */
  lemma CreatedOrStartedArms(s: State, a: Action)
    requires Inv(s) && s.pending.None? && s.host.store.Some? && s.host.store.value.Scheduled?
    requires (a.DoAgentCreated? && s.started) || (a.DoStart? && !s.started)
    ensures var l, record := Looked(s, a), s.host.store;
            Moves(s, a, l.(timer := if l.timer == record || s.host.world.timerOk then record else None))
  {
    StoredFits(s);
    hide AgentReady, ReconcileAwaiting;
  }

  // ---- A recovering record ----------------------------------------------------------------

  /** The edges that look at a stored recovering record no later turn has settled: idle edges, its agent's creation, a start. */
  predicate RecoveringEdge(s: State, a: Action) {
    && s.host.store.Some? && s.host.store.value.Recovering? && s.pending.None? && s.host.world.agent.Some?
    && (forall e :: e in s.host.world.log ==> e.turn <= s.host.store.value.base.turn)
    && (IdleEdge(s, a) || (a.DoAgentCreated? && Some(a.caller) == s.host.world.agent) || (a.DoStart? && !s.started))
  }

  /** The live goal is at the ref the record resumed it to. */
  predicate AtResumed(w: World, record: Record)
    requires record.Recovering?
  {
    w.goal.phase.Active? && GoalRef(w.goal) == record.resumed
  }

  /**
   What an idle agent's recovering record is to be continued with: a disarmed
   goal from where it was resumed to, a goal a crash took back from where it was
   before, a review as it is.
   */
  function ToRetry(w: World, record: Record): Option<Continuation>
    requires record.Recovering?
  {
    var own := record.base.assignment.continuation;
    if record.resumed.ReviewContinuation? || AtResumed(w, record) then
      if OnTarget(w, record, record.resumed) then Some(record.resumed) else None
    else if own.GoalContinuation? && OnTarget(w, record, own) then Some(own)
    else None
  }

  function Retry(s: State, record: Record): State
    requires record.Recovering? && s.host.world.agent.Some?
  {
    var w := s.host.world;
    if AtResumed(w, record) && w.goal.armed then s
    else match ToRetry(w, record)
      case None => EnqueueRemove(s, record, Removing(record, false, false))
      case Some(c) =>
        if Room(w, c) then Claimed(s, record, c, None)
        else Spawn(s, PublishOperator(PromotionRecord(record, record.terminalSeq, w.now), None), Ready(false, false))
  }

  lemma RecoveryDecides(s: State, record: Record)
    requires Free(s) && s.host.store == Some(record) && record.Recovering? && Accepts(record) && s.pending.None?
    ensures ResumeRecovering(s, record, s.host.world.agent.value) == Retry(s, record)
  {
    hide EnqueueRemove;
  }

  lemma NothingLater(log: seq<TurnEnd>, turn: nat)
    requires forall e :: e in log ==> e.turn <= turn
    ensures FindLater(log, turn).None?
  {
  }

  lemma RecoveringEdgeDecides(s: State, a: Action)
    requires Inv(s) && Free(Looked(s, a)) && RecoveringEdge(s, a)
    ensures Moves(s, a, Retry(Looked(s, a), s.host.store.value))
  {
    var record := s.host.store.value;
    assert Accepts(record);
    NothingLater(s.host.world.log, record.base.turn);
    RecoveryDecides(Looked(s, a), record);
    hide Inv, ResumeRecovering, Retry, SessionEvent, ReconcileAwaiting, ResumeScheduled, Accepts, FindLater;
  }

  /**
   A recovery whose target waits again is continued once more, from wherever the
   target now is: resumed and disarmed, taken back by a crash, or a review.
   */
  lemma WaitingRecoveryIsRetried(s: State, a: Action, c: Continuation)
    requires Inv(s) && Free(Looked(s, a)) && InRange(s.host.world) && RecoveringEdge(s, a)
    requires c == s.host.store.value.resumed
             || (c == s.host.store.value.base.assignment.continuation && c.GoalContinuation?
                 && s.host.store.value.resumed.GoalContinuation? && !AtResumed(s.host.world, s.host.store.value))
    requires OnTarget(s.host.world, s.host.store.value, c) && Room(s.host.world, c)
    ensures var record := s.host.store.value;
            Reaches(s, [a] + ClaimRun(c, s.host.nextId), ContinuedOn(Looked(s, a), record, c))
    ensures var t := ContinuedOn(Looked(s, a), s.host.store.value, c).host.store.value;
            t.Recovering? && (c.ReviewContinuation? ==> t.resumed == c)
            && (c.GoalContinuation? ==> t.resumed == c.(revision := c.revision + 1))
  {
    var record, l := s.host.store.value, Looked(s, a);
    RecoveringEdgeDecides(s, a);
    LookedIsGood(s, a);
    assert Claimable(l, record, c);
    assert Retry(l, record) == Claimed(l, record, c, None);
    RetriedRef(s, record, c);
    hide *;
    ClaimIsContinued(l, record, c);
    EdgeThen(s, a, Claimed(l, record, c, None), ClaimRun(c, s.host.nextId), ContinuedOn(l, record, c));
  }

  lemma RetriedRef(s: State, record: Record, c: Continuation)
    requires Acting(record) && s.host.world.agent.Some? && OnTarget(s.host.world, record, c)
    ensures forall l: State :: l.host == s.host ==>
              var t := ContinuedOn(l, record, c).host.store.value;
              t.Recovering? && (c.ReviewContinuation? ==> t.resumed == c)
              && (c.GoalContinuation? ==> t.resumed == c.(revision := c.revision + 1))
  {
  }

  /** While its goal runs armed at the resumed ref, a recovery is left alone. */
  lemma ArmedRecoveryIsLeft(s: State, a: Action)
    requires Inv(s) && Free(Looked(s, a)) && RecoveringEdge(s, a)
    requires AtResumed(s.host.world, s.host.store.value) && s.host.world.goal.armed
    ensures Moves(s, a, Looked(s, a))
  {
    RecoveringEdgeDecides(s, a);
    hide Inv, EnqueueRemove, Free, RecoveringEdge;
  }

  /** A recovery whose target is neither armed nor waiting anywhere is removed, exactly it. */
  lemma LostRecoveryIsRemoved(s: State, a: Action)
    requires Inv(s) && Free(Looked(s, a)) && RecoveringEdge(s, a)
    requires !(AtResumed(s.host.world, s.host.store.value) && s.host.world.goal.armed)
    requires !OnTarget(s.host.world, s.host.store.value, s.host.store.value.resumed)
    requires s.host.store.value.resumed.GoalContinuation? && !AtResumed(s.host.world, s.host.store.value) ==>
               var own := s.host.store.value.base.assignment.continuation;
               own.ReviewContinuation? || !OnTarget(s.host.world, s.host.store.value, own)
    ensures Reaches(s, [a] + RemoveRun(s.host.nextId), Removed(Looked(s, a)))
  {
    var record, l := s.host.store.value, Looked(s, a);
    RecoveringEdgeDecides(s, a);
    StoredFits(s);
    LookedIsGood(s, a);
    assert Retry(l, record) == EnqueueRemove(l, record, Removing(record, false, false));
    hide Inv, Moves, Reaches, Accepts, EnqueueRemove, OnTarget, AtResumed, RecoveringEdge, Retry;
    var t := RemoveSettles(l, record);
    EdgeThen(s, a, EnqueueRemove(l, record, Removing(record, false, false)), RemoveRun(s.host.nextId), t);
  }

  /** With no room left a waiting recovery stalls as well. */
  lemma ExhaustedRecoveryStalls(s: State, a: Action)
    requires Inv(s) && Free(Looked(s, a)) && RecoveringEdge(s, a)
    requires !(AtResumed(s.host.world, s.host.store.value) && s.host.world.goal.armed)
    requires var c := ToRetry(s.host.world, s.host.store.value); c.Some? && !Room(s.host.world, c.value)
    ensures var l := Looked(s, a);
            Reaches(s, [a] + ([DoContinue(s.host.nextId)] + []), l.(host := l.host.(nextId := l.host.nextId + 1)))
  {
    var record, l := s.host.store.value, Looked(s, a);
    RecoveringEdgeDecides(s, a);
    StoredFits(s);
    hide Inv, Moves, Reaches, Accepts, ToRetry, AtResumed, Room, RecoveringEdge, PromotionRecord;
    var pc := PublishOperator(PromotionRecord(record, record.terminalSeq, s.host.world.now), None);
    RefusalEnds(l, pc);
    EdgeThen(s, a, Spawn(l, pc, Ready(false, false)), [DoContinue(s.host.nextId)] + [],
             l.(host := l.host.(nextId := l.host.nextId + 1)));
  }

  /** A recovery waits while a continuation is in flight or the agent is busy. */
  lemma BusyRecoveryWaits(s: State, a: Action)
    requires Inv(s) && Looked(s, a).started && RecoveringEdge(s, a)
    requires s.inFlight || !s.host.world.status.Idle?
    ensures Moves(s, a, Looked(s, a))
  {
    NothingLater(s.host.world.log, s.host.store.value.base.turn);
    StoredFits(s);
    hide Inv, SessionEvent, ReconcileAwaiting, ResumeScheduled, RemoveCurrent, ResumeExact, FindLater;
  }

  // ---- An operator record -------------------------------------------------------------------

  /** An adapter update from the live agent that meets an operator record. */
  predicate OperatorEdge(s: State, a: Action) {
    && s.host.store.Some? && s.host.store.value.Operator?
    && a.DoAdapterEdge? && s.host.world.agent == Some(a.caller) && (s.pending.None? || a.deferred)
  }

  function Rescheduled(record: Record, now: nat): Record
    requires record.Operator?
  {
    Scheduled(record.base, record.terminalSeq, now as real)
  }

  /** The record is rescheduled to now, and its own write goes on to continue it. */
  lemma AdapterUpdateReschedules(s: State, a: Action)
    requires Inv(s) && Free(s) && InRange(s.host.world) && OperatorEdge(s, a)
    requires var own := s.host.store.value.base.assignment.continuation;
             OnTarget(s.host.world, s.host.store.value, own) && Room(s.host.world, own)
    ensures var next := Rescheduled(s.host.store.value, s.host.world.now);
            var own := next.base.assignment.continuation;
            var m := s.(host := s.host.(store := Some(next), nextId := s.host.nextId + 1));
            Reaches(s, [a] + ([DoStoreOp(true)] + ([DoContinue(s.host.nextId)] + ClaimRun(own, s.host.nextId + 1))),
                    ContinuedOn(m, next, own))
  {
    var next := Rescheduled(s.host.store.value, s.host.world.now);
    var own := next.base.assignment.continuation;
    var m := s.(host := s.host.(store := Some(next), nextId := s.host.nextId + 1));
    RescheduleMoves(s, a);
    var u := PutSettles(s, next, Rescheduling(next, a.caller));
    RescheduledClaims(s, a, u);
    assert Stores(next) == [DoStoreOp(true)];
    RescheduledIsGood(s, a, m, u);
    hide *;
    ClaimIsContinued(m, next, own);
    EdgeThen(u, DoContinue(s.host.nextId), Claimed(m, next, own, None), ClaimRun(own, s.host.nextId + 1),
             ContinuedOn(m, next, own));
    Append(EnqueuePut(s, next, Rescheduling(next, a.caller)), [DoStoreOp(true)], u,
           [DoContinue(s.host.nextId)] + ClaimRun(own, s.host.nextId + 1), ContinuedOn(m, next, own));
    EdgeThen(s, a, EnqueuePut(s, next, Rescheduling(next, a.caller)),
             [DoStoreOp(true)] + ([DoContinue(s.host.nextId)] + ClaimRun(own, s.host.nextId + 1)), ContinuedOn(m, next, own));
  }

  lemma RescheduleMoves(s: State, a: Action)
    requires Inv(s) && Free(s) && InRange(s.host.world) && OperatorEdge(s, a)
    requires var own := s.host.store.value.base.assignment.continuation;
             OnTarget(s.host.world, s.host.store.value, own) && Room(s.host.world, own)
    ensures var next := Rescheduled(s.host.store.value, s.host.world.now);
            Accepts(next) && Moves(s, a, EnqueuePut(s, next, Rescheduling(next, a.caller)))
  {
    StoredFits(s);
    AcceptedInAnyPhase(s.host.store.value);
    AcceptedInAnyPhase(Rescheduled(s.host.store.value, s.host.world.now));
    hide Inv, EnqueuePut, Accepts, AgentReady, ReconcileAwaiting, RemoveCurrent;
  }

  lemma RescheduledClaims(s: State, a: Action, u: State)
    requires Inv(s) && Free(s) && InRange(s.host.world) && OperatorEdge(s, a)
    requires var own := s.host.store.value.base.assignment.continuation;
             OnTarget(s.host.world, s.host.store.value, own) && Room(s.host.world, own)
    requires var next := Rescheduled(s.host.store.value, s.host.world.now);
             && Accepts(next)
             && u == s.(host := s.host.(store := Some(next), nextId := s.host.nextId + 1,
                          tasks := s.host.tasks[s.host.nextId := Task(Rescheduling(next, a.caller), Ready(true, false))]))
    ensures var next := Rescheduled(s.host.store.value, s.host.world.now);
            var own := next.base.assignment.continuation;
            var m := s.(host := s.host.(store := Some(next), nextId := s.host.nextId + 1));
            Moves(u, DoContinue(s.host.nextId), Claimed(m, next, own, None)) && Claimable(m, next, own)
  {
    var next := Rescheduled(s.host.store.value, s.host.world.now);
    var own := next.base.assignment.continuation;
    var m := s.(host := s.host.(store := Some(next), nextId := s.host.nextId + 1));
    StoredFits(s);
    assert s.pending.Some? ==> s.pending.value.Awaiting?;
    assert Drop(u, s.host.nextId).host.tasks == s.host.tasks;
    assert Drop(u, s.host.nextId) == m;
    ResumeDecides(m, next, s.host.world.agent);
    hide Inv, ResumeScheduled, Accepts;
    assert Continue(u, s.host.nextId) == ResumeScheduled(m, next, Some(a.caller));
    assert !Landed(m.host.world, next);
  }

  lemma RescheduledIsGood(s: State, a: Action, m: State, u: State)
    requires Inv(s) && OperatorEdge(s, a)
    requires m == s.(host := s.host.(store := Some(Rescheduled(s.host.store.value, s.host.world.now)),
                                     nextId := s.host.nextId + 1))
    requires Accepts(m.host.store.value)
    ensures Inv(m)
  {
    SameOwners(s, m);
  }

  /** An operator record whose target drifted is removed. */
  lemma DriftedOperatorIsRemoved(s: State, a: Action)
    requires Inv(s) && Free(s) && OperatorEdge(s, a)
    requires !OnTarget(s.host.world, s.host.store.value, s.host.store.value.base.assignment.continuation)
    ensures Reaches(s, [a] + RemoveRun(s.host.nextId), Removed(s))
  {
    var record := s.host.store.value;
    StoredFits(s);
    assert s.pending.Some? ==> s.pending.value.Awaiting?;
    assert Moves(s, a, EnqueueRemove(s, record, Removing(record, false, false))) by {
      hide Inv, EnqueueRemove, AgentReady, ReconcileAwaiting, EnqueuePut, Accepts;
    }
    hide Inv, Moves, Reaches, Accepts, EnqueueRemove, OnTarget;
    var t := RemoveSettles(s, record);
    EdgeThen(s, a, EnqueueRemove(s, record, Removing(record, false, false)), RemoveRun(s.host.nextId), t);
  }

  /** Without room, or with the agent busy, and for every other edge, an operator record stays for the operator. */
  lemma OperatorRecordStays(s: State, a: Action)
    requires Inv(s) && s.host.store.Some? && s.host.store.value.Operator? && s.pending.None?
    requires || a.DoAgentReady? || a.DoAgentCreated? || (a.DoStart? && !s.started)
             || (OperatorEdge(s, a) && !s.host.world.status.Idle?)
             || (OperatorEdge(s, a)
                 && var own := s.host.store.value.base.assignment.continuation;
                    OnTarget(s.host.world, s.host.store.value, own) && !Room(s.host.world, own))
    ensures Moves(s, a, Looked(s, a))
  {
    StoredFits(s);
    hide Inv, EnqueueRemove, EnqueuePut, SessionEvent, ResumeScheduled, ResumeRecovering;
  }

  // ---- Turn ends that were missed -----------------------------------------------------------

  /** The edges that look at whatever record is current. */
  predicate AnyEdge(s: State, a: Action) {
    || a.DoAgentReady? || a.DoAgentCreated? || (a.DoStart? && !s.started && s.host.world.agent.Some?)
    || (a.DoAdapterEdge? && (s.pending.None? || !a.deferred))
  }

  /** `log[i]` is the last end of the turn, or of any later turn. */
  predicate LastOf(log: seq<TurnEnd>, i: nat, turn: nat) {
    i < |log| && log[i].turn == turn && forall j :: i < j < |log| ==> log[j].turn != turn
  }

  predicate LastAfter(log: seq<TurnEnd>, i: nat, turn: nat) {
    i < |log| && log[i].turn > turn && forall j :: i < j < |log| ==> log[j].turn <= turn
  }

  lemma {:induction false} FindTurnFindsLast(log: seq<TurnEnd>, turn: nat, i: nat)
    requires LastOf(log, i, turn)
    ensures FindTurn(log, turn) == Some(log[i])
    decreases |log|
  {
    if i < |log| - 1 {
      FindTurnFindsLast(log[..|log| - 1], turn, i);
    }
  }

  lemma {:induction false} FindLaterFindsLast(log: seq<TurnEnd>, turn: nat, i: nat)
    requires LastAfter(log, i, turn)
    ensures FindLater(log, turn) == Some(log[i])
    decreases |log|
  {
    if i < |log| - 1 {
      FindLaterFindsLast(log[..|log| - 1], turn, i);
    }
  }

  /** A candidate whose turn has ended is handled by that end, as if it were delivered now. */
  lemma MissedEndIsHandled(s: State, a: Action, i: nat)
    requires Inv(s) && Looked(s, a).started && AnyEdge(s, a)
    requires CurrentRecord(s).Some? && CurrentRecord(s).value.Awaiting?
    requires LastOf(s.host.world.log, i, CurrentRecord(s).value.base.turn)
    ensures var l, current := Looked(s, a), CurrentRecord(s).value;
            var m := Spawn(l, TerminalFlush(s.host.world.log[i], current), Blocked);
            Moves(s, a, m) && Moves(l, DoSessionEvent(s.host.world.log[i]), m)
  {
    FindTurnFindsLast(s.host.world.log, CurrentRecord(s).value.base.turn, i);
    if s.host.store.Some? { StoredFits(s); }
    hide Inv, FindTurn, FindLater, ResumeScheduled, ResumeRecovering, Arm;
  }

  /** Until then the candidate waits. */
  lemma CandidateWaits(s: State, a: Action)
    requires Inv(s) && AnyEdge(s, a) && CurrentRecord(s).Some? && CurrentRecord(s).value.Awaiting?
    requires forall e :: e in s.host.world.log ==> e.turn != CurrentRecord(s).value.base.turn
    ensures Moves(s, a, Looked(s, a))
  {
    if s.host.store.Some? { StoredFits(s); }
    hide Inv, FindLater, ResumeScheduled, ResumeRecovering, Arm;
  }

  /** A recovering record that a later turn outlived is settled by the last such end. */
  lemma MissedEndSettles(s: State, a: Action, i: nat)
    requires Inv(s) && Looked(s, a).started && AnyEdge(s, a) && s.pending.None?
    requires s.host.store.Some? && s.host.store.value.Recovering?
    requires LastAfter(s.host.world.log, i, s.host.store.value.base.turn)
    ensures var l, current := Looked(s, a), s.host.store.value;
            var m := Spawn(l, SettleFlush(s.host.world.log[i], current), Blocked);
            Moves(s, a, m) && Moves(l, DoSessionEvent(s.host.world.log[i]), m)
  {
    FindLaterFindsLast(s.host.world.log, s.host.store.value.base.turn, i);
    StoredFits(s);
    hide Inv, FindTurn, FindLater, ResumeScheduled, ResumeRecovering, Arm;
  }

  /** Every other turn end is ignored. */
  lemma OtherEndsAreIgnored(s: State, event: TurnEnd)
    requires event in s.host.world.log
    requires CurrentRecord(s).Some? ==>
               var current := CurrentRecord(s).value;
               (current.Awaiting? ==> event.turn != current.base.turn)
               && (current.Recovering? ==> event.turn <= current.base.turn)
    ensures Moves(s, DoSessionEvent(event), s)
  {
  }

  /** A candidate whose turn ended in another way is dropped, from the pending map, the table and the timer. */
  lemma OtherEndDropsCandidate(s: State, event: TurnEnd, current: Record)
    requires Inv(s) && s.started && s.host.queue == [] && event in s.host.world.log
    requires CurrentRecord(s) == Some(current) && current.Awaiting? && event.turn == current.base.turn
    requires event.reason != Failed(current.base.failure) && current.base.failure.retryAfter != Some(NotANumber)
    ensures var id, w, stored := s.host.nextId, s.host.world, s.host.store == Some(current);
            Reaches(s, [DoSessionEvent(event)] + ([DoFlush(id, true)] + (if stored then RemoveRun(id + 1) else [])),
                    s.(pending := None, timer := None,
                       host := s.host.(store := if stored then None else s.host.store,
                                       nextId := if stored then id + 2 else id + 1, effectsSaved := |s.host.effects|,
                                       world := w.(saved := |w.log|, goalSaved := w.goal))))
  {
    var id, stored := s.host.nextId, s.host.store == Some(current);
    var s1 := Spawn(s, TerminalFlush(event, current), Blocked);
    CandidateFlushes(s, current, event);
    MoveSessionEvent(s, event);
    MoveFlush(s1, id);
    var u := Flushed(s).(pending := None, host := Flushed(s).host.(nextId := id + 1));
    DropFlushes(s, event, current);
    if stored {
      StoredFits(s);
      RemovalEnds(u, current, s.pending.Some?);
    } else {
      ReachesNothing(u.(timer := None));
    }
    hide Step, Enabled, Inv, Moves, Reaches, EnqueueRemove, FlushDone, SessionEvent, Accepts;
    var s2 := FlushDone(s1, id, true);
    PrependTwo(s, DoSessionEvent(event), s1, DoFlush(id, true), s2, if stored then RemoveRun(id + 1) else [],
               u.(timer := None, host := u.host.(store := if stored then None else u.host.store,
                                                 nextId := if stored then id + 2 else id + 1)));
  }

  lemma DropFlushes(s: State, event: TurnEnd, current: Record)
    requires s.started && CurrentRecord(s) == Some(current) && current.Awaiting? && s.host.nextId !in s.host.tasks
    requires event.reason != Failed(current.base.failure) && current.base.failure.retryAfter != Some(NotANumber)
    ensures var id := s.host.nextId;
            var u := Flushed(s).(pending := None, host := Flushed(s).host.(nextId := id + 1));
            FlushDone(Spawn(s, TerminalFlush(event, current), Blocked), id, true)
            == if s.host.store == Some(current) then EnqueueRemove(u, current, Removing(current, s.pending.Some?, false))
               else u.(timer := None)
  {
    var s1 := Spawn(s, TerminalFlush(event, current), Blocked);
    assert Drop(Flushed(s1), s.host.nextId).host.tasks == s.host.tasks;
    hide EnqueueRemove, EnqueuePut;
  }

  lemma RemovalEnds(s: State, record: Record, wasPending: bool)
    requires s.host.queue == [] && s.host.nextId !in s.host.tasks && s.host.store == Some(record) && Accepts(record)
    ensures Reaches(EnqueueRemove(s, record, Removing(record, wasPending, false)), RemoveRun(s.host.nextId), Removed(s))
  {
    hide Step, Enabled, Moves, Reaches, SchemaAccepts;
    var id := s.host.nextId;
    var s1 := EnqueueRemove(s, record, Removing(record, wasPending, false));
    var s2 := RunStoreOp(s1, true);
    MoveStoreOp(s1);
    assert s2.host.tasks[id] == Task(Removing(record, wasPending, false), Ready(true, true));
    var t := Continue(s2, id);
    MoveContinue(s2, id);
    assert t.host.tasks == s.host.tasks;
    ReachesNothing(t);
    PrependTwo(s1, DoStoreOp(true), s2, DoContinue(id), t, [], t);
  }

  // ---- Edges and answers without effect -------------------------------------------------------

  /** A failed flush ends its activation, and the log stays as durable as it was. */
  lemma FailedFlushWaits(s: State, id: nat)
    requires Inv(s) && Enabled(s, DoFlush(id, false)) && !s.host.tasks[id].pc.Checkpointing?
    ensures Moves(s, DoFlush(id, false), Drop(s, id))
  {
  }

  /** A flush that comes back to another record, or to a stopped runtime, only made the log durable. */
  lemma SupersededFlushOnlySaves(s: State, id: nat)
    requires Inv(s) && Enabled(s, DoFlush(id, true)) && !s.host.tasks[id].pc.Checkpointing?
    requires var current := s.host.tasks[id].pc.current;
             !s.started || (CurrentRecord(s) != Some(current) && s.host.store != Some(current))
    ensures Moves(s, DoFlush(id, true), Drop(Flushed(s), id))
  {
  }

  /** A request error the retry plugin keeps, an abort, and one without agent or assignment leave no candidate. */
  lemma RequestErrorWithoutCandidate(s: State, step: nat, provider: string, failure: Failure, retried: bool)
    requires Enabled(s, DoRequestError(step, provider, failure, retried))
    requires var w := s.host.world;
             retried || !s.started || failure.code.Aborted? || w.agent.None? || w.assignment.None?
             || w.assignment.value.sessionId != w.sessionId
    ensures var w := s.host.world;
            Moves(s, DoRequestError(step, provider, failure, retried),
                  if retried then s else WithWorld(s, w.(status := Running(w.status.turn, Answered))))
  {
  }

  /** A stopped runtime answers no edge. */
  lemma StoppedIsInert(s: State, a: Action)
    requires Inv(s) && !s.started && Enabled(s, a)
    requires a.DoTimer? || a.DoSessionEvent? || a.DoAgentReady? || a.DoAgentCreated? || a.DoAdapterEdge? || a.DoDispose?
    ensures Moves(s, a, Looked(s, a))
  {
    if s.host.store.Some? { StoredFits(s); }
  }

  /** Starting twice is starting once; disposing forgets the timer and nothing durable. */
  lemma StartAndDisposeOnce(s: State)
    requires s.started
    ensures Moves(s, DoStart, s) && Moves(s, DoDispose, s.(started := false, timer := None))
  {
  }

  /** A start that finds no agent arms scheduled records only; candidates and recoveries wait for their agent. */
  lemma StartWithoutAgentWaits(s: State)
    requires !s.started && s.host.world.agent.None?
    requires s.pending.Some? || s.host.store.None? || !s.host.store.value.Scheduled?
    ensures Moves(s, DoStart, s.(started := true))
  {
  }

  /** Without a record there is nothing to do. */
  lemma NothingToDo(s: State, a: Action)
    requires CurrentRecord(s).None? && (a.DoStart? || a.DoAgentReady? || a.DoAgentCreated? || a.DoAdapterEdge?)
    ensures Moves(s, a, Looked(s, a))
  {
  }

  /** A record the schema refuses is never queued: its activation learns at once that nothing was stored or removed. */
  lemma RefusedRecordsAreNotQueued(s: State, record: Record, pc: Pc)
    requires !Accepts(record)
    ensures EnqueuePut(s, record, pc) == EnqueueRemove(s, record, pc) == Spawn(s, pc, Ready(false, false))
    ensures EnqueuePut(s, record, pc).host.queue == s.host.queue
  {
  }

  // ---- What comes back to a suspended activation ------------------------------------------------

  /** The head of the store queue takes effect or not, and its activation learns which. */
  lemma StoreAnswersItsActivation(s: State, ok: bool)
    requires s.host.queue != [] && s.host.queue[0].id in s.host.tasks
    ensures var h, t := s.host, Step(s, DoStoreOp(ok));
            var op := h.queue[0];
            var hit := op.Remove? && ok && h.store == Some(op.record);
            && t.host.queue == h.queue[1..]
            && t.host.store == (if ok && op.Put? then Some(op.record) else if hit then None else h.store)
            && t.host.tasks == h.tasks[op.id := Task(h.tasks[op.id].pc, Ready(ok, hit))]
            && t == s.(host := h.(queue := t.host.queue, store := t.host.store, tasks := t.host.tasks))
  {
  }

  /** A failed publication changes nothing; the incident stays what it was. */
  lemma FailedPublicationChangesNothing(s: State, id: nat)
    requires Enabled(s, DoContinue(id)) && !s.host.tasks[id].signal.ok
    requires s.host.tasks[id].pc.PublishScheduled? || s.host.tasks[id].pc.PublishOperator? || s.host.tasks[id].pc.Rescheduling?
    ensures Moves(s, DoContinue(id), Drop(s, id))
  {
  }

  /** A remove that failed, or met another record, keeps the timer; the in-flight mark goes with its owner. */
  lemma RemoveWithoutEffect(s: State, id: nat)
    requires Enabled(s, DoContinue(id)) && s.host.tasks[id].pc.Removing?
    requires var task := s.host.tasks[id]; !task.signal.ok || (!task.signal.removed && !task.pc.wasPending)
    ensures Moves(s, DoContinue(id), Drop(s, id).(inFlight := s.inFlight && !s.host.tasks[id].pc.owner))
  {
  }

  /** The state once a continuation ended without its record being written. */
  function Released(s: State, id: nat): State {
    Drop(s, id).(inFlight := false, host := Drop(s, id).host.(
      world := s.host.world.(status := if s.host.world.status.Maintenance? then Idle else s.host.world.status)))
  }

  /** A recovering write that failed releases the agent; the old record stays for the next edge. */
  lemma FailedWriteReleases(s: State, id: nat)
    requires Enabled(s, DoContinue(id)) && s.host.tasks[id].pc.Writing? && (!s.host.tasks[id].signal.ok || !s.started)
    ensures Moves(s, DoContinue(id), Released(s, id))
  {
  }

  /** The checkpoint ends the continuation, durable or not. */
  lemma CheckpointReleases(s: State, id: nat, ok: bool)
    requires Enabled(s, DoFlush(id, ok)) && s.host.tasks[id].pc.Checkpointing?
    ensures Moves(s, DoFlush(id, ok), Released(if ok then Flushed(s) else s, id))
  {
  }

  /** A refused claim, a stopped runtime, a goal or judge that throws: the claim ends, the record stays. */
  lemma ClaimEndsWithoutEffect(s: State, id: nat, a: Action)
    requires Inv(s) && Enabled(s, a) && id in s.host.tasks
    requires || a == DoReject(id)
             || (a == DoEnter(id, ResumeOk) && !s.started) || a == DoReview(id, WakeThrows)
             || (a == DoReview(id, Stale) && !s.started)
    ensures Moves(s, a, if a.DoReview? then Released(s, id) else Drop(s, id).(inFlight := false))
  {
  }

  lemma ThrowingResumeLeavesGoal(s: State, id: nat)
    requires Inv(s) && s.started && Enabled(s, DoEnter(id, ResumeThrows))
    requires var pc := s.host.tasks[id].pc;
             && s.host.store == Some(pc.record) && s.host.world.agent == Some(pc.caller) && pc.applied.None?
             && OnTarget(s.host.world, pc.record, pc.expected)
    ensures Moves(s, DoEnter(id, ResumeThrows), Drop(s, id).(inFlight := false))
  {
    StoredFits(s);
  }

  /** Inside maintenance a claim whose record, agent or target is not exactly there any more closes its record. */
  lemma StaleClaimCloses(s: State, id: nat, outcome: ResumeOutcome)
    requires Inv(s) && s.started && Enabled(s, DoEnter(id, outcome))
    requires var pc := s.host.tasks[id].pc;
             || s.host.store != Some(pc.record) || s.host.world.agent != Some(pc.caller)
             || (pc.applied.None? && !OnTarget(s.host.world, pc.record, pc.expected))
             || (pc.applied.Some? && !Adoptable(s.host.world, pc.record, pc.applied.value))
             || (pc.applied.None? && pc.expected.ReviewContinuation? && !s.host.world.reviewRoute && outcome.ResumeOk?)
    ensures Moves(s, DoEnter(id, outcome), Spawn(Drop(s, id), Closing(s.host.tasks[id].pc.record), Ready(true, false)))
  {
    if s.host.store.Some? { StoredFits(s); }
    hide AfterApplied;
  }

  /** A judge that answers stale closes the record and leaves maintenance. */
  lemma StaleReviewCloses(s: State, id: nat)
    requires Inv(s) && s.started && Enabled(s, DoReview(id, Stale))
    ensures Moves(s, DoReview(id, Stale),
                  Spawn(Released(s, id).(inFlight := s.inFlight), Closing(s.host.tasks[id].pc.record), Ready(true, false)))
  {
  }

  /** Closing removes exactly its record, if it is still the stored one, and gives the in-flight mark back. */
  lemma ClosingRemovesItsRecord(s: State, record: Record)
    requires Inv(s) && s.started && s.host.queue == [] && Acting(record) && Accepts(record)
    ensures var id := s.host.nextId;
            Reaches(Spawn(s, Closing(record), Ready(true, false)), [DoContinue(id)] + RemoveRun(id + 1),
                    s.(inFlight := false, timer := if s.host.store == Some(record) then None else s.timer,
                       host := s.host.(nextId := id + 2,
                                       store := if s.host.store == Some(record) then None else s.host.store)))
  {
    ClosingQueues(s, record);
    var id := s.host.nextId;
    var u := s.(host := s.host.(nextId := id + 1));
    FreshAfter(s);
    OwnedRemovalEnds(u, record);
    hide Moves, Reaches, EnqueueRemove, Inv, Accepts, Spawn;
    EdgeThen(Spawn(s, Closing(record), Ready(true, false)), DoContinue(id),
             EnqueueRemove(u, record, Removing(record, false, true)), RemoveRun(id + 1),
             u.(inFlight := false, timer := if s.host.store == Some(record) then None else s.timer,
                host := u.host.(nextId := id + 2, store := if s.host.store == Some(record) then None else s.host.store)));
  }

  lemma FreshAfter(s: State)
    requires Inv(s)
    ensures s.host.nextId !in s.host.tasks && s.host.nextId + 1 !in s.host.tasks
  {
  }

  lemma ClosingQueues(s: State, record: Record)
    requires Inv(s) && s.started && Acting(record)
    ensures var u := s.(host := s.host.(nextId := s.host.nextId + 1));
            Moves(Spawn(s, Closing(record), Ready(true, false)), DoContinue(s.host.nextId),
                  EnqueueRemove(u, record, Removing(record, false, true)))
  {
    FreshAfter(s);
    assert s.pending.Some? ==> s.pending.value.Awaiting?;
    var s0 := Spawn(s, Closing(record), Ready(true, false));
    assert Drop(s0, s.host.nextId).host.tasks == s.host.tasks;
    assert Drop(s0, s.host.nextId) == s.(host := s.host.(nextId := s.host.nextId + 1));
    hide EnqueueRemove, Inv;
  }

  lemma OwnedRemovalEnds(s: State, record: Record)
    requires s.host.queue == [] && s.host.nextId !in s.host.tasks && Accepts(record)
    ensures var hit := s.host.store == Some(record);
            Reaches(EnqueueRemove(s, record, Removing(record, false, true)), RemoveRun(s.host.nextId),
                    s.(inFlight := false, timer := if hit then None else s.timer,
                       host := s.host.(store := if hit then None else s.host.store, nextId := s.host.nextId + 1)))
  {
    hide Step, Enabled, Moves, Reaches, SchemaAccepts;
    var id, hit := s.host.nextId, s.host.store == Some(record);
    var s1 := EnqueueRemove(s, record, Removing(record, false, true));
    var s2 := RunStoreOp(s1, true);
    MoveStoreOp(s1);
    assert s2.host.tasks[id] == Task(Removing(record, false, true), Ready(true, hit));
    var t := Continue(s2, id);
    MoveContinue(s2, id);
    assert t.host.tasks == s.host.tasks;
    ReachesNothing(t);
    PrependTwo(s1, DoStoreOp(true), s2, DoContinue(id), t, [], t);
  }
}
