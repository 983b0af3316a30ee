/**
 The unknown-failure fallback: after one conservative continuation for an
 unknown failure code, the next terminal failure of the same code goes to the
 operator.
 */
module ApiRecoveryFallback {
  import opened Wrappers
  import opened ApiRecoveryRecords
  import opened ApiRecoveryMachine
  import opened ApiRecoveryInvariants
  import opened ApiRecoverySafety

  /**
   One use of the fallback: the recovering record `spent` it on its unknown
   code, and `turn` is a later turn, the one that fails with that code again.
   */
  datatype Fallback = Fallback(spent: Record, turn: nat) {
    predicate Proper() {
      && spent.Recovering? && spent.base.fallbackUsed && spent.base.failure.code.Other?
      && spent.base.turn < turn
    }
    function Code(): Code { spent.base.failure.code }
  }

  // ---- What a turn's end makes of a record ------------------------------------

  /**
   A candidate inherits a spent fallback exactly from a current recovering
   record that spent it on the same unknown code, for the same assignment, still
   at the old continuation or at the resumed one, and, for a goal, while the live
   goal is active at the ref it was resumed to.
   */
  lemma CarriesExactly(w: World, assignment: Assignment, prior: Option<Record>, failure: Failure)
    ensures CarryUnknownFallback(w, assignment, prior, failure) <==>
              && failure.code.Other? && prior.Some? && prior.value.Recovering? && prior.value.base.fallbackUsed
              && failure.code == prior.value.base.failure.code
              && (assignment == prior.value.base.assignment
                  || assignment == prior.value.base.assignment.(continuation := prior.value.resumed))
              && match prior.value.resumed
                 case ReviewContinuation(_, _) => true
                 case GoalContinuation(id, revision, hash) =>
                   w.goal.phase.Active? && w.goal.id == id && w.goal.revision == revision && w.goal.objectiveHash == hash
  {
  }

  /** What the terminal of a failed turn becomes: scheduled for mechanical recovery, or an operator incident. */
  function Terminal(w: World, base: Base, eventSeq: nat): Record {
    var disposition := Classify(base.failure);
    if disposition.Automatic? || (disposition.Unknown? && !base.fallbackUsed)
    then Scheduled(base.(fallbackUsed := false), eventSeq, w.now as real + RetryDelay(base.failure, w.retryDelay))
    else Operator(base, eventSeq)
  }

  /** The turn end closes the recovery without a new incident. */
  predicate Closes(w: World, current: Record, event: TurnEnd) {
    || !event.reason.Failed? || Classify(event.reason.failure).Ignore?
    || w.agent.None? || w.assignment.None? || !SameAssignmentIdentity(w.assignment.value, current)
  }

  /** The record `settleRecovering` writes for a failed turn after the recovery. */
  function SettledTerminal(w: World, current: Record, event: TurnEnd): Record
    requires current.Recovering? && !Closes(w, current, event)
  {
    var failure := event.reason.failure;
    var spent := Classify(failure).Unknown? && current.base.fallbackUsed && current.base.failure.code == failure.code;
    Terminal(w, Base(w.assignment.value, event.turn, current.base.step, current.base.provider, failure, w.now, spent),
             event.eventSeq)
  }

  /** Settling by this turn end takes the record out of the table: removed, or replaced by a record the schema takes. */
  predicate Settles(w: World, current: Record, event: TurnEnd)
    requires current.Recovering?
  {
    Closes(w, current, event) || Accepts(SettledTerminal(w, current, event))
  }

  // ---- The bound's setting ----------------------------------------------------

  /** The spent record, up to the time its continuation was last repeated. */
  predicate SpentOf(f: Fallback, record: Record)
    requires f.spent.Recovering?
  {
    record.Recovering? && record == f.spent.(resumedAt := record.resumedAt)
  }

  predicate Ended(f: Fallback, w: World) { exists e | e in w.log :: e.turn == f.turn }

  /**
   The resumed goal or review and the assignment are those the spent record
   names, the agent is there, and a resumed goal is armed while it is idle.
   */
  predicate Unchanged(f: Fallback, w: World)
    requires f.spent.Recovering?
  {
    var resumed := f.spent.resumed;
    && w.agent.Some?
    && w.assignment.Some?
    && w.assignment.value.sessionId == w.sessionId
    && SameAssignmentIdentity(w.assignment.value, f.spent)
    && (match resumed
        case GoalContinuation(id, revision, hash) =>
          && (w.assignment.value.continuation == f.spent.base.assignment.continuation
              || w.assignment.value.continuation == resumed)
          && w.goal.phase.Active? && w.goal.id == id && w.goal.revision == revision && w.goal.objectiveHash == hash
          && (w.goal.armed || w.status.Running?)
        case ReviewContinuation(_, _) =>
          w.assignment.value.continuation == resumed && w.reviewRoute)
  }

  /** The request error leaves a candidate in the pending map. */
  predicate LeavesCandidate(s: State, failure: Failure, retried: bool) {
    var w := s.host.world;
    && !retried && s.started && !Classify(failure).Ignore?
    && w.agent.Some? && w.assignment.Some? && w.assignment.value.sessionId == w.sessionId
  }

  /**
   The step lets a turn before `f.turn` take the spent record out of sight: its
   request error leaves a candidate, or its flushed end settles the record.
   */
  predicate Takes(f: Fallback, s: State, a: Action) {
    var w := s.host.world;
    match a
    case DoRequestError(_, _, failure, retried) =>
      w.status.Running? && w.status.turn < f.turn && LeavesCandidate(s, failure, retried)
    case DoFlush(id, true) =>
      && id in s.host.tasks && s.host.tasks[id].pc.SettleFlush?
      && var current, event := s.host.tasks[id].pc.current, s.host.tasks[id].pc.event;
         && current.Recovering? && event.turn < f.turn && s.started && SameRecord(s.host.store, current)
         && Settles(w, current, event)
    case _ => false
  }

  /**
   What the claim excludes: adapter updates and crashes altogether, a turn
   before `f.turn` that takes the spent record away, and until `f.turn` has ended
   any change of target, a departing agent or a review reported stale.  That
   turn ends in an error with the spent code; turns before it end in any way.
   Failed writes, flushes and wakes, disposal, restarts of the runtime and every
   repetition of its edges are allowed.
   */
  predicate Allowed(f: Fallback, s: State, a: Action)
    requires f.spent.Recovering?
  {
    var w := s.host.world;
    && !a.DoAdapterEdge? && !a.Crashes? && !Takes(f, s, a)
    && (a.TurnEnds? && w.status.Running? && w.status.turn == f.turn ==>
          a.reason.Failed? && a.reason.failure.code == f.Code())
    && (!Ended(f, w) ==>
          && Unchanged(f, w)
          && !a.AgentLeaves?
          && (a.DoReview? ==> !a.wake.Stale?)
          && (a.TurnStarts? ==> a.turn <= f.turn))
  }

  predicate AllowedRun(f: Fallback, s: State, run: seq<Action>)
    requires f.spent.Recovering? && ValidRun(s, run)
    decreases |run|
  {
    run == [] || (Allowed(f, s, run[0]) && AllowedRun(f, Step(s, run[0]), run[1..]))
  }

  /** The spent record is stored and nothing else is under way for the Session. */
  predicate Settled(f: Fallback, s: State) {
    && s.host.store == Some(f.spent) && s.pending.None? && s.host.queue == [] && !s.inFlight
    && s.host.world.status.Idle? && s.host.world.lastTurn < f.turn
    && (forall e :: e in s.host.world.log ==> e.turn < f.turn)
  }

  // ---- After the turn's error was seen ---------------------------------------

  /** No record of the turn is scheduled, and older records are the spent one or an operator incident. */
  predicate RecordOk(f: Fallback, record: Record) {
    && (record.base.turn == f.turn ==>
          record.Operator? || (record.Awaiting? && (record.base.fallbackUsed || record.base.failure.code != f.Code())))
    && (record.base.turn < f.turn ==>
          && record.base.turn == f.spent.base.turn
          && (record.Operator?
              || (record.Recovering? && record.base.fallbackUsed && record.base.failure.code == f.Code())))
  }

  predicate TaskOk(f: Fallback, pc: Pc) {
    match pc
    case Resumed(record, _) => RecordOk(f, record)
    case Waking(record, _) => RecordOk(f, record)
    case _ => true
  }

  predicate LogOk(f: Fallback, log: seq<TurnEnd>) {
    forall e :: e in log && e.turn == f.turn ==> e.reason.Failed? && e.reason.failure.code == f.Code()
  }

  predicate Guarded(f: Fallback, s: State) {
    var h := s.host;
    && (h.store.Some? ==> RecordOk(f, h.store.value))
    && (s.pending.Some? ==> RecordOk(f, s.pending.value))
    && (forall i :: 0 <= i < |h.queue| && h.queue[i].Put? ==> RecordOk(f, h.queue[i].record))
    && (forall id :: id in h.tasks ==> TaskOk(f, h.tasks[id].pc))
    && LogOk(f, h.world.log)
    && h.world.lastTurn >= f.turn
    && (h.world.status.Running? ==> h.world.status.turn >= f.turn)
    && (h.world.status.Running? && h.world.status.hook.NotCalled? ==> h.world.status.turn > f.turn)
  }

  lemma GuardedSpawn(f: Fallback, s: State, pc: Pc, signal: Signal)
    requires Guarded(f, s) && TaskOk(f, pc)
    ensures Guarded(f, Spawn(s, pc, signal))
  {
  }

  lemma GuardedPut(f: Fallback, s: State, record: Record, pc: Pc)
    requires Guarded(f, s) && TaskOk(f, pc) && RecordOk(f, record)
    ensures Guarded(f, EnqueuePut(s, record, pc))
  {
    hide Accepts, RecordOk, LogOk;
    GuardedSpawn(f, s, pc, Blocked);
    GuardedSpawn(f, s, pc, Ready(false, false));
  }

  lemma GuardedRemove(f: Fallback, s: State, record: Record, owner: bool)
    requires Guarded(f, s)
    ensures Guarded(f, RemoveCurrent(s, record, owner))
  {
    var u := if SameRecord(s.pending, record) then s.(pending := None) else s;
    GuardedSpawn(f, u, Removing(record, true, owner), Blocked);
    GuardedSpawn(f, u, Removing(record, false, owner), Blocked);
  }

  lemma GuardedSessionEvent(f: Fallback, s: State, event: TurnEnd)
    requires Guarded(f, s)
    ensures Guarded(f, SessionEvent(s, event))
  {
  }

  lemma GuardedResumeExact(f: Fallback, s: State, record: Record, caller: nat, expected: Continuation,
                           applied: Option<Continuation>)
    requires Guarded(f, s) && Acting(record) && SameRecord(s.host.store, record)
    ensures Guarded(f, ResumeExact(s, record, caller, expected, applied))
  {
  }

  lemma GuardedResumeScheduled(f: Fallback, s: State, record: Record, known: Option<nat>)
    requires Guarded(f, s) && record.Scheduled?
    ensures Guarded(f, ResumeScheduled(s, record, known))
  {
    var w := s.host.world;
    if SameRecord(s.host.store, record) && w.agent.Some? {
      var own := record.base.assignment.continuation;
      GuardedResumeExact(f, s, record, w.agent.value, own, AppliedGoalContinuation(w, record));
      GuardedResumeExact(f, s, record, w.agent.value, own, None);
      GuardedRemove(f, s, record, false);
    }
  }

  lemma GuardedResumeRecovering(f: Fallback, s: State, record: Record, caller: nat)
    requires Guarded(f, s) && record.Recovering?
    ensures Guarded(f, ResumeRecovering(s, record, caller))
  {
    if SameRecord(s.host.store, record) {
      GuardedRemove(f, s, record, false);
      GuardedResumeExact(f, s, record, caller, record.resumed, None);
      GuardedResumeExact(f, s, record, caller, record.base.assignment.continuation, None);
    }
  }

  lemma GuardedAgentReady(f: Fallback, s: State, caller: nat)
    requires Guarded(f, s)
    ensures Guarded(f, AgentReady(s, caller))
  {
    if s.started && s.pending.None? && s.host.store.Some? {
      var record := s.host.store.value;
      if record.Recovering? {
        GuardedResumeRecovering(f, s, record, caller);
      } else if record.Scheduled? {
        GuardedResumeScheduled(f, s, record, Some(caller));
      }
    }
  }

  lemma GuardedStart(f: Fallback, s: State)
    requires Guarded(f, s)
    ensures Guarded(f, StartRuntime(s))
  {
    if !s.started && s.host.world.agent.Some? {
      GuardedAgentReady(f, s.(started := true), s.host.world.agent.value);
    }
  }

  /** A request error met in this phase belongs to a later turn. */
  lemma GuardedRequestError(f: Fallback, s: State, step: nat, provider: string, failure: Failure, retried: bool)
    requires Guarded(f, s) && Enabled(s, DoRequestError(step, provider, failure, retried))
    ensures Guarded(f, RequestError(s, step, provider, failure, retried))
  {
    hide Accepts, EnqueuePut, LogOk, TaskOk, CarryUnknownFallback;
    var w := s.host.world;
    if !retried && s.started && !Classify(failure).Ignore? && w.agent.Some? && w.assignment.Some?
       && w.assignment.value.sessionId == w.sessionId {
      var candidate := Awaiting(Base(w.assignment.value, w.status.turn, step, provider, failure, w.now,
                                     CarryUnknownFallback(w, w.assignment.value, CurrentRecord(s), failure)));
      var u := WithWorld(ClearTimer(s), w.(status := Running(w.status.turn, Called))).(pending := Some(candidate));
      assert RecordOk(f, candidate);
      TaskOfHook(f, candidate);
      GuardedPut(f, u, candidate, HookPut(candidate));
    }
  }

  lemma TaskOfHook(f: Fallback, candidate: Record)
    ensures TaskOk(f, HookPut(candidate))
  {
  }

  /** The candidate of the turn carries the spent fallback, so its terminal goes to the operator. */
  lemma GuardedTerminal(f: Fallback, s: State, event: TurnEnd, current: Record)
    requires f.Proper() && Guarded(f, s) && event in s.host.world.log
    requires current.Awaiting? && event.turn == current.base.turn
    ensures Guarded(f, AfterTerminalFlush(s, event, current))
  {
    hide RemoveCurrent, RetryDelay;
    if !s.started || !SameRecord(CurrentRecord(s), current) { return; }
    if !event.reason.Failed? || !SameFailure(event.reason.failure, current.base.failure) {
      GuardedRemove(f, s, current, false);
      return;
    }
    assert RecordOk(f, current);
    var w := s.host.world;
    var disposition := Classify(current.base.failure);
    if disposition.Automatic? || (disposition.Unknown? && !current.base.fallbackUsed) {
      var next := Scheduled(current.base.(fallbackUsed := false), event.eventSeq,
                            w.now as real + RetryDelay(current.base.failure, w.retryDelay));
      assert AfterTerminalFlush(s, event, current) == EnqueuePut(s, next, PublishScheduled(next, Some(current)));
      GuardedPut(f, s, next, PublishScheduled(next, Some(current)));
    } else {
      var next := Operator(current.base, event.eventSeq);
      assert AfterTerminalFlush(s, event, current) == EnqueuePut(s, next, PublishOperator(next, Some(current)));
      GuardedPut(f, s, next, PublishOperator(next, Some(current)));
    }
  }

  /** A settling whose terminal the schema refuses leaves only its activation behind. */
  lemma RefusedSettling(s: State, event: TurnEnd, current: Record) returns (pc: Pc)
    requires s.started && current.Recovering? && SameRecord(s.host.store, current)
    requires !Settles(s.host.world, current, event)
    ensures pc.PublishScheduled? || pc.PublishOperator?
    ensures AfterSettleFlush(s, event, current) == Spawn(s, pc, Ready(false, false))
  {
    hide RetryDelay, Accepts;
    var terminal := SettledTerminal(s.host.world, current, event);
    pc := if terminal.Operator? then PublishOperator(terminal, None) else PublishScheduled(terminal, None);
  }

  /** Settling the spent record by that turn recognises the repeated code. */
  lemma GuardedSettle(f: Fallback, s: State, event: TurnEnd, current: Record)
    requires f.Proper() && Guarded(f, s) && event in s.host.world.log
    requires current.Recovering? && event.turn > current.base.turn
    requires event.turn < f.turn && s.started && SameRecord(s.host.store, current) ==> !Settles(s.host.world, current, event)
    ensures Guarded(f, AfterSettleFlush(s, event, current))
  {
    hide RemoveCurrent, RetryDelay;
    if !s.started || !SameRecord(s.host.store, current) { return; }
    if event.turn < f.turn {
      var pc := RefusedSettling(s, event, current);
      GuardedSpawn(f, s, pc, Ready(false, false));
      return;
    }
    var w := s.host.world;
    if !event.reason.Failed? || Classify(event.reason.failure).Ignore? || w.agent.None?
       || w.assignment.None? || !SameAssignmentIdentity(w.assignment.value, current) {
      GuardedRemove(f, s, current, false);
      return;
    }
    assert RecordOk(f, current);
    var failure := event.reason.failure;
    var disposition := Classify(failure);
    var base := Base(w.assignment.value, event.turn, current.base.step, current.base.provider, failure, w.now, false);
    var sameFallback := disposition.Unknown? && current.base.fallbackUsed && current.base.failure.code == failure.code;
    if disposition.Automatic? || (disposition.Unknown? && !sameFallback) {
      var next := Scheduled(base, event.eventSeq, w.now as real + RetryDelay(failure, w.retryDelay));
      assert AfterSettleFlush(s, event, current) == EnqueuePut(s, next, PublishScheduled(next, None));
      GuardedPut(f, s, next, PublishScheduled(next, None));
    } else {
      var next := Operator(base.(fallbackUsed := sameFallback), event.eventSeq);
      assert AfterSettleFlush(s, event, current) == EnqueuePut(s, next, PublishOperator(next, None));
      GuardedPut(f, s, next, PublishOperator(next, None));
    }
  }

  lemma GuardedApplied(f: Fallback, s: State, record: Record, resumed: Continuation)
    requires f.Proper() && Guarded(f, s) && Acting(record) && RecordOk(f, record)
    ensures Guarded(f, AfterApplied(s, record, resumed))
  {
  }

  lemma GuardedDrop(f: Fallback, s: State, id: nat)
    requires Guarded(f, s)
    ensures Guarded(f, Drop(s, id))
  {
  }

  lemma GuardedContinueOwner(f: Fallback, s: State, id: nat)
    requires f.Proper() && Guarded(f, s) && Enabled(s, DoContinue(id)) && Owner(s.host.tasks[id].pc)
    ensures Guarded(f, Continue(s, id))
  {
    hide AfterApplied, RemoveCurrent, ResumeScheduled, Arm;
    var pc := s.host.tasks[id].pc;
    assert TaskOk(f, pc);
    var t := Drop(s, id);
    GuardedDrop(f, s, id);
    match pc {
      case Resumed(record, resumed) =>
        assert Continue(s, id) == AfterApplied(t, record, resumed);
        GuardedApplied(f, t, record, resumed);
      case Closing(record) =>
        assert Continue(s, id) == if t.started then RemoveCurrent(t, record, true) else EndActivation(t, true);
        GuardedRemove(f, t, record, true);
      case Writing(_) => GuardedSpawn(f, t, Checkpointing, Blocked);
      case Removing(_, _, _) =>
    }
  }

  lemma GuardedContinue(f: Fallback, s: State, id: nat)
    requires f.Proper() && Guarded(f, s) && Enabled(s, DoContinue(id)) && !Owner(s.host.tasks[id].pc)
    ensures Guarded(f, Continue(s, id))
  {
    hide AfterApplied, RemoveCurrent, ResumeScheduled, Arm;
    var pc := s.host.tasks[id].pc;
    var t := Drop(s, id);
    GuardedDrop(f, s, id);
    if pc.Rescheduling? {
      assert Continue(s, id) == if s.host.tasks[id].signal.ok && SameRecord(t.host.store, pc.next)
                                then ResumeScheduled(t, pc.next, Some(pc.caller)) else t;
      GuardedResumeScheduled(f, t, pc.next, Some(pc.caller));
    } else {
      ContinueFrame(s, id);
    }
  }

  /** A flush changes nothing a settling looks at. */
  lemma SettlesAlike(w: World, v: World, current: Record, event: TurnEnd)
    requires current.Recovering?
    requires v == w.(saved := v.saved, goalSaved := v.goalSaved)
    ensures Settles(w, current, event) <==> Settles(v, current, event)
  {
  }

  lemma GuardedFlush(f: Fallback, s: State, id: nat, ok: bool)
    requires f.Proper() && Guarded(f, s) && Inv(s) && Enabled(s, DoFlush(id, ok)) && !Takes(f, s, DoFlush(id, ok))
    ensures Guarded(f, FlushDone(s, id, ok))
  {
    hide AfterTerminalFlush, AfterSettleFlush, Provenance, EffectsGood, OneInFlight;
    var pc := s.host.tasks[id].pc;
    assert PcGood(s.host.world, pc);
    var t := Drop(if ok then Flushed(s) else s, id);
    assert Guarded(f, t);
    match pc {
      case TerminalFlush(event, current) => GuardedTerminal(f, t, event, current);
      case SettleFlush(event, current) =>
        if ok {
          SettlesAlike(s.host.world, t.host.world, current, event);
          GuardedSettle(f, t, event, current);
        }
      case _ =>
    }
  }

  lemma GuardedEnter(f: Fallback, s: State, id: nat, outcome: ResumeOutcome)
    requires f.Proper() && Guarded(f, s) && Enabled(s, DoEnter(id, outcome))
    ensures Guarded(f, EnterMaintenance(s, id, outcome))
  {
    hide AfterApplied;
    var pc := s.host.tasks[id].pc;
    var record := pc.record;
    var w := s.host.world;
    var t := Drop(s, id);
    assert Guarded(f, t);
    GuardedSpawn(f, t, Closing(record), Ready(true, false));
    if SameRecord(s.host.store, record) {
      assert RecordOk(f, record);
      var inside := WithWorld(t, w.(status := Maintenance));
      if pc.applied.Some? {
        GuardedApplied(f, inside, record, pc.applied.value);
      }
    }
  }

  lemma GuardedReview(f: Fallback, s: State, id: nat, wake: WakeOutcome)
    requires f.Proper() && Guarded(f, s) && Enabled(s, DoReview(id, wake))
    ensures Guarded(f, ReviewDone(s, id, wake))
  {
    hide AfterApplied;
    var pc := s.host.tasks[id].pc;
    assert TaskOk(f, pc);
    var t := Drop(s, id);
    assert Guarded(f, t);
    GuardedSpawn(f, LeaveMaintenance(t), Closing(pc.record), Ready(true, false));
    GuardedApplied(f, t, pc.record, pc.expected);
  }

  lemma GuardedAgentCreated(f: Fallback, s: State, caller: nat)
    requires Guarded(f, s)
    ensures Guarded(f, AgentCreated(s, caller))
  {
    GuardedAgentReady(f, s, caller);
  }

  lemma GuardedTimer(f: Fallback, s: State)
    requires Guarded(f, s) && Enabled(s, DoTimer)
    ensures Guarded(f, TimerFire(s))
  {
    GuardedResumeScheduled(f, ClearTimer(s), s.timer.value, None);
  }

  lemma GuardedStoreOp(f: Fallback, s: State, ok: bool)
    requires Guarded(f, s) && s.host.queue != []
    ensures Guarded(f, RunStoreOp(s, ok))
  {
    hide RecordOk, LogOk;
  }

  lemma GuardedStep(f: Fallback, s: State, a: Action)
    requires f.Proper() && Guarded(f, s) && Inv(s) && Enabled(s, a) && Allowed(f, s, a)
    ensures Guarded(f, Step(s, a))
  {
    hide Inv, StartRuntime, RequestError, SessionEvent, AgentReady, Continue, FlushDone, EnterMaintenance, ReviewDone,
      AgentCreated, TimerFire, AdapterEdge, RunStoreOp;
    match a
    case DoStart => GuardedStart(f, s);
    case DoStoreOp(ok) => GuardedStoreOp(f, s, ok);
    case DoRequestError(step, provider, failure, retried) => GuardedRequestError(f, s, step, provider, failure, retried);
    case DoSessionEvent(event) => GuardedSessionEvent(f, s, event);
    case DoAgentReady(caller) => GuardedAgentReady(f, s, caller);
    case DoAgentCreated(caller) => GuardedAgentCreated(f, s, caller);
    case DoTimer => GuardedTimer(f, s);
    case DoContinue(id) =>
      if Owner(s.host.tasks[id].pc) { GuardedContinueOwner(f, s, id); } else { GuardedContinue(f, s, id); }
    case DoFlush(id, ok) => GuardedFlush(f, s, id, ok);
    case DoEnter(id, outcome) => GuardedEnter(f, s, id, outcome);
    case DoReview(id, wake) => GuardedReview(f, s, id, wake);
    case _ =>
  }

  // ---- Before it ------------------------------------------------------------------

  /**
   The spent record stays stored, nothing is pending, the only writes under way
   repeat it, and a claim acts for it on its resumed continuation.
   */
  predicate CalmTask(f: Fallback, s: State, pc: Pc)
    requires f.spent.Recovering?
  {
    match pc
    case Claiming(record, caller, expected, applied) =>
      && s.host.store == Some(record) && record.base.failure.retryAfter != Some(NotANumber)
      && s.host.world.agent == Some(caller) && applied.None?
      && expected.ReviewContinuation? && expected == f.spent.resumed
    case Waking(record, expected) => SpentOf(f, record) && expected == f.spent.resumed
    case Resumed(_, _) => false
    case Closing(_) => false
    case _ => true
  }

  predicate CalmOp(f: Fallback, s: State, op: Op)
    requires f.spent.Recovering?
  {
    && op.Put? && SpentOf(f, op.record)
    && op.id in s.host.tasks && s.host.tasks[op.id].pc.Writing? && s.host.tasks[op.id].signal.Blocked?
  }

  predicate Calm(f: Fallback, s: State)
    requires f.spent.Recovering?
  {
    var h := s.host;
    && h.store.Some? && SpentOf(f, h.store.value)
    && s.pending.None?
    && |h.queue| <= 1
    && (forall i :: 0 <= i < |h.queue| ==> CalmOp(f, s, h.queue[i]))
    && (forall id :: id in h.tasks ==> CalmTask(f, s, h.tasks[id].pc))
    && (forall e :: e in h.world.log ==> e.turn < f.turn)
    && (if h.world.status.Running? then h.world.status.turn == h.world.lastTurn <= f.turn
        else h.world.lastTurn < f.turn)
  }

  predicate InPhase(f: Fallback, s: State)
    requires f.spent.Recovering?
  {
    Calm(f, s) || Guarded(f, s)
  }

  lemma SettledIsCalm(f: Fallback, s: State)
    requires f.Proper() && Inv(s) && Settled(f, s)
    ensures Calm(f, s)
  {
    forall id | id in s.host.tasks ensures CalmTask(f, s, s.host.tasks[id].pc) {
      assert id !in Owners(s);
    }
  }

  lemma CalmSpawn(f: Fallback, s: State, pc: Pc, signal: Signal)
    requires f.spent.Recovering? && Shape(s) && Calm(f, s) && CalmTask(f, s, pc)
    ensures Calm(f, Spawn(s, pc, signal))
  {
  }

  /** An activation that is not about to be resumed by a queued write may go. */
  lemma CalmDrop(f: Fallback, s: State, id: nat)
    requires f.spent.Recovering? && Calm(f, s) && id in s.host.tasks
    requires s.host.tasks[id].signal.Ready? || !s.host.tasks[id].pc.Writing?
    ensures Calm(f, Drop(s, id))
  {
  }

  /** Calm looks only at store, pending, queue, tasks, agent, log and turn. */
  lemma CalmFrame(f: Fallback, s: State, t: State)
    requires f.spent.Recovering? && Calm(f, s)
    requires t.pending == s.pending && t.host.store == s.host.store && t.host.queue == s.host.queue
    requires t.host.tasks == s.host.tasks && t.host.world.agent == s.host.world.agent
    requires t.host.world.log == s.host.world.log && t.host.world.lastTurn == s.host.world.lastTurn
    requires t.host.world.status.Running? <==> s.host.world.status.Running?
    requires t.host.world.status.Running? ==> t.host.world.status.turn == s.host.world.status.turn
    ensures Calm(f, t)
  {
  }

  lemma CalmAgentReady(f: Fallback, s: State, caller: nat)
    requires f.Proper() && Inv(s) && Calm(f, s) && Unchanged(f, s.host.world)
    ensures Calm(f, AgentReady(s, caller))
  {
  }

  lemma CalmStart(f: Fallback, s: State)
    requires f.Proper() && Inv(s) && Calm(f, s) && Unchanged(f, s.host.world)
    ensures Calm(f, StartRuntime(s))
  {
  }

  /** A queued repetition belongs to the activation in flight. */
  lemma CalmWriterOwns(f: Fallback, s: State)
    requires f.spent.Recovering? && Calm(f, s)
    ensures Owners(s) == {} ==> s.host.queue == []
  {
    if s.host.queue != [] {
      assert CalmOp(f, s, s.host.queue[0]);
      assert s.host.queue[0].id in Owners(s);
    }
  }

  /** Repeating the wake writes the spent record again. */
  lemma CalmApplied(f: Fallback, s: State, record: Record, resumed: Continuation)
    requires f.Proper() && Shape(s) && Calm(f, s) && SpentOf(f, record) && resumed == f.spent.resumed
    requires s.host.world.status.Maintenance? && Owners(s) == {}
    ensures Calm(f, AfterApplied(s, record, resumed))
  {
    CalmWriterOwns(f, s);
    if s.started {
      var next := Recovering(
        record.base.(fallbackUsed := record.base.fallbackUsed || Classify(record.base.failure).Unknown?),
        record.terminalSeq, resumed, s.host.world.now);
      assert SpentOf(f, next);
      if !Accepts(next) {
        CalmSpawn(f, s, Writing(next), Ready(false, false));
        return;
      }
      var u := Spawn(s, Writing(next), Blocked);
      CalmSpawn(f, s, Writing(next), Blocked);
      var t := EnqueuePut(s, next, Writing(next));
      assert AfterApplied(s, record, resumed) == t;
      assert t.host.queue == [Put(next, s.host.nextId)];
      forall k | k in t.host.tasks ensures CalmTask(f, t, t.host.tasks[k].pc) {
        assert CalmTask(f, u, u.host.tasks[k].pc);
      }
    } else {
      CalmFrame(f, s, EndActivation(LeaveMaintenance(s), true));
    }
  }

  lemma CalmStoreOp(f: Fallback, s: State, ok: bool)
    requires f.Proper() && Inv(s) && Calm(f, s) && s.host.queue != []
    ensures Calm(f, RunStoreOp(s, ok))
  {
    var t := RunStoreOp(s, ok);
    assert CalmOp(f, s, s.host.queue[0]);
    var w := s.host.queue[0].id;
    assert w in Owners(s);
    forall k | k in t.host.tasks ensures CalmTask(f, t, t.host.tasks[k].pc) {
      assert CalmTask(f, s, s.host.tasks[k].pc);
      if s.host.tasks[k].pc.Claiming? {
        assert k in Owners(s);
      }
    }
  }

  lemma CalmWritten(f: Fallback, s: State, id: nat)
    requires f.Proper() && Inv(s) && Calm(f, s) && Enabled(s, DoContinue(id)) && s.host.tasks[id].pc.Writing?
    ensures Calm(f, Continue(s, id))
  {
    var t := Drop(s, id);
    CalmDrop(f, s, id);
    if s.host.tasks[id].signal.ok && t.started {
      CalmSpawn(f, t, Checkpointing, Blocked);
    } else {
      CalmFrame(f, t, EndActivation(LeaveMaintenance(t), true));
    }
  }

  lemma CalmContinue(f: Fallback, s: State, id: nat)
    requires f.Proper() && Inv(s) && Calm(f, s) && Enabled(s, DoContinue(id))
    ensures Calm(f, Continue(s, id))
  {
    hide AfterApplied, RemoveCurrent, ResumeScheduled, Arm;
    var pc := s.host.tasks[id].pc;
    assert CalmTask(f, s, pc);
    var t := Drop(s, id);
    CalmDrop(f, s, id);
    if pc.Writing? {
      CalmWritten(f, s, id);
    } else if pc.Removing? {
      CalmFrame(f, t, Continue(s, id));
    } else if pc.Rescheduling? {
      assert Continue(s, id) == t;
    } else {
      ContinueFrame(s, id);
      CalmFrame(f, t, Continue(s, id));
    }
  }

  lemma CalmFlush(f: Fallback, s: State, id: nat, ok: bool)
    requires f.Proper() && Inv(s) && Calm(f, s) && Enabled(s, DoFlush(id, ok)) && !Takes(f, s, DoFlush(id, ok))
    ensures Calm(f, FlushDone(s, id, ok))
  {
    hide AfterTerminalFlush, AfterSettleFlush, Settles;
    var pc := s.host.tasks[id].pc;
    assert PcGood(s.host.world, pc);
    var u := if ok then Flushed(s) else s;
    CalmFrame(f, s, u);
    CalmDrop(f, u, id);
    var t := Drop(u, id);
    match pc {
      case Checkpointing => CalmFrame(f, t, EndActivation(LeaveMaintenance(t), true));
      case TerminalFlush(event, current) => CalmTerminal(f, t, event, current);
      case SettleFlush(event, current) =>
        if ok {
          SettlesAlike(s.host.world, t.host.world, current, event);
          CalmSettle(f, t, event, current);
        }
    }
  }

  /** A candidate handled now is no longer the current record. */
  lemma CalmTerminal(f: Fallback, s: State, event: TurnEnd, current: Record)
    requires f.Proper() && Calm(f, s) && current.Awaiting?
    ensures AfterTerminalFlush(s, event, current) == s
  {
  }

  lemma CalmSettle(f: Fallback, s: State, event: TurnEnd, current: Record)
    requires f.Proper() && Shape(s) && Calm(f, s) && current.Recovering?
    requires s.started && SameRecord(s.host.store, current) ==> !Settles(s.host.world, current, event)
    ensures Calm(f, AfterSettleFlush(s, event, current))
  {
    hide Settles, Calm;
    if s.started && SameRecord(s.host.store, current) {
      var pc := RefusedSettling(s, event, current);
      hide AfterSettleFlush;
      CalmSpawn(f, s, pc, Ready(false, false));
    }
  }

  lemma CalmReject(f: Fallback, s: State, id: nat)
    requires f.Proper() && Calm(f, s) && Enabled(s, DoReject(id))
    ensures Calm(f, ClaimRejected(s, id))
  {
  }

  lemma CalmEnter(f: Fallback, s: State, id: nat, outcome: ResumeOutcome)
    requires f.Proper() && Inv(s) && Calm(f, s) && Unchanged(f, s.host.world) && Enabled(s, DoEnter(id, outcome))
    ensures Calm(f, EnterMaintenance(s, id, outcome))
  {
    var pc := s.host.tasks[id].pc;
    assert CalmTask(f, s, pc);
    assert AssignmentAndContinuationMatch(s.host.world, pc.record, pc.expected);
    var w := s.host.world;
    var t := Drop(s, id);
    CalmDrop(f, s, id);
    DropOwner(s, id);
    if !s.started || outcome.ResumeThrows? {
      CalmFrame(f, t, EndActivation(t, true));
    } else {
      var effect := Effect(pc.record, pc.expected, w.now, s.host.store, w.goal, w.assignment, w.agent, pc.caller);
      var inside := WithWorld(t, w.(status := Maintenance));
      var v := inside.(host := inside.host.(effects := s.host.effects + [effect]));
      CalmFrame(f, t, v);
      CalmSpawn(f, v, Waking(pc.record, pc.expected), Blocked);
      assert EnterMaintenance(s, id, outcome) == Spawn(v, Waking(pc.record, pc.expected), Blocked);
    }
  }

  lemma CalmReview(f: Fallback, s: State, id: nat, wake: WakeOutcome)
    requires f.Proper() && Inv(s) && Calm(f, s) && Enabled(s, DoReview(id, wake)) && !wake.Stale?
    ensures Calm(f, ReviewDone(s, id, wake))
  {
    var pc := s.host.tasks[id].pc;
    assert CalmTask(f, s, pc) && PcGood(s.host.world, pc);
    var t := Drop(s, id);
    CalmDrop(f, s, id);
    DropOwner(s, id);
    if wake.Started? {
      CalmApplied(f, t, pc.record, pc.expected);
    } else {
      CalmFrame(f, t, EndActivation(LeaveMaintenance(t), true));
    }
  }

  /** The turn's request error meets the spent record, so its candidate inherits the fallback. */
  lemma CalmRequestError(f: Fallback, s: State, step: nat, provider: string, failure: Failure, retried: bool)
    requires f.Proper() && Inv(s) && Calm(f, s) && Unchanged(f, s.host.world)
    requires var a := DoRequestError(step, provider, failure, retried); Enabled(s, a) && !Takes(f, s, a)
    ensures InPhase(f, RequestError(s, step, provider, failure, retried))
  {
    hide EnqueuePut, Accepts;
    var w := s.host.world;
    var t := RequestError(s, step, provider, failure, retried);
    if !LeavesCandidate(s, failure, retried) {
      CalmFrame(f, s, t);
    } else {
      var carried := CarryUnknownFallback(w, w.assignment.value, CurrentRecord(s), failure);
      assert failure.code == f.Code() ==> carried;
      var candidate := Awaiting(Base(w.assignment.value, f.turn, step, provider, failure, w.now, carried));
      var u := WithWorld(ClearTimer(s), w.(status := Running(f.turn, Called))).(pending := Some(candidate));
      assert RecordOk(f, candidate) && RecordOk(f, s.host.store.value);
      forall i | 0 <= i < |s.host.queue| ensures RecordOk(f, s.host.queue[i].record) {
        assert CalmOp(f, s, s.host.queue[i]);
      }
      forall id | id in s.host.tasks ensures TaskOk(f, s.host.tasks[id].pc) {
        assert CalmTask(f, s, s.host.tasks[id].pc);
      }
      assert Guarded(f, u);
      assert t == EnqueuePut(u, candidate, HookPut(candidate));
      GuardedPut(f, u, candidate, HookPut(candidate));
    }
  }

  /** The turn ends without a candidate: the spent record itself may be settled. */
  lemma CalmTurnEnds(f: Fallback, s: State, eventSeq: nat, reason: Reason)
    requires f.Proper() && Calm(f, s) && Enabled(s, TurnEnds(eventSeq, reason))
    requires s.host.world.status.turn == f.turn ==> reason.Failed? && reason.failure.code == f.Code()
    ensures InPhase(f, Step(s, TurnEnds(eventSeq, reason)))
  {
  }

  lemma CalmTurnStarts(f: Fallback, s: State, turn: nat)
    requires f.Proper() && Calm(f, s) && Enabled(s, TurnStarts(turn)) && turn <= f.turn
    ensures Calm(f, Step(s, TurnStarts(turn)))
  {
  }

  lemma CalmNotEnded(f: Fallback, s: State)
    requires f.Proper() && Calm(f, s)
    ensures !Ended(f, s.host.world)
  {
  }

  lemma CalmDispose(f: Fallback, s: State)
    requires f.Proper() && Calm(f, s)
    ensures Calm(f, DisposeRuntime(s))
  {
  }

  /** A turn end before `f.turn` may start to settle the spent record. */
  lemma CalmSessionEvent(f: Fallback, s: State, event: TurnEnd)
    requires f.Proper() && Inv(s) && Calm(f, s)
    ensures Calm(f, SessionEvent(s, event))
  {
    hide Calm;
    assert CurrentRecord(s).Some? && CurrentRecord(s).value.Recovering? by { CalmCurrent(f, s); }
    if s.started && event.turn > CurrentRecord(s).value.base.turn {
      CalmSpawn(f, s, SettleFlush(event, CurrentRecord(s).value), Blocked);
    }
  }

  lemma CalmCurrent(f: Fallback, s: State)
    requires f.spent.Recovering? && Calm(f, s)
    ensures s.pending.None? && s.host.store.Some? && SpentOf(f, s.host.store.value)
  {
  }

  lemma CalmAgentCreated(f: Fallback, s: State, caller: nat)
    requires f.Proper() && Inv(s) && Calm(f, s) && Unchanged(f, s.host.world)
    ensures Calm(f, AgentCreated(s, caller))
  {
  }

  lemma CalmTimer(f: Fallback, s: State)
    requires f.Proper() && Calm(f, s) && Enabled(s, DoTimer)
    ensures Calm(f, TimerFire(s))
  {
  }

  lemma CalmAgent(f: Fallback, s: State)
    requires f.Proper() && Unchanged(f, s.host.world)
    ensures !Enabled(s, AgentAppears)
  {
  }

  lemma CalmStep(f: Fallback, s: State, a: Action)
    requires f.Proper() && Inv(s) && Calm(f, s) && Enabled(s, a) && Allowed(f, s, a)
    ensures InPhase(f, Step(s, a))
  {
    hide Inv, Calm, Guarded, StartRuntime, DisposeRuntime, RequestError, SessionEvent, AgentReady, AgentCreated,
      TimerFire, RunStoreOp, Continue, FlushDone, ClaimRejected, EnterMaintenance, ReviewDone, AdapterEdge, Unchanged;
    CalmNotEnded(f, s);
    match a
    case DoStart => CalmStart(f, s);
    case DoDispose => CalmDispose(f, s);
    case DoRequestError(step, provider, failure, retried) => CalmRequestError(f, s, step, provider, failure, retried);
    case DoSessionEvent(event) => CalmSessionEvent(f, s, event);
    case DoAgentReady(caller) => CalmAgentReady(f, s, caller);
    case DoAgentCreated(caller) => CalmAgentCreated(f, s, caller);
    case DoTimer => CalmTimer(f, s);
    case DoStoreOp(ok) => CalmStoreOp(f, s, ok);
    case DoContinue(id) => CalmContinue(f, s, id);
    case DoFlush(id, ok) => CalmFlush(f, s, id, ok);
    case DoReject(id) => CalmReject(f, s, id);
    case DoEnter(id, outcome) => CalmEnter(f, s, id, outcome);
    case DoReview(id, wake) => CalmReview(f, s, id, wake);
    case TurnStarts(turn) => CalmTurnStarts(f, s, turn);
    case TurnEnds(eventSeq, reason) => CalmTurnEnds(f, s, eventSeq, reason);
    case Tick(_) => CalmFrame(f, s, Step(s, a));
    case GoalChanges(_) => CalmFrame(f, s, Step(s, a));
    case AssignmentChanges(_) => CalmFrame(f, s, Step(s, a));
    case TimersWork(_) => CalmFrame(f, s, Step(s, a));
    case Checkpoint => CalmFrame(f, s, Step(s, a));
    case AgentAppears => CalmAgent(f, s);
    case _ =>
  }

  lemma {:induction false} PhaseOverRun(f: Fallback, s: State, run: seq<Action>)
    requires f.Proper() && Inv(s) && InPhase(f, s) && ValidRun(s, run) && AllowedRun(f, s, run)
    ensures InPhase(f, After(s, run))
    decreases |run|
  {
    if run != [] {
      if Calm(f, s) {
        CalmStep(f, s, run[0]);
      } else {
        GuardedStep(f, s, run[0]);
      }
      StepKeeps(s, run[0]);
      PhaseOverRun(f, Step(s, run[0]), run[1..]);
    }
  }

  // ---- The theorems -----------------------------------------------------------------

  /**
   Unknown-failure fallback bound.  A spent fallback is stored and nothing else
   is under way.  In every run in which no turn before takes the record away, a
   later turn failing with the same unknown code is never scheduled: not in the
   table, not in any queued write, whether its terminal came through an awaiting
   candidate or straight through settling the spent record.  Once past its
   terminal it is an operator incident.
   */
  lemma UnknownFallbackBound(f: Fallback, s: State, run: seq<Action>)
    requires f.Proper() && Inv(s) && Settled(f, s)
    requires ValidRun(s, run) && AllowedRun(f, s, run)
    ensures var h := After(s, run).host;
            && (h.store.Some? && h.store.value.base.turn == f.turn && !h.store.value.Awaiting? ==> h.store.value.Operator?)
            && (forall i :: 0 <= i < |h.queue| && h.queue[i].Put? && h.queue[i].record.base.turn == f.turn ==>
                  !h.queue[i].record.Scheduled?)
  {
    SettledIsCalm(f, s);
    PhaseOverRun(f, s, run);
    var t := After(s, run);
    if Calm(f, t) {
      forall i | 0 <= i < |t.host.queue| ensures t.host.queue[i].record.base.turn < f.turn {
        assert CalmOp(f, t, t.host.queue[i]);
      }
    }
  }

  // ---- Exactly what a failing turn leaves behind -----------------------------------

  /** A turn is running that has not reported its terminal request error yet. */
  predicate ReadyToFail(s: State, failure: Failure, eventSeq: nat) {
    var w := s.host.world;
    && s.started && s.host.queue == []
    && w.status.Running? && w.status.hook.NotCalled?
    && w.agent.Some? && w.assignment.Some? && w.assignment.value.sessionId == w.sessionId
    && (w.log != [] ==> w.log[|w.log| - 1].eventSeq < eventSeq)
    && !Classify(failure).Ignore?
  }

  /** A record the schema takes in its terminal form it takes as a candidate. */
  lemma TerminalShape(w: World, base: Base, eventSeq: nat)
    ensures var terminal := Terminal(w, base, eventSeq);
            (terminal.Scheduled? || terminal.Operator?) && terminal.base.failure == base.failure
  {
  }

  lemma TerminalNeedsCandidate(w: World, base: Base, eventSeq: nat)
    ensures Accepts(Terminal(w, base, eventSeq)) <==>
              && BaseAccepted(base) && eventSeq <= MAX_SAFE_INTEGER
              && (Terminal(w, base, eventSeq).Scheduled? ==> SafeWhole(Terminal(w, base, eventSeq).dueAt))
    ensures Accepts(Awaiting(base)) <==> BaseAccepted(base)
    ensures BaseAccepted(base) ==> base.failure.retryAfter != Some(NotANumber)
  {
  }

  /** The candidate the request error records. */
  function CandidateBase(s: State, step: nat, provider: string, failure: Failure): Base
    requires s.host.world.status.Running? && s.host.world.assignment.Some?
  {
    var w := s.host.world;
    Base(w.assignment.value, w.status.turn, step, provider, failure, w.now,
         CarryUnknownFallback(w, w.assignment.value, CurrentRecord(s), failure))
  }

  /** The turn's terminal record, were the schema to take it. */
  function TurnTerminal(s: State, step: nat, provider: string, failure: Failure, eventSeq: nat): Record
    requires s.host.world.status.Running? && s.host.world.assignment.Some?
  {
    Terminal(s.host.world, CandidateBase(s, step, provider, failure), eventSeq)
  }

  /** The store operation of a write, if the schema lets it be queued at all. */
  function Stores(record: Record): seq<Action> {
    if Accepts(record) then [DoStoreOp(true)] else []
  }

  /** Request error, candidate write, and the end of the turn. */
  function CandidateRun(s: State, step: nat, provider: string, failure: Failure, eventSeq: nat): seq<Action>
    requires s.host.world.status.Running? && s.host.world.assignment.Some?
  {
    [DoRequestError(step, provider, failure, false)] +
    (Stores(Awaiting(CandidateBase(s, step, provider, failure))) +
    ([DoContinue(s.host.nextId)] + ([TurnEnds(eventSeq, Failed(failure))] + [])))
  }

  /** The handling of that end: flush and terminal write; a NaN Retry-After stops it after the flush. */
  function TerminalRun(event: TurnEnd, id: nat, terminal: Record): seq<Action> {
    [DoSessionEvent(event)] +
    ([DoFlush(id, true)] +
    (if terminal.base.failure.retryAfter == Some(NotANumber) then [] else Stores(terminal) + ([DoContinue(id + 1)] + [])))
  }

  /** The turn fails and runs through undisturbed. */
  function FailingTurn(s: State, step: nat, provider: string, failure: Failure, eventSeq: nat): seq<Action>
    requires s.host.world.status.Running? && s.host.world.assignment.Some?
  {
    CandidateRun(s, step, provider, failure, eventSeq) +
    TerminalRun(TurnEnd(s.host.world.status.turn, eventSeq, Failed(failure)), s.host.nextId + 1,
                TurnTerminal(s, step, provider, failure, eventSeq))
  }

  lemma MoveRequestError(s: State, step: nat, provider: string, failure: Failure)
    requires s.host.world.status.Running? && s.host.world.status.hook.NotCalled?
    ensures Moves(s, DoRequestError(step, provider, failure, false), RequestError(s, step, provider, failure, false))
  {
  }

  lemma MoveTurnEnds(s: State, eventSeq: nat, reason: Reason)
    requires s.host.world.status.Running? && !s.host.world.status.hook.Called?
    requires s.host.world.log != [] ==> s.host.world.log[|s.host.world.log| - 1].eventSeq < eventSeq
    ensures var w := s.host.world;
            Moves(s, TurnEnds(eventSeq, reason),
                  WithWorld(s, w.(status := Idle, log := w.log + [TurnEnd(w.status.turn, eventSeq, reason)])))
  {
  }

  lemma MoveTurnStarts(s: State, turn: nat)
    requires s.host.world.agent.Some? && s.host.world.status.Idle? && turn > s.host.world.lastTurn
    ensures Moves(s, TurnStarts(turn),
                  WithWorld(s, s.host.world.(status := Running(turn, NotCalled), lastTurn := turn)))
  {
  }

  lemma MoveSessionEvent(s: State, event: TurnEnd)
    requires event in s.host.world.log
    ensures Moves(s, DoSessionEvent(event), SessionEvent(s, event))
  {
  }

  /** The settled candidate write answers the hook, and clears the bridge only when it succeeded. */
  lemma HookSettles(s: State, id: nat, candidate: Record, ok: bool)
    requires id in s.host.tasks && s.host.tasks[id] == Task(HookPut(candidate), Ready(ok, false))
    requires s.pending == Some(candidate) && s.host.world.status.Running? && s.host.world.status.hook.Called?
    ensures Continue(s, id)
            == Drop(s, id).(pending := if ok then None else Some(candidate),
                            host := Drop(s, id).host.(world := s.host.world.(
                                      status := Running(s.host.world.status.turn, Answered))))
  {
  }

  /** A write the schema takes settles in the store; one it refuses has settled already. */
  lemma PutSettles(s: State, record: Record, pc: Pc) returns (t: State)
    requires s.host.queue == []
    ensures Reaches(EnqueuePut(s, record, pc), Stores(record), t)
    ensures t == s.(host := s.host.(
                      store := if Accepts(record) then Some(record) else s.host.store, nextId := s.host.nextId + 1,
                      tasks := s.host.tasks[s.host.nextId := Task(pc, Ready(Accepts(record), false))]))
  {
    hide Step, Enabled, Moves, Reaches, SchemaAccepts;
    var s1 := EnqueuePut(s, record, pc);
    t := if Accepts(record) then RunStoreOp(s1, true) else s1;
    ReachesNothing(t);
    if Accepts(record) {
      MoveStoreOp(s1);
      Prepend(s1, DoStoreOp(true), t, [], t);
      assert [DoStoreOp(true)] + [] == Stores(record);
    }
  }

  /** The request error's own stretch. */
  lemma RequestErrorQueues(s: State, step: nat, provider: string, failure: Failure, eventSeq: nat)
    requires ReadyToFail(s, failure, eventSeq)
    ensures var w := s.host.world;
            var candidate := Awaiting(CandidateBase(s, step, provider, failure));
            RequestError(s, step, provider, failure, false)
            == EnqueuePut(Bridged(s, candidate), candidate, HookPut(candidate))
  {
  }

  /** The bridge holds the candidate while its write is on its way. */
  function Bridged(s: State, candidate: Record): State
    requires s.host.world.status.Running?
  {
    var w := s.host.world;
    WithWorld(ClearTimer(s), w.(status := Running(w.status.turn, Called))).(pending := Some(candidate))
  }

  /** The hook has its answer. */
  lemma HookAnswers(s: State, candidate: Record) returns (t: State)
    requires s.host.queue == [] && s.host.nextId !in s.host.tasks
    requires s.pending == Some(candidate) && s.host.world.status.Running? && s.host.world.status.hook.Called?
    ensures Reaches(EnqueuePut(s, candidate, HookPut(candidate)), Stores(candidate) + ([DoContinue(s.host.nextId)] + []), t)
    ensures t == s.(pending := if Accepts(candidate) then None else Some(candidate),
                    host := s.host.(
                      store := if Accepts(candidate) then Some(candidate) else s.host.store, nextId := s.host.nextId + 1,
                      world := s.host.world.(status := Running(s.host.world.status.turn, Answered))))
  {
    hide Step, Enabled, Moves, Reaches, Accepts, Continue, EnqueuePut, Stores;
    var id := s.host.nextId;
    var u := PutSettles(s, candidate, HookPut(candidate));
    t := Continue(u, id);
    MoveContinue(u, id);
    HookSettles(u, id, candidate, Accepts(candidate));
    assert t.host.tasks == s.host.tasks;
    ReachesNothing(t);
    Prepend(u, DoContinue(id), t, [], t);
    Append(EnqueuePut(s, candidate, HookPut(candidate)), Stores(candidate), u, [DoContinue(id)] + [], t);
  }

  /** Recording the candidate, up to the hook's answer. */
  lemma CandidateRecorded(s: State, step: nat, provider: string, failure: Failure, eventSeq: nat)
    returns (s1: State, t: State)
    requires Inv(s) && ReadyToFail(s, failure, eventSeq)
    ensures var w := s.host.world;
            var candidate := Awaiting(CandidateBase(s, step, provider, failure));
            && Moves(s, DoRequestError(step, provider, failure, false), s1)
            && Reaches(s1, Stores(candidate) + ([DoContinue(s.host.nextId)] + []), t)
            && t.pending == (if Accepts(candidate) then None else Some(candidate))
            && t.started && t.inFlight == s.inFlight && t.timer.None?
            && t.host == s.host.(
                 store := if Accepts(candidate) then Some(candidate) else s.host.store, nextId := s.host.nextId + 1,
                 world := w.(status := Running(w.status.turn, Answered)))
  {
    assert s.host.nextId !in s.host.tasks;
    RequestErrorQueues(s, step, provider, failure, eventSeq);
    hide Step, Enabled, Moves, Reaches, CandidateBase, Accepts, Inv, RequestError, EnqueuePut, Stores;
    var candidate := Awaiting(CandidateBase(s, step, provider, failure));
    s1 := RequestError(s, step, provider, failure, false);
    MoveRequestError(s, step, provider, failure);
    t := HookAnswers(Bridged(s, candidate), candidate);
  }

  /** The candidate is in the table, or only in memory when the schema refuses it; the turn has ended. */
  lemma CandidateHandled(s: State, step: nat, provider: string, failure: Failure, eventSeq: nat)
    returns (t: State)
    requires Inv(s) && ReadyToFail(s, failure, eventSeq)
    ensures Reaches(s, CandidateRun(s, step, provider, failure, eventSeq), t)
    ensures var w := s.host.world;
            var candidate := Awaiting(CandidateBase(s, step, provider, failure));
            && CurrentRecord(t) == Some(candidate) && t.started && t.inFlight == s.inFlight && t.timer.None?
            && t.pending == (if Accepts(candidate) then None else Some(candidate))
            && t.host == s.host.(
                 store := if Accepts(candidate) then Some(candidate) else s.host.store, nextId := s.host.nextId + 1,
                 world := w.(status := Idle, log := w.log + [TurnEnd(w.status.turn, eventSeq, Failed(failure))]))
  {
    hide Step, Enabled, Moves, Reaches, CandidateBase, Accepts, Inv, Stores;
    var candidate := Awaiting(CandidateBase(s, step, provider, failure));
    var ends := TurnEnds(eventSeq, Failed(failure));
    var s1, s3 := CandidateRecorded(s, step, provider, failure, eventSeq);
    t := WithWorld(s3, s.host.world.(status := Idle,
                                     log := s.host.world.log + [TurnEnd(s.host.world.status.turn, eventSeq, Failed(failure))]));
    MoveTurnEnds(s3, eventSeq, Failed(failure));
    ReachesNothing(t);
    Prepend(s3, ends, t, [], t);
    var written := Stores(candidate) + ([DoContinue(s.host.nextId)] + []);
    Append(s1, written, s3, [ends] + [], t);
    assert written + ([ends] + []) == Stores(candidate) + ([DoContinue(s.host.nextId)] + ([ends] + []));
    Prepend(s, DoRequestError(step, provider, failure, false), s1, written + ([ends] + []), t);
  }

  /** The flushed terminal of a failure asks for one write. */
  lemma TerminalQueued(s: State, id: nat)
    requires id in s.host.tasks && s.host.tasks[id].pc.TerminalFlush? && id < s.host.nextId
    requires var pc := s.host.tasks[id].pc;
             && s.started && CurrentRecord(s) == Some(pc.current) && pc.current.Awaiting?
             && pc.event.reason == Failed(pc.current.base.failure)
    ensures var pc := s.host.tasks[id].pc;
            var terminal := Terminal(s.host.world, pc.current.base, pc.event.eventSeq);
            var next := if terminal.Operator? then PublishOperator(terminal, Some(pc.current))
                        else PublishScheduled(terminal, Some(pc.current));
            FlushDone(s, id, true)
            == if pc.current.base.failure.retryAfter == Some(NotANumber) then Drop(Flushed(s), id)
               else EnqueuePut(Drop(Flushed(s), id), terminal, next)
  {
  }

  /** The settled write publishes, or leaves everything as it is. */
  lemma PublishSettles(s: State, id: nat, ok: bool)
    requires id in s.host.tasks && s.host.tasks[id].signal == Ready(ok, false)
    requires s.host.tasks[id].pc.PublishScheduled? || s.host.tasks[id].pc.PublishOperator?
    ensures var t := Continue(s, id);
            && t.host == Drop(s, id).host && t.started == s.started && t.inFlight == s.inFlight
            && t.pending == (if ok && s.host.tasks[id].pc.clears.Some?
                             then ClearPendingAwaiting(s, s.host.tasks[id].pc.clears.value).pending else s.pending)
            && t.timer == (if ok && s.host.tasks[id].pc.PublishScheduled? && s.started
                              && SameRecord(s.host.store, s.host.tasks[id].pc.next)
                           then ArmedFor(s, s.host.tasks[id].pc.next) else s.timer)
  {
  }

  /** A timer for the record, if it has one already or the host still schedules callbacks. */
  function ArmedFor(s: State, record: Record): Option<Record> {
    if s.timer == Some(record) || s.host.world.timerOk then Some(record) else None
  }

  /** The timer once `record` was or was not stored: a scheduled incident is armed. */
  function TimerAfter(s: State, record: Record): Option<Record> {
    if Accepts(record) && record.Scheduled? && s.started then ArmedFor(s, record) else s.timer
  }

  lemma AcceptedIsSame(record: Record)
    ensures Accepts(record) ==> SameRecord(Some(record), record)
  {
  }

  lemma WriteSettles(s: State, record: Record, pc: Pc) returns (t: State)
    requires s.host.queue == [] && s.host.nextId !in s.host.tasks
    requires s.pending.Some? ==> !Accepts(record)
    requires (pc.PublishScheduled? || pc.PublishOperator?) && pc.next == record && (pc.PublishScheduled? <==> record.Scheduled?)
    ensures Reaches(EnqueuePut(s, record, pc), Stores(record) + ([DoContinue(s.host.nextId)] + []), t)
    ensures t.pending == s.pending && t.started == s.started && t.inFlight == s.inFlight && t.timer == TimerAfter(s, record)
    ensures t.host == s.host.(store := if Accepts(record) then Some(record) else s.host.store, nextId := s.host.nextId + 1)
  {
    hide Step, Enabled, Moves, Reaches, Accepts, EnqueuePut, Stores;
    var id := s.host.nextId;
    var s2 := PutSettles(s, record, pc);
    AcceptedIsSame(record);
    t := Continue(s2, id);
    MoveContinue(s2, id);
    PublishSettles(s2, id, Accepts(record));
    assert t.host.tasks == s.host.tasks;
    ReachesNothing(t);
    Prepend(s2, DoContinue(id), t, [], t);
    Append(EnqueuePut(s, record, pc), Stores(record), s2, [DoContinue(id)] + [], t);
  }

  /** The turn end of the current candidate suspends on its flush, under fresh activation ids. */
  lemma CandidateFlushes(s: State, candidate: Record, event: TurnEnd)
    requires Inv(s) && s.started && CurrentRecord(s) == Some(candidate) && candidate.Awaiting?
    requires event.turn == candidate.base.turn
    ensures SessionEvent(s, event) == Spawn(s, TerminalFlush(event, candidate), Blocked)
    ensures forall id :: id in s.host.tasks ==> id < s.host.nextId
  {
  }

  /** From the candidate to the terminal. */
  lemma TerminalHandled(s: State, candidate: Record, event: TurnEnd) returns (t: State)
    requires Inv(s) && s.started && s.host.queue == [] && CurrentRecord(s) == Some(candidate) && candidate.Awaiting?
    requires s.pending.Some? ==> !Accepts(candidate)
    requires event in s.host.world.log && event == TurnEnd(candidate.base.turn, event.eventSeq, Failed(candidate.base.failure))
    ensures var w := s.host.world;
            var terminal := Terminal(w, candidate.base, event.eventSeq);
            && Reaches(s, TerminalRun(event, s.host.nextId, terminal), t)
            && t.started && t.inFlight == s.inFlight && t.pending == s.pending && t.host.queue == []
            && t.timer == TimerAfter(s, terminal)
            && t.host.store == (if Accepts(terminal) then Some(terminal) else s.host.store)
            && t.host.world == w.(saved := |w.log|, goalSaved := w.goal)
  {
    var w := s.host.world;
    var id := s.host.nextId;
    var terminal := Terminal(w, candidate.base, event.eventSeq);
    TerminalNeedsCandidate(w, candidate.base, event.eventSeq);
    TerminalShape(w, candidate.base, event.eventSeq);
    CandidateFlushes(s, candidate, event);
    var s1 := Spawn(s, TerminalFlush(event, candidate), Blocked);
    hide Step, Enabled, Inv, Moves, Reaches, Terminal, Accepts, SessionEvent, FlushDone, EnqueuePut, Stores,
      BaseAccepted, SafeWhole;
    MoveSessionEvent(s, event);
    var s2 := FlushDone(s1, id, true);
    MoveFlush(s1, id);
    TerminalQueued(s1, id);
    var m := Drop(Flushed(s1), id);
    assert m.host.tasks == s.host.tasks && m.host.nextId == id + 1;
    var rest := [];
    if candidate.base.failure.retryAfter == Some(NotANumber) {
      t := s2;
      ReachesNothing(t);
    } else {
      t := WriteSettles(m, terminal, if terminal.Operator? then PublishOperator(terminal, Some(candidate))
                                     else PublishScheduled(terminal, Some(candidate)));
      rest := Stores(terminal) + ([DoContinue(id + 1)] + []);
    }
    PrependTwo(s, DoSessionEvent(event), s1, DoFlush(id, true), s2, rest, t);
  }

  lemma TerminalNeedsCandidateHere(s: State, step: nat, provider: string, failure: Failure, eventSeq: nat)
    requires s.host.world.status.Running? && s.host.world.assignment.Some?
    ensures Accepts(TurnTerminal(s, step, provider, failure, eventSeq)) ==>
              Accepts(Awaiting(CandidateBase(s, step, provider, failure)))
  {
    TerminalNeedsCandidate(s.host.world, CandidateBase(s, step, provider, failure), eventSeq);
  }

  lemma FailingTurnRuns(s: State, step: nat, provider: string, failure: Failure, eventSeq: nat)
    returns (t: State)
    requires Inv(s) && ReadyToFail(s, failure, eventSeq)
    ensures Reaches(s, FailingTurn(s, step, provider, failure, eventSeq), t) && Inv(t)
    ensures var w := s.host.world;
            var candidate := Awaiting(CandidateBase(s, step, provider, failure));
            var terminal := TurnTerminal(s, step, provider, failure, eventSeq);
            && t.started && t.inFlight == s.inFlight && t.host.queue == []
            && t.timer == (if Accepts(terminal) && terminal.Scheduled? && w.timerOk then Some(terminal) else None)
            && t.pending == (if Accepts(candidate) then None else Some(candidate))
            && t.host.store == (if Accepts(terminal) then Some(terminal)
                                else if Accepts(candidate) then Some(candidate) else s.host.store)
            && t.host.world == w.(status := Idle, log := w.log + [TurnEnd(w.status.turn, eventSeq, Failed(failure))],
                                  saved := |w.log| + 1, goalSaved := w.goal)
  {
    RunningWhenFailing(s, failure, eventSeq);
    TerminalNeedsCandidateHere(s, step, provider, failure, eventSeq);
    hide Step, Enabled, Inv, Reaches, CandidateBase, Accepts, Terminal, Classify, CarryUnknownFallback, CandidateRun,
      TerminalRun, ReadyToFail;
    var base := CandidateBase(s, step, provider, failure);
    var first := CandidateRun(s, step, provider, failure, eventSeq);
    var m := CandidateHandled(s, step, provider, failure, eventSeq);
    ReachKeeps(s, first, m);
    var event := TurnEnd(s.host.world.status.turn, eventSeq, Failed(failure));
    var terminal := TurnTerminal(s, step, provider, failure, eventSeq);
    TerminalReadsClock(s.host.world, m.host.world, base, eventSeq);
    CandidateIsOfTurn(s, step, provider, failure);
    t := TerminalHandled(m, Awaiting(base), event);
    Append(s, first, m, TerminalRun(event, s.host.nextId + 1, terminal), t);
    ReachKeeps(s, FailingTurn(s, step, provider, failure, eventSeq), t);
  }

  /**
   What a failing turn leaves behind, exactly.  A turn that fails with any code
   but an abort and runs through undisturbed is stored scheduled if and only if
   the strict schema takes its terminal and its code is mechanical, or unknown
   with the fallback unspent; spent means that when the request error arrived
   the current record was a recovering one that used the fallback on the same code
   for the same assignment and the goal was still the resumed one.  With a
   spent fallback or an operator code it is stored as an operator incident.  A
   failure the schema refuses, such as one with a Retry-After of zero, is kept
   in memory only and the table stays as it was; one whose deadline alone is
   refused, such as one with a fractional Retry-After, stays a candidate.
   */
  lemma FailingTurnOutcome(s: State, step: nat, provider: string, failure: Failure, eventSeq: nat)
    returns (t: State)
    requires Inv(s) && ReadyToFail(s, failure, eventSeq)
    ensures Reaches(s, FailingTurn(s, step, provider, failure, eventSeq), t) && Inv(t)
    ensures var w := s.host.world;
            var candidate := Awaiting(CandidateBase(s, step, provider, failure));
            var terminal := TurnTerminal(s, step, provider, failure, eventSeq);
            && t.started && t.inFlight == s.inFlight && t.host.queue == []
            && t.timer == (if Accepts(terminal) && terminal.Scheduled? && w.timerOk then Some(terminal) else None)
            && t.pending == (if Accepts(candidate) then None else Some(candidate))
            && t.host.store == (if Accepts(terminal) then Some(terminal)
                                else if Accepts(candidate) then Some(candidate) else s.host.store)
            && t.host.world == w.(status := Idle, log := w.log + [TurnEnd(w.status.turn, eventSeq, Failed(failure))],
                                  saved := |w.log| + 1, goalSaved := w.goal)
    ensures var spent := CarryUnknownFallback(s.host.world, s.host.world.assignment.value, CurrentRecord(s), failure);
            var terminal := TurnTerminal(s, step, provider, failure, eventSeq);
            (t.host.store == Some(terminal) && terminal.Scheduled?) <==>
              && Accepts(terminal)
              && (Classify(failure).Automatic? || (Classify(failure).Unknown? && !spent))
  {
    t := FailingTurnRuns(s, step, provider, failure, eventSeq);
    ScheduledExactly(s, step, provider, failure, eventSeq);
    RunningWhenFailing(s, failure, eventSeq);
    hide *;
  }

  lemma RunningWhenFailing(s: State, failure: Failure, eventSeq: nat)
    requires ReadyToFail(s, failure, eventSeq)
    ensures s.host.world.status.Running? && s.host.world.assignment.Some?
  {
  }

  lemma CandidateIsOfTurn(s: State, step: nat, provider: string, failure: Failure)
    requires s.host.world.status.Running? && s.host.world.assignment.Some?
    ensures var base := CandidateBase(s, step, provider, failure);
            base.turn == s.host.world.status.turn && base.failure == failure
  {
  }

  lemma TerminalReadsClock(w: World, v: World, base: Base, eventSeq: nat)
    requires v.now == w.now && v.retryDelay == w.retryDelay
    ensures Terminal(v, base, eventSeq) == Terminal(w, base, eventSeq)
  {
  }

  /** The terminal is scheduled by its code and the fallback; and a stored record is never one the schema refuses. */
  lemma ScheduledExactly(s: State, step: nat, provider: string, failure: Failure, eventSeq: nat)
    requires Inv(s) && ReadyToFail(s, failure, eventSeq)
    ensures var terminal := TurnTerminal(s, step, provider, failure, eventSeq);
            var spent := CarryUnknownFallback(s.host.world, s.host.world.assignment.value, CurrentRecord(s), failure);
            && (terminal.Scheduled? <==> Classify(failure).Automatic? || (Classify(failure).Unknown? && !spent))
            && (terminal.Scheduled? || terminal.Operator?)
            && (!Accepts(terminal) ==> s.host.store != Some(terminal))
            && (Accepts(terminal) ==> Accepts(Awaiting(CandidateBase(s, step, provider, failure))))
  {
    hide CarryUnknownFallback;
    TerminalNeedsCandidate(s.host.world, CandidateBase(s, step, provider, failure), eventSeq);
  }

  /** A failure the schema refuses is never durable, however recoverable its code: the table stays as it was. */
  lemma RefusedFailureStaysInMemory(s: State, step: nat, provider: string, failure: Failure, eventSeq: nat)
    returns (t: State)
    requires Inv(s) && ReadyToFail(s, failure, eventSeq) && !FailureAccepted(failure)
    ensures Reaches(s, FailingTurn(s, step, provider, failure, eventSeq), t)
    ensures t.host.store == s.host.store && t.pending == Some(Awaiting(CandidateBase(s, step, provider, failure)))
  {
    TerminalNeedsCandidate(s.host.world, CandidateBase(s, step, provider, failure), eventSeq);
    hide Reaches, Inv, Accepts, FailingTurn, TurnTerminal;
    t := FailingTurnOutcome(s, step, provider, failure, eventSeq);
  }

  /** A rate limit whose provider answers with a Retry-After of zero is such a failure. */
  lemma RefusedFailureExists() returns (s: State, failure: Failure)
    ensures Inv(s) && ReadyToFail(s, failure, 1) && !FailureAccepted(failure)
    ensures Classify(failure).Automatic? && failure.retryAfter == Some(Finite(0.0))
  {
    failure := Failure("m", RateLimit, Some(429), Some(Finite(0.0)), None);
    var goal := Goal(0, 1, Active, false, "h", 0, 9);
    var assignment := Assignment("l", "r", "s", "a", "p", GoalContinuation(0, 1, "h"));
    var w := World("s", 0, Some(0), 1, Running(1, NotCalled), 1, [], 0, goal, goal, Some(assignment), true, true, 10.0);
    s := State(true, None, false, None, Host(None, [], map[], 0, [], 0, w));
    assert Owners(s) == {};
  }

  // ---- Settling a recovery -----------------------------------------------------------

  /** What the table holds once a later turn end has settled the recovery. */
  function SettledStore(w: World, current: Record, event: TurnEnd): Option<Record>
    requires current.Recovering?
  {
    if Closes(w, current, event) then None
    else if Accepts(SettledTerminal(w, current, event)) then Some(SettledTerminal(w, current, event))
    else Some(current)
  }

  /** Flush, the one store operation if it is queued, and the activation's end. */
  function SettleRun(w: World, current: Record, event: TurnEnd, id: nat): seq<Action>
    requires current.Recovering?
  {
    [DoFlush(id, true)] +
    ((if Closes(w, current, event) then [DoStoreOp(true)] else Stores(SettledTerminal(w, current, event)))
     + ([DoContinue(id + 1)] + []))
  }

  lemma SettleQueued(s: State, id: nat)
    requires id in s.host.tasks && s.host.tasks[id].pc.SettleFlush? && id < s.host.nextId && s.pending.None?
    requires var pc := s.host.tasks[id].pc;
             s.started && s.host.store == Some(pc.current) && pc.current.Recovering? && Accepts(pc.current)
    ensures var pc := s.host.tasks[id].pc;
            var m := Drop(Flushed(s), id);
            FlushDone(s, id, true)
            == if Closes(s.host.world, pc.current, pc.event) then
                 EnqueueRemove(m, pc.current, Removing(pc.current, false, false))
               else
                 var terminal := SettledTerminal(s.host.world, pc.current, pc.event);
                 EnqueuePut(m, terminal, if terminal.Operator? then PublishOperator(terminal, None)
                                         else PublishScheduled(terminal, None))
  {
    hide EnqueuePut, EnqueueRemove, RetryDelay;
  }

  /** An exact remove, from its queue entry to the end of its activation. */
  lemma RemoveSettles(s: State, record: Record) returns (t: State)
    requires s.host.queue == [] && s.host.nextId !in s.host.tasks && s.host.store == Some(record) && Accepts(record)
    ensures Reaches(EnqueueRemove(s, record, Removing(record, false, false)),
                    [DoStoreOp(true)] + ([DoContinue(s.host.nextId)] + []), t)
    ensures t == s.(timer := None, host := s.host.(store := None, nextId := s.host.nextId + 1))
  {
    hide Step, Enabled, Moves, Reaches, SchemaAccepts;
    var id := s.host.nextId;
    var s1 := EnqueueRemove(s, record, Removing(record, false, false));
    var s2 := RunStoreOp(s1, true);
    MoveStoreOp(s1);
    assert s2.host.tasks[id] == Task(Removing(record, false, false), Ready(true, true));
    t := Continue(s2, id);
    MoveContinue(s2, id);
    assert t.host.tasks == s.host.tasks;
    ReachesNothing(t);
    Prepend(s2, DoContinue(id), t, [], t);
    Prepend(s1, DoStoreOp(true), s2, [DoContinue(id)] + [], t);
  }

  lemma SettledShape(w: World, current: Record, event: TurnEnd)
    requires current.Recovering? && !Closes(w, current, event)
    ensures SettledTerminal(w, current, event).Scheduled? || SettledTerminal(w, current, event).Operator?
  {
  }

  /** Settling, from the suspended flush on. */
  lemma SettleHandled(s: State, current: Record, event: TurnEnd) returns (t: State)
    requires s.started && s.pending.None? && s.host.queue == []
    requires s.host.store == Some(current) && current.Recovering? && Accepts(current)
    requires forall id :: id in s.host.tasks ==> id < s.host.nextId
    ensures var w := s.host.world;
            && Reaches(Spawn(s, SettleFlush(event, current), Blocked), SettleRun(w, current, event, s.host.nextId), t)
            && t.started && t.inFlight == s.inFlight && t.pending.None? && t.host.queue == []
            && t.host.store == SettledStore(w, current, event)
            && t.timer == (if Closes(w, current, event) then None else TimerAfter(s, SettledTerminal(w, current, event)))
            && t.host.world == w.(saved := |w.log|, goalSaved := w.goal)
  {
    hide Step, Enabled, Moves, Reaches, Accepts, EnqueuePut, EnqueueRemove, FlushDone, SettledTerminal, Closes;
    var w := s.host.world;
    var id := s.host.nextId;
    var s1 := Spawn(s, SettleFlush(event, current), Blocked);
    var s2 := FlushDone(s1, id, true);
    MoveFlush(s1, id);
    SettleQueued(s1, id);
    var m := Drop(Flushed(s1), id);
    assert m.host.tasks == s.host.tasks;
    if Closes(w, current, event) {
      t := RemoveSettles(m, current);
      Prepend(s1, DoFlush(id, true), s2, [DoStoreOp(true)] + ([DoContinue(id + 1)] + []), t);
    } else {
      var terminal := SettledTerminal(w, current, event);
      SettledShape(w, current, event);
      t := WriteSettles(m, terminal, if terminal.Operator? then PublishOperator(terminal, None)
                                     else PublishScheduled(terminal, None));
      Prepend(s1, DoFlush(id, true), s2, Stores(terminal) + ([DoContinue(id + 1)] + []), t);
    }
  }

  /**
   The other way in.  A failed turn whose request error never left a candidate
   is settled straight from the recovering record: it is stored scheduled if
   and only if the schema takes the terminal and its code is mechanical, or
   unknown and not the code the recovery already spent the fallback on.  A
   terminal the schema refuses leaves the recovering record in place; a turn
   that did not fail, was aborted or belongs to another assignment removes it.
   */
  lemma SettledFailureOutcome(s: State, event: TurnEnd) returns (t: State)
    requires Inv(s) && s.started && s.pending.None? && s.host.queue == []
    requires s.host.store.Some? && s.host.store.value.Recovering?
    requires event in s.host.world.log && event.turn > s.host.store.value.base.turn
    ensures var current := s.host.store.value;
            Reaches(s, [DoSessionEvent(event)] + SettleRun(s.host.world, current, event, s.host.nextId), t) && Inv(t)
    ensures t.host.store == SettledStore(s.host.world, s.host.store.value, event)
    ensures t.host.store.None? ==> t.timer.None?
    ensures t.host.store.Some? && t.host.store.value.Scheduled? ==>
              t.timer == if s.timer == t.host.store || s.host.world.timerOk then t.host.store else None
    ensures var current, w := s.host.store.value, s.host.world;
            (t.host.store.Some? && t.host.store.value.Scheduled?) <==>
              && !Closes(w, current, event) && Accepts(SettledTerminal(w, current, event))
              && var failure := event.reason.failure;
                 || Classify(failure).Automatic?
                 || (Classify(failure).Unknown?
                     && !(current.base.fallbackUsed && current.base.failure.code == failure.code))
  {
    var current := s.host.store.value;
    assert Accepts(current) && forall id :: id in s.host.tasks ==> id < s.host.nextId;
    hide Step, Enabled, Inv, Moves, Reaches, Accepts, RetryDelay, Classify;
    var s1 := SessionEvent(s, event);
    MoveSessionEvent(s, event);
    assert s1 == Spawn(s, SettleFlush(event, current), Blocked);
    t := SettleHandled(s, current, event);
    Prepend(s, DoSessionEvent(event), s1, SettleRun(s.host.world, current, event, s.host.nextId), t);
    ReachKeeps(s, [DoSessionEvent(event)] + SettleRun(s.host.world, current, event, s.host.nextId), t);
  }
}
