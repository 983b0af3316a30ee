/**
 What becomes of a recovery whose continuation is no longer available.  The
 runtime promotes its record to an operator incident, but the object it spreads
 is one the strict schema refuses, so nothing is stored and the record stalls.
 */
module ApiRecoveryPromotion {
  import opened Wrappers
  import opened ApiRecoveryRecords
  import opened ApiRecoveryMachine
  import opened ApiRecoveryInvariants
  import opened ApiRecoverySafety

  // ---- One pass over a record -----------------------------------------------

  /** A scheduled record is due on an idle agent, its goal and assignment exactly the recorded ones. */
  predicate DueOnExactTarget(s: State) {
    var w := s.host.world;
    && s.started && !s.inFlight && s.pending.None?
    && s.host.store.Some? && s.host.store.value.Scheduled? && s.host.store.value.dueAt <= w.now as real
    && w.agent.Some? && w.status.Idle?
    && AssignmentAndContinuationMatch(w, s.host.store.value, s.host.store.value.base.assignment.continuation)
  }

  /**
   A due record on its exact target is claimed exactly when its continuation is
   available: rounds left for a goal, a route for a review.  Otherwise the pass
   changes nothing at all, and so neither does any number of passes after it.
   */
  lemma ClaimedExactlyWhenAvailable(s: State)
    requires Inv(s) && DueOnExactTarget(s)
    ensures var caller := s.host.world.agent.value;
            var record := s.host.store.value;
            var available := MechanicalContinuationAvailable(s.host.world, record.base.assignment.continuation);
            && (AgentReady(s, caller).inFlight <==> available)
            && (!available ==>
                  Reaches(s, [DoAgentReady(caller)] + ([DoContinue(s.host.nextId)] + []),
                          s.(host := s.host.(nextId := s.host.nextId + 1))))
  {
    var caller := s.host.world.agent.value;
    var record := s.host.store.value;
    var own := record.base.assignment.continuation;
    assert Accepts(record) && s.host.nextId !in s.host.tasks;
    assert AppliedGoalContinuation(s.host.world, record).None?;
    assert AgentReady(s, caller) == ResumeExact(s, record, caller, own, None);
    if !MechanicalContinuationAvailable(s.host.world, own) {
      PromotionSettles(s, record, caller, own);
    }
  }

  /** The refused promotion comes and goes. */
  lemma PromotionSettles(s: State, record: Record, caller: nat, own: Continuation)
    requires s.started && !s.inFlight && Acting(record) && s.host.store == Some(record) && Accepts(record)
    requires s.host.nextId !in s.host.tasks && !MechanicalContinuationAvailable(s.host.world, own)
    requires AgentReady(s, caller) == ResumeExact(s, record, caller, own, None)
    ensures Reaches(s, [DoAgentReady(caller)] + ([DoContinue(s.host.nextId)] + []),
                    s.(host := s.host.(nextId := s.host.nextId + 1)))
  {
    var id := s.host.nextId;
    var pc := PublishOperator(PromotionRecord(record, record.terminalSeq, s.host.world.now), None);
    var s1 := Spawn(s, pc, Ready(false, false));
    assert ResumeExact(s, record, caller, own, None) == s1;
    hide Step, Enabled, Moves, Reaches, AgentReady, ResumeExact;
    var t := Continue(s1, id);
    MoveAgentReady(s, caller);
    MoveContinue(s1, id);
    assert t.host.tasks == s.host.tasks;
    assert t == s.(host := s.host.(nextId := id + 1));
    ReachesNothing(t);
    Prepend(s1, DoContinue(id), t, [], t);
    Prepend(s, DoAgentReady(caller), s1, [DoContinue(id)] + [], t);
  }

  /** Such a record exists: a mechanical failure is due, and the goal has no round left. */
  lemma StalledRecordExists() returns (s: State)
    ensures Inv(s) && DueOnExactTarget(s) && Classify(s.host.store.value.base.failure).Automatic?
    ensures !MechanicalContinuationAvailable(s.host.world, s.host.store.value.base.assignment.continuation)
  {
    var failure := Failure("m", RateLimit, None, None, None);
    var own := GoalContinuation(0, 1, "h");
    var record := Scheduled(Base(Assignment("l", "r", "s", "a", "p", own), 1, 1, "v", failure, 0, false), 0, 0.0);
    var goal := Goal(0, 1, Active, false, "h", 9, 9);
    var w := World("s", 0, Some(0), 1, Idle, 1, [TurnEnd(1, 0, Failed(failure))], 1, goal, goal,
                   Some(record.base.assignment), true, true, 10.0);
    s := State(true, None, false, None, Host(Some(record), [], map[], 0, [], 0, w));
    assert Owners(s) == {};
    assert Durable(w) == w.log && Origin(record) == w.log[0];
  }

  // ---- Which failures reach the operator ----------------------------------------

  /** The failure cannot be recovered mechanically, or its one fallback is spent. */
  predicate Hopeless(base: Base) {
    Classify(base.failure).ForOperator? || (Classify(base.failure).Unknown? && base.fallbackUsed)
  }

  /** Operator incidents are hopeless, and candidates never aborts. */
  predicate Sorted(record: Record) {
    && (record.Operator? ==> Hopeless(record.base))
    && (record.Awaiting? ==> !Classify(record.base.failure).Ignore?)
  }

  predicate AllSorted(s: State) {
    && (s.host.store.Some? ==> Sorted(s.host.store.value))
    && (s.pending.Some? ==> Sorted(s.pending.value))
    && (forall i :: 0 <= i < |s.host.queue| && s.host.queue[i].Put? ==> Sorted(s.host.queue[i].record))
  }

  lemma PutSorted(s: State, record: Record, pc: Pc)
    requires AllSorted(s) && Sorted(record)
    ensures AllSorted(EnqueuePut(s, record, pc))
  {
    hide Sorted, Accepts;
  }

  lemma RemoveSorted(s: State, record: Record, owner: bool)
    requires AllSorted(s)
    ensures AllSorted(RemoveCurrent(s, record, owner))
  {
    hide Sorted, Accepts;
  }

  lemma EventSorted(s: State, event: TurnEnd)
    requires AllSorted(s)
    ensures AllSorted(SessionEvent(s, event))
  {
  }

  lemma TerminalSorted(s: State, event: TurnEnd, current: Record)
    requires AllSorted(s) && current.Awaiting?
    ensures AllSorted(AfterTerminalFlush(s, event, current))
  {
    hide RemoveCurrent, RetryDelay, EnqueuePut, Classify;
    RemoveSorted(s, current, false);
    if SameRecord(CurrentRecord(s), current) {
      assert Sorted(current);
      var w := s.host.world;
      var scheduled := Scheduled(current.base.(fallbackUsed := false), event.eventSeq,
                                 w.now as real + RetryDelay(current.base.failure, w.retryDelay));
      PutSorted(s, scheduled, PublishScheduled(scheduled, Some(current)));
      var operator := Operator(current.base, event.eventSeq);
      if Hopeless(current.base) {
        PutSorted(s, operator, PublishOperator(operator, Some(current)));
      }
    }
  }

  lemma SettleSorted(s: State, event: TurnEnd, current: Record)
    requires AllSorted(s) && current.Recovering?
    ensures AllSorted(AfterSettleFlush(s, event, current))
  {
    hide RemoveCurrent, RetryDelay;
    RemoveSorted(s, current, false);
  }

  lemma RequestSorted(s: State, step: nat, provider: string, failure: Failure, retried: bool)
    requires AllSorted(s) && s.host.world.status.Running?
    ensures AllSorted(RequestError(s, step, provider, failure, retried))
  {
    hide CarryUnknownFallback, Accepts;
  }

  lemma ExactSorted(s: State, record: Record, caller: nat, expected: Continuation, applied: Option<Continuation>)
    requires AllSorted(s) && Acting(record)
    ensures AllSorted(ResumeExact(s, record, caller, expected, applied))
  {
  }

  lemma ArmSorted(s: State, record: Record)
    requires AllSorted(s)
    ensures AllSorted(Arm(s, record))
  {
  }

  lemma ResumeSorted(s: State, record: Record, known: Option<nat>)
    requires AllSorted(s) && record.Scheduled?
    ensures AllSorted(ResumeScheduled(s, record, known))
  {
    hide RemoveCurrent, ResumeExact, Arm, AllSorted;
    var own := record.base.assignment.continuation;
    ArmSorted(s, record);
    RemoveSorted(s, record, false);
    var caller := if known.Some? then known else s.host.world.agent;
    if caller.Some? {
      ExactSorted(s, record, caller.value, own, AppliedGoalContinuation(s.host.world, record));
      ExactSorted(s, record, caller.value, own, None);
    }
  }

  lemma RecoverySorted(s: State, record: Record, caller: nat)
    requires AllSorted(s) && record.Recovering?
    ensures AllSorted(ResumeRecovering(s, record, caller))
  {
    hide RemoveCurrent, ResumeExact, AllSorted;
    RemoveSorted(s, record, false);
    ExactSorted(s, record, caller, record.resumed, None);
    ExactSorted(s, record, caller, record.base.assignment.continuation, None);
  }

  lemma ReadySorted(s: State, caller: nat)
    requires AllSorted(s)
    ensures AllSorted(AgentReady(s, caller))
  {
    hide AllSorted, ResumeScheduled, ResumeRecovering, SessionEvent, Arm;
    if s.host.store.Some? {
      var record := s.host.store.value;
      ArmSorted(s, record);
      if record.Recovering? {
        RecoverySorted(s, record, caller);
      } else if record.Scheduled? {
        ResumeSorted(s, record, Some(caller));
      }
    }
    TurnsSorted(s);
  }

  lemma TurnsSorted(s: State)
    requires AllSorted(s)
    ensures forall event :: AllSorted(SessionEvent(s, event))
  {
    forall event ensures AllSorted(SessionEvent(s, event)) {
      EventSorted(s, event);
    }
  }

  /** The synchronous entry points add no operator incident. */
  lemma EntrySorted(s: State, caller: nat, deferred: bool)
    requires AllSorted(s)
    ensures AllSorted(AgentCreated(s, caller)) && AllSorted(AdapterEdge(s, caller, deferred))
  {
    hide AllSorted, AgentReady, SessionEvent, Arm, ResumeOperator;
    ReadySorted(s, caller);
    TurnsSorted(s);
    if s.host.store.Some? {
      ArmSorted(s, s.host.store.value);
      if s.host.store.value.Operator? {
        OperatorSorted(s, s.host.store.value, caller);
      }
    }
  }

  lemma OperatorSorted(s: State, record: Record, caller: nat)
    requires AllSorted(s) && record.Operator?
    ensures AllSorted(ResumeOperator(s, record, caller))
  {
    hide RemoveCurrent, EnqueuePut, AllSorted;
    RemoveSorted(s, record, false);
    var next := Scheduled(record.base, record.terminalSeq, s.host.world.now as real);
    PutSorted(s, next, Rescheduling(next, caller));
  }

  lemma StartSorted(s: State)
    requires AllSorted(s)
    ensures AllSorted(StartRuntime(s))
  {
    hide AllSorted, AgentReady, SessionEvent, Arm;
    var t := s.(started := true);
    SameTables(s, t);
    TurnsSorted(t);
    if t.host.store.Some? { ArmSorted(t, t.host.store.value); }
    if t.host.world.agent.Some? { ReadySorted(t, t.host.world.agent.value); }
  }

  lemma SameTables(s: State, t: State)
    requires AllSorted(s) && t.host.store == s.host.store && t.host.queue == s.host.queue
    requires t.pending == s.pending || t.pending.None?
    ensures AllSorted(t)
  {
  }

  lemma AppliedSorted(s: State, record: Record, resumed: Continuation)
    requires AllSorted(s) && Acting(record)
    ensures AllSorted(AfterApplied(s, record, resumed))
  {
  }

  lemma ContinueSorted(s: State, id: nat)
    requires AllSorted(s) && Enabled(s, DoContinue(id))
    ensures AllSorted(Continue(s, id))
  {
    hide AfterApplied, RemoveCurrent, ResumeScheduled, Arm, AllSorted;
    var t := Drop(s, id);
    SameTables(s, t);
    match s.host.tasks[id].pc {
      case HookPut(_) => SameTables(s, Continue(s, id));
      case PublishScheduled(next, clears) =>
        var u := if clears.Some? then ClearPendingAwaiting(t, clears.value) else t;
        SameTables(s, u);
        ArmSorted(u, next);
      case PublishOperator(_, _) => SameTables(s, Continue(s, id));
      case Removing(_, _, _) => SameTables(s, Continue(s, id));
      case Rescheduling(next, caller) => ResumeSorted(t, next, Some(caller));
      case Resumed(record, resumed) => AppliedSorted(t, record, resumed);
      case Writing(_) => SameTables(s, Continue(s, id));
      case Closing(record) =>
        RemoveSorted(t, record, true);
        SameTables(s, EndActivation(t, true));
    }
  }

  lemma StoreOpSorted(s: State, ok: bool)
    requires AllSorted(s) && s.host.queue != []
    ensures AllSorted(RunStoreOp(s, ok))
  {
    hide Sorted;
  }

  lemma EnterSorted(s: State, id: nat, outcome: ResumeOutcome)
    requires AllSorted(s) && Enabled(s, DoEnter(id, outcome))
    ensures AllSorted(EnterMaintenance(s, id, outcome))
  {
    hide AfterApplied, AllSorted, AssignmentAndContinuationMatch, AssignmentAndAppliedGoalMatch, SameRecord;
    var pc := s.host.tasks[id].pc;
    var t := Drop(s, id);
    var u := WithWorld(t, s.host.world.(status := Maintenance));
    SameTables(s, u);
    if pc.applied.Some? {
      AppliedSorted(u, pc.record, pc.applied.value);
    }
    var e := EnterMaintenance(s, id, outcome);
    if e.host.queue == s.host.queue && e.host.store == s.host.store && e.pending == s.pending {
      SameTables(s, e);
    }
  }

  lemma ReviewSorted(s: State, id: nat, wake: WakeOutcome)
    requires AllSorted(s) && Enabled(s, DoReview(id, wake))
    ensures AllSorted(ReviewDone(s, id, wake))
  {
    hide AfterApplied, AllSorted;
    var pc := s.host.tasks[id].pc;
    SameTables(s, Drop(s, id));
    AppliedSorted(Drop(s, id), pc.record, pc.expected);
    if !wake.Started? {
      SameTables(s, ReviewDone(s, id, wake));
    }
  }

  lemma FlushSorted(s: State, id: nat, ok: bool)
    requires AllSorted(s) && Inv(s) && Enabled(s, DoFlush(id, ok))
    ensures AllSorted(FlushDone(s, id, ok))
  {
    assert PcGood(s.host.world, s.host.tasks[id].pc);
    hide AllSorted, AfterTerminalFlush, AfterSettleFlush, Inv;
    var t := Drop(if ok then Flushed(s) else s, id);
    SameTables(s, t);
    match s.host.tasks[id].pc {
      case TerminalFlush(event, current) => TerminalSorted(t, event, current);
      case SettleFlush(event, current) => SettleSorted(t, event, current);
      case Checkpointing => SameTables(s, FlushDone(s, id, ok));
    }
  }

  lemma StepSorted(s: State, a: Action)
    requires AllSorted(s) && Inv(s) && Enabled(s, a)
    ensures AllSorted(Step(s, a))
  {
    hide AllSorted, Inv, StartRuntime, RequestError, SessionEvent, AgentReady, AgentCreated, AdapterEdge, ResumeScheduled,
      RunStoreOp, Continue, FlushDone, EnterMaintenance, ReviewDone;
    match a
    case DoStart => StartSorted(s);
    case DoRequestError(step, provider, failure, retried) => RequestSorted(s, step, provider, failure, retried);
    case DoSessionEvent(event) => EventSorted(s, event);
    case DoAgentReady(caller) => ReadySorted(s, caller);
    case DoAgentCreated(caller) => EntrySorted(s, caller, true);
    case DoAdapterEdge(caller, deferred) => EntrySorted(s, caller, deferred);
    case DoTimer =>
      SameTables(s, ClearTimer(s));
      ResumeSorted(ClearTimer(s), s.timer.value, None);
    case DoStoreOp(ok) => StoreOpSorted(s, ok);
    case DoContinue(id) => ContinueSorted(s, id);
    case DoFlush(id, ok) => FlushSorted(s, id, ok);
    case DoEnter(id, outcome) => EnterSorted(s, id, outcome);
    case DoReview(id, wake) => ReviewSorted(s, id, wake);
    case Crashes(keep, keepGoal) => CrashSorted(s, keep, keepGoal);
    case _ => SameTables(s, Step(s, a));
  }

  lemma CrashSorted(s: State, keep: nat, keepGoal: bool)
    requires AllSorted(s) && Enabled(s, Crashes(keep, keepGoal))
    ensures AllSorted(Crash(s, keep, keepGoal))
  {
  }

  lemma {:induction false} RunSorted(s: State, run: seq<Action>)
    requires AllSorted(s) && Inv(s) && ValidRun(s, run)
    ensures AllSorted(After(s, run))
    decreases |run|
  {
    hide AllSorted, Inv, Step, Enabled;
    if run != [] {
      StepSorted(s, run[0]);
      StepKeeps(s, run[0]);
      RunSorted(Step(s, run[0]), run[1..]);
    }
  }

  /**
   In every reachable state an operator incident in the table is one no
   mechanical recovery applied to: an operator code, or an unknown code with
   its fallback spent.  A mechanical failure whose continuation became
   unavailable therefore never becomes one, although promoting it is meant to.
   */
  lemma OnlyHopelessFailuresReachTheOperator(s: State, run: seq<Action>)
    requires Initial(s) && ValidRun(s, run)
    ensures var h := After(s, run).host;
            h.store.Some? && h.store.value.Operator? ==> Hopeless(h.store.value.base)
  {
    hide Step, Enabled, Inv;
    InitialIsGood(s);
    RunSorted(s, run);
  }
}
