/**
 What every step of the API recovery machine keeps: provenance of the stored
 records, one continuation in flight, exact targets, due times, and the order
 of the goal revisions the runtime consumed.
 */
module ApiRecoveryInvariants {
  import opened Wrappers
  import opened ApiRecoveryRecords
  import opened ApiRecoveryMachine

  // ---- Provenance ----------------------------------------------------------

  function Durable(w: World): seq<TurnEnd>
    requires w.saved <= |w.log|
  {
    w.log[..w.saved]
  }

  /** The `turn/end` error event a record past its terminal stands for. */
  function Origin(record: Record): TurnEnd
    requires !record.Awaiting?
  {
    TurnEnd(record.base.turn, record.terminalSeq, Failed(record.base.failure))
  }

  predicate Backed(events: seq<TurnEnd>, record: Record) {
    record.Awaiting? || Origin(record) in events
  }

  // ---- Suspended activations -------------------------------------------------

  predicate Due(record: Record, now: nat) { record.Scheduled? ==> record.dueAt <= now as real }

  /** Activations that run inside the agent's maintenance. */
  predicate Inside(pc: Pc) { pc.Resumed? || pc.Waking? || pc.Writing? || pc.Checkpointing? }

  /** Activations that hold the Session's in-flight mark. */
  predicate Owner(pc: Pc) {
    Inside(pc) || pc.Claiming? || pc.Closing? || (pc.Removing? && pc.owner)
  }

  /** The only continuations an acting record leads to. */
  predicate Known(record: Record, expected: Continuation) {
    expected == record.base.assignment.continuation || (record.Recovering? && expected == record.resumed)
  }

  predicate PcGood(w: World, pc: Pc)
    requires w.saved <= |w.log|
  {
    && (Inside(pc) ==> w.status.Maintenance?)
    && match pc
       case HookPut(candidate) => candidate.Awaiting?
       case TerminalFlush(event, current) =>
         event in w.log && current.Awaiting? && event.turn == current.base.turn
       case SettleFlush(event, current) =>
         event in w.log && current.Recovering? && event.turn > current.base.turn
       case PublishScheduled(next, _) => next.Scheduled?
       case Rescheduling(next, _) => next.Scheduled?
       case Claiming(record, _, expected, _) => Acting(record) && Due(record, w.now) && Known(record, expected)
       case Resumed(record, _) => Acting(record) && Due(record, w.now) && Backed(Durable(w), record)
       case Waking(record, _) => Acting(record) && Due(record, w.now) && Backed(Durable(w), record)
       case Closing(record) => Acting(record)
       case _ => true
  }

  function Owners(s: State): set<nat> { set id | id in s.host.tasks && Owner(s.host.tasks[id].pc) }

  // ---- Applied continuations ---------------------------------------------------

  /** The facts under which a continuation may reach the goal or the judge. */
  predicate Exact(e: Effect) {
    && Acting(e.record)
    && e.stored == Some(e.record)
    && e.agent == Some(e.caller)
    && e.assignment.Some?
    && SameAssignmentIdentity(e.assignment.value, e.record)
    && e.assignment.value.continuation == e.expected
    && (e.expected.GoalContinuation? ==> ExactDisarmedGoal(e.goal, e.expected))
    && Known(e.record, e.expected)
    && Due(e.record, e.at)
  }

  predicate Before(left: Goal, right: Goal) {
    left.id < right.id || (left.id == right.id && left.revision < right.revision)
  }

  predicate OnGoal(e: Effect) { e.expected.GoalContinuation? }

  /** Goal revisions consumed by the runtime strictly increase, and lie below the live goal. */
  predicate Ordered(effects: seq<Effect>, goal: Goal) {
    && (forall i, j | 0 <= i < j < |effects| && OnGoal(effects[i]) && OnGoal(effects[j]) ::
          Before(effects[i].goal, effects[j].goal))
    && (forall i | 0 <= i < |effects| && OnGoal(effects[i]) :: Before(effects[i].goal, goal))
  }

  // ---- The invariant --------------------------------------------------------------

  predicate Shape(s: State) {
    var h := s.host;
    && h.world.saved <= |h.world.log|
    && h.effectsSaved <= |h.effects|
    && (s.pending.Some? ==> s.pending.value.Awaiting?)
    && (s.timer.Some? ==> s.timer.value.Scheduled?)
    && (forall id :: id in h.tasks ==> id < h.nextId)
  }

  predicate Provenance(s: State)
    requires s.host.world.saved <= |s.host.world.log|
  {
    var h := s.host;
    && (h.store.Some? ==> Backed(Durable(h.world), h.store.value) && Accepts(h.store.value))
    && (forall i :: 0 <= i < |h.queue| && h.queue[i].Put? ==>
          Backed(Durable(h.world), h.queue[i].record) && Accepts(h.queue[i].record))
  }

  predicate TasksGood(s: State)
    requires s.host.world.saved <= |s.host.world.log|
  {
    forall id :: id in s.host.tasks ==> PcGood(s.host.world, s.host.tasks[id].pc)
  }

  predicate EffectsGood(s: State)
    requires s.host.effectsSaved <= |s.host.effects|
  {
    var h := s.host;
    && (forall i :: 0 <= i < |h.effects| ==> Exact(h.effects[i]))
    && Ordered(h.effects, h.world.goal)
    && Ordered(h.effects[..h.effectsSaved], h.world.goalSaved)
  }

  predicate Good(s: State) { Shape(s) && Provenance(s) && TasksGood(s) && EffectsGood(s) }

  /** The in-flight mark is set exactly while one activation owns it. */
  ghost predicate OneInFlight(s: State) {
    if s.inFlight then exists id :: Owners(s) == {id} else Owners(s) == {}
  }

  ghost predicate Inv(s: State) { Good(s) && OneInFlight(s) }

  // ---- Building blocks ---------------------------------------------------------------

  lemma SpawnOwners(s: State, pc: Pc, signal: Signal)
    requires Shape(s)
    ensures Owners(Spawn(s, pc, signal)) == Owners(s) + (if Owner(pc) then {s.host.nextId} else {})
  {
  }

  lemma SpawnKeeps(s: State, pc: Pc, signal: Signal)
    requires Good(s) && PcGood(s.host.world, pc)
    ensures Good(Spawn(s, pc, signal))
    ensures !Owner(pc) ==> Owners(Spawn(s, pc, signal)) == Owners(s)
  {
  }

  lemma PutKeeps(s: State, record: Record, pc: Pc)
    requires Good(s) && PcGood(s.host.world, pc) && Backed(Durable(s.host.world), record)
    ensures Good(EnqueuePut(s, record, pc))
    ensures Owners(EnqueuePut(s, record, pc)) == Owners(s) + (if Owner(pc) then {s.host.nextId} else {})
  {
    hide Accepts, PcGood, Backed, Exact;
    SpawnKeeps(s, pc, Blocked);
    SpawnKeeps(s, pc, Ready(false, false));
    SpawnOwners(s, pc, Blocked);
    SpawnOwners(s, pc, Ready(false, false));
  }

  lemma RemoveKeeps(s: State, record: Record, pc: Pc)
    requires Good(s) && PcGood(s.host.world, pc)
    ensures Good(EnqueueRemove(s, record, pc))
    ensures Owners(EnqueueRemove(s, record, pc)) == Owners(s) + (if Owner(pc) then {s.host.nextId} else {})
  {
    hide Accepts, PcGood, Backed, Exact;
    SpawnKeeps(s, pc, Blocked);
    SpawnKeeps(s, pc, Ready(false, false));
    SpawnOwners(s, pc, Blocked);
    SpawnOwners(s, pc, Ready(false, false));
  }

  /** Removing on behalf of nobody changes no ownership; removing for the owner hands the mark on. */
  lemma RemoveCurrentKeeps(s: State, record: Record, owner: bool)
    requires Good(s)
    requires if owner then s.inFlight && Owners(s) == {} else OneInFlight(s)
    ensures Good(RemoveCurrent(s, record, owner)) && OneInFlight(RemoveCurrent(s, record, owner))
  {
    var t := if SameRecord(s.pending, record) then s.(pending := None) else s;
    assert Good(t) && Owners(t) == Owners(s);
    RemoveKeeps(t, record, Removing(record, true, owner));
    RemoveKeeps(t, record, Removing(record, false, owner));
    var r := RemoveCurrent(s, record, owner);
    assert Owners(EndActivation(ClearTimer(t), owner)) == Owners(t);
    if owner && r.inFlight {
      assert Owners(r) == {s.host.nextId};
    }
  }

  lemma PlainRemoveKeeps(s: State, record: Record)
    requires Inv(s)
    ensures Inv(RemoveCurrent(s, record, false))
  {
    RemoveCurrentKeeps(s, record, false);
  }

  lemma DropKeeps(s: State, id: nat)
    requires Good(s)
    ensures Good(Drop(s, id))
    ensures Owners(Drop(s, id)) == Owners(s) - {id}
  {
  }

  /** Dropping the owner leaves nobody in maintenance. */
  lemma DropOwner(s: State, id: nat)
    requires Inv(s) && id in s.host.tasks && Owner(s.host.tasks[id].pc)
    ensures Good(Drop(s, id)) && Owners(Drop(s, id)) == {} && s.inFlight
    ensures forall k :: k in Drop(s, id).host.tasks ==> !Owner(Drop(s, id).host.tasks[k].pc)
  {
    DropKeeps(s, id);
    assert id in Owners(s);
    var t := Drop(s, id);
    assert Owners(t) == {};
    forall k | k in t.host.tasks ensures !Owner(t.host.tasks[k].pc) {
      assert k !in Owners(t);
    }
  }

  lemma DropOther(s: State, id: nat)
    requires Inv(s) && id in s.host.tasks && !Owner(s.host.tasks[id].pc)
    ensures Inv(Drop(s, id))
  {
  }

  lemma FlushedKeeps(s: State)
    requires Good(s)
    ensures Good(Flushed(s)) && Owners(Flushed(s)) == Owners(s)
    ensures Durable(Flushed(s).host.world) == s.host.world.log
  {
  }

  /** Only when no activation is inside maintenance may the agent leave it. */
  lemma LeaveKeeps(s: State)
    requires Good(s) && Owners(s) == {} && s.inFlight
    ensures Inv(EndActivation(LeaveMaintenance(s), true)) && Good(LeaveMaintenance(s))
    ensures Owners(LeaveMaintenance(s)) == {}
  {
    forall id | id in s.host.tasks ensures !Owner(s.host.tasks[id].pc) {
      assert id !in Owners(s);
    }
    assert Owners(LeaveMaintenance(s)) == Owners(s);
    assert Owners(EndActivation(LeaveMaintenance(s), true)) == Owners(s);
  }

  lemma SameOwners(s: State, t: State)
    requires t.host.tasks == s.host.tasks
    ensures Owners(t) == Owners(s)
    ensures OneInFlight(s) && t.inFlight == s.inFlight ==> OneInFlight(t)
  {
  }

  // ---- The runtime's stretches ----------------------------------------------------------

  lemma SessionEventKeeps(s: State, event: TurnEnd)
    requires Inv(s) && event in s.host.world.log
    ensures Inv(SessionEvent(s, event))
  {
    var current := CurrentRecord(s);
    if current.Some? {
      if current.value.Recovering? && event.turn > current.value.base.turn {
        SpawnKeeps(s, SettleFlush(event, current.value), Blocked);
      } else if current.value.Awaiting? && current.value.base.turn == event.turn {
        SpawnKeeps(s, TerminalFlush(event, current.value), Blocked);
      }
    }
  }

  lemma ReconcileKeeps(s: State, record: Record)
    requires Inv(s)
    ensures Inv(ReconcileAwaiting(s, record))
  {
    var terminal := FindTurn(s.host.world.log, record.base.turn);
    if terminal.Some? {
      SessionEventKeeps(s, terminal.value);
    }
  }

  lemma PromoteKeeps(s: State, record: Record)
    requires Inv(s) && Acting(record)
    ensures Inv(PromoteOperator(s, record))
  {
    hide Accepts;
    var next := PromotionRecord(record, record.terminalSeq, s.host.world.now);
    if SameRecord(s.host.store, record) {
      SpawnKeeps(s, PublishOperator(next, None), Ready(false, false));
    }
  }

  lemma ResumeExactKeeps(s: State, record: Record, caller: nat, expected: Continuation, applied: Option<Continuation>)
    requires Inv(s) && Acting(record) && Due(record, s.host.world.now) && Known(record, expected)
    ensures Inv(ResumeExact(s, record, caller, expected, applied))
  {
    if s.started && !s.inFlight {
      if applied.None? && !MechanicalContinuationAvailable(s.host.world, expected) {
        PromoteKeeps(s, record);
      } else {
        var t := s.(inFlight := true);
        assert Good(t);
        var pc := Claiming(record, caller, expected, applied);
        SpawnKeeps(t, pc, Blocked);
        SpawnOwners(t, pc, Blocked);
        SameOwners(s, t);
        assert Owners(Spawn(t, pc, Blocked)) == {s.host.nextId};
      }
    }
  }

  lemma ArmKeepsAll(s: State, record: Record)
    requires Inv(s) && record.Scheduled?
    ensures Inv(Arm(s, record))
  {
  }

  lemma ResumeScheduledKeeps(s: State, record: Record, known: Option<nat>)
    requires Inv(s) && record.Scheduled?
    ensures Inv(ResumeScheduled(s, record, known))
  {
    hide RemoveCurrent, ResumeExact;
    var w := s.host.world;
    if w.now as real < record.dueAt {
      ArmKeepsAll(s, record);
    } else if w.agent.Some? {
      var own := record.base.assignment.continuation;
      ResumeExactKeeps(s, record, w.agent.value, own, AppliedGoalContinuation(w, record));
      ResumeExactKeeps(s, record, w.agent.value, own, None);
      PlainRemoveKeeps(s, record);
    }
  }

  lemma ResumeRecoveringKeeps(s: State, record: Record, caller: nat)
    requires Inv(s) && record.Recovering?
    ensures Inv(ResumeRecovering(s, record, caller))
  {
    hide RemoveCurrent, ResumeExact;
    PlainRemoveKeeps(s, record);
    ResumeExactKeeps(s, record, caller, record.resumed, None);
    ResumeExactKeeps(s, record, caller, record.base.assignment.continuation, None);
  }

  lemma AgentReadyKeeps(s: State, caller: nat)
    requires Inv(s)
    ensures Inv(AgentReady(s, caller))
  {
    if s.started {
      if s.pending.Some? {
        ReconcileKeeps(s, s.pending.value);
      } else if s.host.store.Some? {
        var record := s.host.store.value;
        match record {
          case Awaiting(_) => ReconcileKeeps(s, record);
          case Recovering(base, _, _, _) =>
            var terminal := FindLater(s.host.world.log, base.turn);
            if terminal.Some? {
              SessionEventKeeps(s, terminal.value);
            } else {
              ResumeRecoveringKeeps(s, record, caller);
            }
          case Scheduled(_, _, dueAt) =>
            ArmKeepsAll(s, record);
            ResumeScheduledKeeps(s, record, Some(caller));
          case Operator(_, _) =>
        }
      }
    }
  }

  lemma AgentCreatedKeeps(s: State, caller: nat)
    requires Inv(s)
    ensures Inv(AgentCreated(s, caller))
  {
    if s.pending.Some? {
      ReconcileKeeps(s, s.pending.value);
    } else if s.host.store.Some? {
      match s.host.store.value {
        case Awaiting(_) => ReconcileKeeps(s, s.host.store.value);
        case Scheduled(_, _, _) => ArmKeepsAll(s, s.host.store.value);
        case Recovering(_, _, _, _) => AgentReadyKeeps(s, caller);
        case Operator(_, _) =>
      }
    }
  }

  lemma ResumeOperatorKeeps(s: State, record: Record, caller: nat)
    requires Inv(s) && record.Operator?
    ensures Inv(ResumeOperator(s, record, caller))
  {
    PlainRemoveKeeps(s, record);
    if SameRecord(s.host.store, record) {
      var next := Scheduled(record.base, record.terminalSeq, s.host.world.now as real);
      assert Origin(next) == Origin(record);
      PutKeeps(s, next, Rescheduling(next, caller));
    }
  }

  lemma AdapterEdgeKeeps(s: State, caller: nat, deferred: bool)
    requires Inv(s)
    ensures Inv(AdapterEdge(s, caller, deferred))
  {
    if s.started {
      if s.pending.Some? && !deferred {
        ReconcileKeeps(s, s.pending.value);
      } else if s.host.store.Some? && s.host.store.value.Operator? {
        ResumeOperatorKeeps(s, s.host.store.value, caller);
      } else {
        AgentReadyKeeps(s, caller);
      }
    }
  }

  lemma StartKeeps(s: State)
    requires Inv(s)
    ensures Inv(StartRuntime(s))
  {
    if !s.started {
      var t := s.(started := true);
      SameOwners(s, t);
      assert Inv(t);
      if t.pending.Some? {
        ReconcileKeeps(t, t.pending.value);
      } else if t.host.store.Some? {
        match t.host.store.value {
          case Scheduled(_, _, _) => ArmKeepsAll(t, t.host.store.value);
          case Recovering(_, _, _, _) =>
            if t.host.world.agent.Some? {
              AgentReadyKeeps(t, t.host.world.agent.value);
            }
          case Awaiting(_) => ReconcileKeeps(t, t.host.store.value);
          case Operator(_, _) =>
        }
      }
    }
  }

  lemma TimerKeeps(s: State)
    requires Inv(s) && s.timer.Some?
    ensures Inv(TimerFire(s))
  {
    var t := ClearTimer(s);
    SameOwners(s, t);
    ResumeScheduledKeeps(t, s.timer.value, None);
  }

  lemma RequestErrorKeeps(s: State, step: nat, provider: string, failure: Failure, retried: bool)
    requires Inv(s) && s.host.world.status.Running?
    ensures Inv(RequestError(s, step, provider, failure, retried))
  {
    var w := s.host.world;
    var turn := w.status.turn;
    var answered := WithWorld(s, w.(status := Running(turn, Answered)));
    SameOwners(s, answered);
    assert Inv(answered);
    if !retried && s.started && !Classify(failure).Ignore? && w.agent.Some? && w.assignment.Some?
       && w.assignment.value.sessionId == w.sessionId {
      var candidate := Awaiting(Base(w.assignment.value, turn, step, provider, failure, w.now,
                                     CarryUnknownFallback(w, w.assignment.value, CurrentRecord(s), failure)));
      var t := WithWorld(ClearTimer(s), w.(status := Running(turn, Called))).(pending := Some(candidate));
      SameOwners(s, t);
      assert Good(t);
      PutKeeps(t, candidate, HookPut(candidate));
    }
  }

  /** A store write by an activation that owns nothing. */
  lemma PlainPutKeeps(s: State, record: Record, pc: Pc)
    requires Inv(s) && PcGood(s.host.world, pc) && Backed(Durable(s.host.world), record) && !Owner(pc)
    ensures Inv(EnqueuePut(s, record, pc))
  {
    hide Accepts, Good;
    PutKeeps(s, record, pc);
  }

  /** A record standing for a durable event may be stored. */
  lemma OriginPutKeeps(s: State, record: Record, pc: Pc, event: TurnEnd)
    requires Inv(s) && PcGood(s.host.world, pc) && !Owner(pc)
    requires !record.Awaiting? && Origin(record) == event && event in Durable(s.host.world)
    ensures Inv(EnqueuePut(s, record, pc))
  {
    hide Accepts, Good;
    PlainPutKeeps(s, record, pc);
  }

  lemma AfterTerminalKeeps(s: State, event: TurnEnd, current: Record)
    requires Inv(s) && current.Awaiting? && event in Durable(s.host.world)
    requires event.turn == current.base.turn
    ensures Inv(AfterTerminalFlush(s, event, current))
  {
    if !s.started || !SameRecord(CurrentRecord(s), current) {
      return;
    }
    if !event.reason.Failed? || !SameFailure(event.reason.failure, current.base.failure) {
      PlainRemoveKeeps(s, current);
      return;
    }
    var w := s.host.world;
    var disposition := Classify(current.base.failure);
    if disposition.Automatic? || (disposition.Unknown? && !current.base.fallbackUsed) {
      var next := Scheduled(current.base.(fallbackUsed := false), event.eventSeq,
                            w.now as real + RetryDelay(current.base.failure, w.retryDelay));
      assert AfterTerminalFlush(s, event, current) == EnqueuePut(s, next, PublishScheduled(next, Some(current)));
      OriginPutKeeps(s, next, PublishScheduled(next, Some(current)), event);
    } else {
      var next := Operator(current.base, event.eventSeq);
      assert AfterTerminalFlush(s, event, current) == EnqueuePut(s, next, PublishOperator(next, Some(current)));
      OriginPutKeeps(s, next, PublishOperator(next, Some(current)), event);
    }
  }

  lemma AfterSettleKeeps(s: State, event: TurnEnd, current: Record)
    requires Inv(s) && current.Recovering? && event in Durable(s.host.world)
    ensures Inv(AfterSettleFlush(s, event, current))
  {
    hide OneInFlight, RemoveCurrent, RetryDelay;
    var w := s.host.world;
    if !s.started || !SameRecord(s.host.store, current) {
    } else if !event.reason.Failed? || Classify(event.reason.failure).Ignore? || w.agent.None?
              || w.assignment.None? || !SameAssignmentIdentity(w.assignment.value, current) {
      PlainRemoveKeeps(s, current);
    } else {
      var failure := event.reason.failure;
      var disposition := Classify(failure);
      var sameFallback := disposition.Unknown? && current.base.fallbackUsed
                          && current.base.failure.code == failure.code;
      var base := Base(w.assignment.value, event.turn, current.base.step, current.base.provider,
                       failure, w.now, false);
      if disposition.Automatic? || (disposition.Unknown? && !sameFallback) {
        var next := Scheduled(base, event.eventSeq, w.now as real + RetryDelay(failure, w.retryDelay));
        assert Origin(next) == event;
        PlainPutKeeps(s, next, PublishScheduled(next, None));
      } else {
        var next := Operator(base.(fallbackUsed := sameFallback), event.eventSeq);
        assert Origin(next) == event;
        PlainPutKeeps(s, next, PublishOperator(next, None));
      }
    }
  }

  /** The recovering record inherits the acting record's origin. */
  lemma AfterAppliedKeeps(s: State, record: Record, resumed: Continuation)
    requires Good(s) && s.inFlight && Owners(s) == {} && Acting(record)
    requires s.host.world.status.Maintenance? && Backed(Durable(s.host.world), record)
    ensures Inv(AfterApplied(s, record, resumed))
  {
    LeaveKeeps(s);
    if s.started {
      var next := Recovering(
        record.base.(fallbackUsed := record.base.fallbackUsed || Classify(record.base.failure).Unknown?),
        record.terminalSeq, resumed, s.host.world.now);
      assert Origin(next) == Origin(record);
      PutKeeps(s, next, Writing(next));
      assert Owners(EnqueuePut(s, next, Writing(next))) == {s.host.nextId};
    }
  }

  lemma StoreOpKeeps(s: State, ok: bool)
    requires Inv(s) && s.host.queue != []
    ensures Inv(RunStoreOp(s, ok))
  {
  }

  lemma ContinueOwnerKeeps(s: State, id: nat)
    requires Inv(s) && Enabled(s, DoContinue(id)) && Owner(s.host.tasks[id].pc)
    ensures Inv(Continue(s, id))
  {
    hide ResumeScheduled, Arm, AfterApplied, RemoveCurrent;
    var task := s.host.tasks[id];
    assert PcGood(s.host.world, task.pc);
    var t := Drop(s, id);
    DropOwner(s, id);
    match task.pc {
      case Removing(record, wasPending, owner) =>
        SameOwners(t, Continue(s, id));
      case Resumed(record, resumed) =>
        AfterAppliedKeeps(t, record, resumed);
      case Writing(next) =>
        if task.signal.ok && t.started {
          HandOn(t, Checkpointing, Blocked);
        } else {
          LeaveKeeps(t);
        }
      case Closing(record) =>
        if t.started {
          RemoveCurrentKeeps(t, record, true);
        } else {
          SameOwners(t, EndActivation(t, true));
        }
      case _ =>
    }
  }

  /** What follows an ordinary store operation touches only pending entry, timer and hook. */
  lemma ContinueFrame(s: State, id: nat)
    requires Enabled(s, DoContinue(id)) && !Owner(s.host.tasks[id].pc) && !s.host.tasks[id].pc.Rescheduling?
    ensures var t := Drop(s, id);
            var r := Continue(s, id);
            && (r.pending == t.pending || r.pending.None?)
            && (r.timer == t.timer || r.timer.None?
                || (s.host.tasks[id].pc.PublishScheduled? && r.timer == Some(s.host.tasks[id].pc.next)))
            && r.inFlight == t.inFlight && r.started == t.started
            && exists status ::
                 && (status == t.host.world.status
                     || (status.Running? && t.host.world.status.Running? && status.hook.Answered?
                         && status.turn == t.host.world.status.turn))
                 && r.host == t.host.(world := t.host.world.(status := status))
  {
    var r := Continue(s, id);
    var status := r.host.world.status;
    assert r.host == Drop(s, id).host.(world := Drop(s, id).host.world.(status := status));
  }

  lemma ContinueFrameKeeps(t: State, r: State)
    requires Inv(t) && r.inFlight == t.inFlight
    requires r.pending == t.pending || r.pending.None?
    requires r.timer == t.timer || r.timer.None? || r.timer.value.Scheduled?
    requires r.host == t.host.(world := t.host.world.(status := r.host.world.status))
    requires r.host.world.status == t.host.world.status
             || (r.host.world.status.Running? && t.host.world.status.Running?)
    ensures Inv(r)
  {
  }

  lemma ContinueKeeps(s: State, id: nat)
    requires Inv(s) && Enabled(s, DoContinue(id)) && !Owner(s.host.tasks[id].pc)
    ensures Inv(Continue(s, id))
  {
    var pc := s.host.tasks[id].pc;
    assert PcGood(s.host.world, pc);
    var t := Drop(s, id);
    DropOther(s, id);
    if pc.Rescheduling? {
      assert Continue(s, id) == if s.host.tasks[id].signal.ok && SameRecord(t.host.store, pc.next)
                                then ResumeScheduled(t, pc.next, Some(pc.caller)) else t;
      ResumeScheduledKeeps(t, pc.next, Some(pc.caller));
    } else {
      ContinueFrame(s, id);
      ContinueFrameKeeps(t, Continue(s, id));
    }
  }

  lemma FlushKeeps(s: State, id: nat, ok: bool)
    requires Inv(s) && Enabled(s, DoFlush(id, ok))
    ensures Inv(FlushDone(s, id, ok))
  {
    hide AfterTerminalFlush, AfterSettleFlush;
    var base := if ok then Flushed(s) else s;
    FlushedKeeps(s);
    SameOwners(s, base);
    assert Inv(base);
    var pc := s.host.tasks[id].pc;
    assert PcGood(s.host.world, pc);
    if pc.Checkpointing? {
      DropOwner(base, id);
      LeaveKeeps(Drop(base, id));
    } else {
      DropOther(base, id);
      var t := Drop(base, id);
      if ok {
        assert Durable(t.host.world) == s.host.world.log;
        if pc.TerminalFlush? {
          AfterTerminalKeeps(t, pc.event, pc.current);
        } else {
          AfterSettleKeeps(t, pc.event, pc.current);
        }
      }
    }
  }

  lemma RejectKeeps(s: State, id: nat)
    requires Inv(s) && Enabled(s, DoReject(id))
    ensures Inv(ClaimRejected(s, id))
  {
    DropOwner(s, id);
    SameOwners(Drop(s, id), ClaimRejected(s, id));
  }

  /** Handing the in-flight mark from the dropped owner to a fresh activation. */
  lemma HandOn(t: State, pc: Pc, signal: Signal)
    requires Good(t) && Owners(t) == {} && t.inFlight && Owner(pc) && PcGood(t.host.world, pc)
    ensures Inv(Spawn(t, pc, signal))
  {
    SpawnKeeps(t, pc, signal);
    SpawnOwners(t, pc, signal);
    assert Owners(Spawn(t, pc, signal)) == {t.host.nextId};
  }

  /** Appending an exact goal effect that raises the revision keeps the order. */
  lemma EffectKeeps(s: State, effect: Effect, goal: Goal)
    requires Good(s) && Exact(effect) && effect.goal == s.host.world.goal
    requires if OnGoal(effect) then goal.id == s.host.world.goal.id && goal.revision == s.host.world.goal.revision + 1
             else goal == s.host.world.goal
    ensures Good(WithWorld(s, s.host.world.(goal := goal)).(host := s.host.(
              world := s.host.world.(goal := goal), effects := s.host.effects + [effect])))
  {
  }

  /** The continuation reaches its target: the state right after the effect, before anyone holds the mark. */
  lemma ApplyKeeps(t: State, effect: Effect, goal: Goal, pc: Pc, signal: Signal)
    requires Good(t) && Owners(t) == {} && t.inFlight
    requires Exact(effect) && effect.goal == t.host.world.goal
    requires if OnGoal(effect) then goal.id == t.host.world.goal.id && goal.revision == t.host.world.goal.revision + 1
             else goal == t.host.world.goal
    requires t.host.world.status.Idle?
    requires Owner(pc) && PcGood(t.host.world.(status := Maintenance, goal := goal), pc)
    ensures Inv(Spawn(t.(host := t.host.(world := t.host.world.(status := Maintenance, goal := goal),
                                         effects := t.host.effects + [effect])), pc, signal))
  {
    EffectKeeps(t, effect, goal);
    var u := t.(host := t.host.(world := t.host.world.(goal := goal), effects := t.host.effects + [effect]));
    var v := t.(host := t.host.(world := t.host.world.(status := Maintenance, goal := goal),
                                effects := t.host.effects + [effect]));
    SameOwners(t, u);
    SameOwners(t, v);
    assert Good(v);
    HandOn(v, pc, signal);
  }

  /** The branch that reaches the goal or the judge. */
  lemma EnterAppliesKeeps(s: State, id: nat)
    requires Inv(s) && Enabled(s, DoEnter(id, ResumeOk)) && s.started
    requires var pc := s.host.tasks[id].pc;
             && SameRecord(s.host.store, pc.record) && s.host.world.agent == Some(pc.caller) && pc.applied.None?
             && AssignmentAndContinuationMatch(s.host.world, pc.record, pc.expected)
    ensures Inv(EnterMaintenance(s, id, ResumeOk))
  {
    hide AfterApplied, AssignmentAndAppliedGoalMatch;
    var pc := s.host.tasks[id].pc;
    var record := pc.record;
    var w := s.host.world;
    var t := Drop(s, id);
    DropOwner(s, id);
    assert PcGood(w, pc);
    var effect := Effect(record, pc.expected, w.now, s.host.store, w.goal, w.assignment, w.agent, pc.caller);
    assert Exact(effect);
    if pc.expected.GoalContinuation? {
      var goal := w.goal.(revision := w.goal.revision + 1, armed := true);
      var resumed := GoalContinuation(goal.id, goal.revision, goal.objectiveHash);
      ApplyKeeps(t, effect, goal, Resumed(record, resumed), Ready(true, false));
    } else if !w.reviewRoute {
      HandOn(t, Closing(record), Ready(true, false));
    } else {
      ApplyKeeps(t, effect, w.goal, Waking(record, pc.expected), Blocked);
    }
  }

  lemma EnterKeeps(s: State, id: nat, outcome: ResumeOutcome)
    requires Inv(s) && Enabled(s, DoEnter(id, outcome))
    ensures Inv(EnterMaintenance(s, id, outcome))
  {
    hide AfterApplied, ApplyContinuation, AssignmentAndContinuationMatch, AssignmentAndAppliedGoalMatch;
    var pc := s.host.tasks[id].pc;
    var record := pc.record;
    var w := s.host.world;
    var t := Drop(s, id);
    DropOwner(s, id);
    assert PcGood(w, pc);
    if !s.started {
      SameOwners(t, EndActivation(t, true));
    } else if !SameRecord(s.host.store, record) || w.agent != Some(pc.caller)
              || !(if pc.applied.None? then AssignmentAndContinuationMatch(w, record, pc.expected)
                   else AssignmentAndAppliedGoalMatch(w, record, pc.applied.value)) {
      HandOn(t, Closing(record), Ready(true, false));
    } else {
      assert Backed(Durable(w), record);
      if pc.applied.Some? {
        var inside := WithWorld(t, w.(status := Maintenance));
        SameOwners(t, inside);
        assert Good(inside);
        AfterAppliedKeeps(inside, record, pc.applied.value);
      } else if outcome.ResumeThrows? {
        SameOwners(t, EndActivation(t, true));
      } else {
        EnterAppliesKeeps(s, id);
      }
    }
  }

  lemma ReviewKeeps(s: State, id: nat, wake: WakeOutcome)
    requires Inv(s) && Enabled(s, DoReview(id, wake))
    ensures Inv(ReviewDone(s, id, wake))
  {
    hide AfterApplied;
    var pc := s.host.tasks[id].pc;
    var t := Drop(s, id);
    assert PcGood(s.host.world, pc);
    DropOwner(s, id);
    LeaveKeeps(t);
    match wake {
      case WakeThrows =>
      case Stale =>
        if t.started {
          HandOn(LeaveMaintenance(t), Closing(pc.record), Ready(true, false));
        }
      case Started => AfterAppliedKeeps(t, pc.record, pc.expected);
    }
  }
}
