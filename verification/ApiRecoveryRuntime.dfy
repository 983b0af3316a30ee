/**
 `ApiRecoveryRuntime` (dsh-autolab/src/api-recovery.ts) over its own mutable
 fields.  Each method is one synchronous stretch of the source; its contract
 says that it moves the slice of its Session exactly as the machine does and
 leaves the slice of every other Session alone.
 */
module ApiRecoveryRuntimeClass {
  import opened Wrappers
  import opened ApiRecoveryRecords
  import opened ApiRecoveryMachine
  import M = ApiRecoveryMachine

  class ApiRecoveryRuntime {
    var started: bool
    var timers: map<string, Record>
    var inFlight: set<string>
    var pendingAwaiting: map<string, Record>
    /** The event loop, store table and world of each Session. */
    var hosts: map<string, Host>

    function Lookup(entries: map<string, Record>, sid: string): Option<Record> {
      if sid in entries then Some(entries[sid]) else None
    }

    /** What the fields hold for one Session. */
    ghost function Slice(sid: string): State
      reads this
      requires sid in hosts
    {
      State(started, Lookup(timers, sid), sid in inFlight, Lookup(pendingAwaiting, sid), hosts[sid])
    }

    /** The step made `t` of the Session's slice and touched no other Session. */
    twostate predicate Performs(sid: string, t: State)
      reads this
      requires sid in old(hosts)
    {
      && hosts.Keys == old(hosts.Keys)
      && Slice(sid) == t
      && forall k | k in hosts && k != sid :: Slice(k) == old(Slice(k))
    }

    constructor (environment: map<string, Host>)
      ensures !started && timers == map[] && inFlight == {} && pendingAwaiting == map[] && hosts == environment
    {
      started, timers, inFlight, pendingAwaiting, hosts := false, map[], {}, map[], environment;
    }

    // ---- Small moves ------------------------------------------------------

    method ClearTimer(sid: string)
      requires sid in hosts
      modifies this`timers
      ensures Performs(sid, M.ClearTimer(old(Slice(sid))))
    {
      if sid in timers {
        timers := timers - {sid};
      }
    }

    method Suspend(sid: string, pc: Pc, signal: Signal)
      requires sid in hosts
      modifies this`hosts
      ensures Performs(sid, M.Spawn(old(Slice(sid)), pc, signal))
    {
      var h := hosts[sid];
      hosts := hosts[sid := h.(tasks := h.tasks[h.nextId := Task(pc, signal)], nextId := h.nextId + 1)];
    }

    method AwaitPut(sid: string, record: Record, pc: Pc)
      requires sid in hosts
      modifies this`hosts
      ensures Performs(sid, M.EnqueuePut(old(Slice(sid)), record, pc))
    {
      if !Accepts(record) {
        Suspend(sid, pc, Ready(false, false));
        return;
      }
      var h := hosts[sid];
      hosts := hosts[sid := h.(tasks := h.tasks[h.nextId := Task(pc, Blocked)], nextId := h.nextId + 1,
                               queue := h.queue + [Put(record, h.nextId)])];
    }

    method AwaitRemove(sid: string, record: Record, pc: Pc)
      requires sid in hosts
      modifies this`hosts
      ensures Performs(sid, M.EnqueueRemove(old(Slice(sid)), record, pc))
    {
      if !Accepts(record) {
        Suspend(sid, pc, Ready(false, false));
        return;
      }
      var h := hosts[sid];
      hosts := hosts[sid := h.(tasks := h.tasks[h.nextId := Task(pc, Blocked)], nextId := h.nextId + 1,
                               queue := h.queue + [Remove(record, h.nextId)])];
    }

    method Finish(sid: string, id: nat)
      requires sid in hosts
      modifies this`hosts
      ensures Performs(sid, M.Drop(old(Slice(sid)), id))
    {
      hosts := hosts[sid := hosts[sid].(tasks := hosts[sid].tasks - {id})];
    }

    method SetWorld(sid: string, w: World)
      requires sid in hosts
      modifies this`hosts
      ensures Performs(sid, M.WithWorld(old(Slice(sid)), w))
    {
      hosts := hosts[sid := hosts[sid].(world := w)];
    }

    method ClearPendingAwaiting(sid: string, expected: Record)
      requires sid in hosts
      modifies this`pendingAwaiting
      ensures Performs(sid, M.ClearPendingAwaiting(old(Slice(sid)), expected))
    {
      if sid in pendingAwaiting && SameRecord(Some(pendingAwaiting[sid]), expected) {
        pendingAwaiting := pendingAwaiting - {sid};
      }
    }

    method ReleaseInFlight(sid: string)
      requires sid in hosts
      modifies this`inFlight
      ensures Performs(sid, M.EndActivation(old(Slice(sid)), true))
    {
      inFlight := inFlight - {sid};
    }

    method LeaveMaintenance(sid: string)
      requires sid in hosts
      modifies this`hosts, this`inFlight
      ensures Performs(sid, M.EndActivation(M.LeaveMaintenance(old(Slice(sid))), true))
    {
      if hosts[sid].world.status.Maintenance? {
        hosts := hosts[sid := hosts[sid].(world := hosts[sid].world.(status := Idle))];
      }
      inFlight := inFlight - {sid};
    }

    // ---- The entry points -----------------------------------------------------

    method Start()
      modifies this
      ensures hosts.Keys == old(hosts.Keys)
      ensures forall sid | sid in hosts :: Slice(sid) == M.StartRuntime(old(Slice(sid)))
    {
      hide M.Reconcile;
      if started { return; }
      started := true;
      label Begun:
      assert forall sid | sid in hosts :: Slice(sid) == old(Slice(sid)).(started := true);
      ReconcileAll();
      assert forall sid | sid in hosts :: M.StartRuntime(old(Slice(sid))) == M.Reconcile(old@Begun(Slice(sid)));
    }

    method ReconcileAll()
      modifies this
      ensures hosts.Keys == old(hosts.Keys)
      ensures forall sid | sid in hosts :: Slice(sid) == M.Reconcile(old(Slice(sid)))
    {
      hide M.Reconcile, M.OnlyQueues;
      ghost var begun := map sid | sid in hosts :: Slice(sid);
      var todo := hosts.Keys;
      while todo != {}
        invariant hosts.Keys == begun.Keys && todo <= hosts.Keys
        invariant forall sid | sid in hosts && sid in todo :: Slice(sid) == begun[sid]
        invariant forall sid | sid in hosts && sid !in todo :: Slice(sid) == M.Reconcile(begun[sid])
        decreases |todo|
      {
        var sid :| sid in todo;
        Reconcile(sid);
        todo := todo - {sid};
      }
    }

    method Reconcile(sid: string)
      requires sid in hosts
      modifies this
      ensures Performs(sid, M.Reconcile(old(Slice(sid))))
    {
      var agent := hosts[sid].world.agent;
      if sid in pendingAwaiting {
        if agent.Some? { ReconcileAwaiting(sid, pendingAwaiting[sid]); }
        return;
      }
      if hosts[sid].store.None? { return; }
      var record := hosts[sid].store.value;
      if !SameRecord(hosts[sid].store, record) { return; }
      if record.Scheduled? {
        Arm(sid, record);
      } else if agent.Some? {
        if record.Recovering? {
          HandleAgentReady(sid, agent.value);
        } else if record.Awaiting? {
          ReconcileAwaiting(sid, record);
        }
      }
    }

    method Dispose()
      modifies this`started, this`timers
      ensures hosts == old(hosts)
      ensures forall sid | sid in hosts :: Slice(sid) == M.DisposeRuntime(old(Slice(sid)))
    {
      if !started { return; }
      started := false;
      timers := map[];
    }

    /** `next()` has answered; `retried` when the native retry plugin keeps the request. */
    method HandleRequestError(sid: string, step: nat, provider: string, failure: Failure, retried: bool)
      requires sid in hosts && hosts[sid].world.status.Running?
      modifies this
      ensures Performs(sid, M.RequestError(old(Slice(sid)), step, provider, failure, retried))
    {
      var w := hosts[sid].world;
      var turn := w.status.turn;
      if retried { return; }
      if !started || Classify(failure).Ignore? || w.agent.None? || w.assignment.None?
         || w.assignment.value.sessionId != w.sessionId {
        SetWorld(sid, w.(status := Running(turn, Answered)));
        return;
      }
      var prior := if sid in pendingAwaiting then Some(pendingAwaiting[sid]) else hosts[sid].store;
      var record := Awaiting(Base(w.assignment.value, turn, step, provider, failure, w.now,
                                  CarryUnknownFallback(w, w.assignment.value, prior, failure)));
      if sid in timers {
        timers := timers - {sid};
      }
      pendingAwaiting := pendingAwaiting[sid := record];
      SetWorld(sid, w.(status := Running(turn, Called)));
      AwaitPut(sid, record, HookPut(record));
    }

    method HandleSessionEvent(sid: string, event: TurnEnd)
      requires sid in hosts
      modifies this`hosts
      ensures Performs(sid, M.SessionEvent(old(Slice(sid)), event))
    {
      if !started { return; }
      var current := if sid in pendingAwaiting then Some(pendingAwaiting[sid]) else hosts[sid].store;
      if current.None? { return; }
      if current.value.Recovering? && event.turn > current.value.base.turn {
        Suspend(sid, SettleFlush(event, current.value), Blocked);
        return;
      }
      if !current.value.Awaiting? || current.value.base.turn != event.turn { return; }
      Suspend(sid, TerminalFlush(event, current.value), Blocked);
    }

    /** `findLast` from the end of the log. */
    method FindLastTurn(log: seq<TurnEnd>, turn: nat) returns (found: Option<TurnEnd>)
      ensures found == M.FindTurn(log, turn)
    {
      var i := |log|;
      assert log[..i] == log;
      while i > 0
        invariant 0 <= i <= |log|
        invariant M.FindTurn(log, turn) == M.FindTurn(log[..i], turn)
      {
        assert log[..i][..i - 1] == log[..i - 1];
        if log[i - 1].turn == turn { return Some(log[i - 1]); }
        i := i - 1;
      }
      found := None;
    }

    method FindLastLater(log: seq<TurnEnd>, turn: nat) returns (found: Option<TurnEnd>)
      ensures found == M.FindLater(log, turn)
    {
      var i := |log|;
      assert log[..i] == log;
      while i > 0
        invariant 0 <= i <= |log|
        invariant M.FindLater(log, turn) == M.FindLater(log[..i], turn)
      {
        assert log[..i][..i - 1] == log[..i - 1];
        if log[i - 1].turn > turn { return Some(log[i - 1]); }
        i := i - 1;
      }
      found := None;
    }

    method ReconcileAwaiting(sid: string, record: Record)
      requires sid in hosts
      modifies this`hosts
      ensures Performs(sid, M.ReconcileAwaiting(old(Slice(sid)), record))
    {
      var terminal := FindLastTurn(hosts[sid].world.log, record.base.turn);
      if terminal.Some? { HandleSessionEvent(sid, terminal.value); }
    }

    method Arm(sid: string, record: Record)
      requires sid in hosts
      modifies this`timers
      ensures Performs(sid, M.Arm(old(Slice(sid)), record))
    {
      if !started { return; }
      if !SameRecord(hosts[sid].store, record) { return; }
      if sid in timers {
        if SameRecord(Some(timers[sid]), record) { return; }
        timers := timers - {sid};
      }
      if hosts[sid].world.timerOk {
        timers := timers[sid := record];
      }
    }

    method RemoveCurrent(sid: string, record: Record, owner: bool)
      requires sid in hosts
      modifies this
      ensures Performs(sid, M.RemoveCurrent(old(Slice(sid)), record, owner))
    {
      if sid in pendingAwaiting && SameRecord(Some(pendingAwaiting[sid]), record) {
        pendingAwaiting := pendingAwaiting - {sid};
        if SameRecord(hosts[sid].store, record) {
          AwaitRemove(sid, record, Removing(record, true, owner));
        } else {
          ClearTimer(sid);
          if owner { ReleaseInFlight(sid); }
        }
        return;
      }
      AwaitRemove(sid, record, Removing(record, false, owner));
    }

    method HandleAgentCreated(sid: string, caller: nat)
      requires sid in hosts
      modifies this
      ensures Performs(sid, M.AgentCreated(old(Slice(sid)), caller))
    {
      if sid in pendingAwaiting {
        ReconcileAwaiting(sid, pendingAwaiting[sid]);
        return;
      }
      if hosts[sid].store.None? { return; }
      var record := hosts[sid].store.value;
      if record.Awaiting? {
        ReconcileAwaiting(sid, record);
      } else if record.Scheduled? {
        Arm(sid, record);
      } else if record.Recovering? {
        HandleAgentReady(sid, caller);
      }
    }

    method HandleAgentReady(sid: string, caller: nat)
      requires sid in hosts
      modifies this
      ensures Performs(sid, M.AgentReady(old(Slice(sid)), caller))
    {
      if !started { return; }
      if sid in pendingAwaiting {
        ReconcileAwaiting(sid, pendingAwaiting[sid]);
        return;
      }
      if hosts[sid].store.None? { return; }
      var record := hosts[sid].store.value;
      if record.Awaiting? {
        ReconcileAwaiting(sid, record);
        return;
      }
      if record.Recovering? {
        var terminal := FindLastLater(hosts[sid].world.log, record.base.turn);
        if terminal.Some? {
          HandleSessionEvent(sid, terminal.value);
        } else {
          ResumeRecovering(sid, record, caller);
        }
        return;
      }
      if !record.Scheduled? { return; }
      if hosts[sid].world.now as real < record.dueAt {
        Arm(sid, record);
        return;
      }
      ResumeScheduled(sid, record, Some(caller));
    }

    method HandleAdapterEdge(sid: string, caller: nat, deferred: bool)
      requires sid in hosts
      modifies this
      ensures Performs(sid, M.AdapterEdge(old(Slice(sid)), caller, deferred))
    {
      if !started { return; }
      if sid in pendingAwaiting && !deferred {
        ReconcileAwaiting(sid, pendingAwaiting[sid]);
        return;
      }
      if hosts[sid].store.Some? && hosts[sid].store.value.Operator? {
        ResumeOperator(sid, hosts[sid].store.value, caller);
        return;
      }
      HandleAgentReady(sid, caller);
    }

    method ResumeOperator(sid: string, record: Record, caller: nat)
      requires sid in hosts && record.Operator?
      modifies this
      ensures Performs(sid, M.ResumeOperator(old(Slice(sid)), record, caller))
    {
      var w := hosts[sid].world;
      var own := record.base.assignment.continuation;
      if !started || !SameRecord(hosts[sid].store, record) || w.agent != Some(caller) || !w.status.Idle? { return; }
      if !AssignmentAndContinuationMatch(w, record, own) {
        RemoveCurrent(sid, record, false);
        return;
      }
      if !MechanicalContinuationAvailable(w, own) { return; }
      var scheduled := Scheduled(record.base, record.terminalSeq, w.now as real);
      AwaitPut(sid, scheduled, Rescheduling(scheduled, caller));
    }

    /** The callback of an armed timer. */
    method FireTimer(sid: string)
      requires sid in hosts && sid in timers && timers[sid].Scheduled?
      modifies this
      ensures Performs(sid, M.TimerFire(old(Slice(sid))))
    {
      var record := timers[sid];
      timers := timers - {sid};
      ResumeScheduled(sid, record, None);
    }

    method ResumeScheduled(sid: string, record: Record, known: Option<nat>)
      requires sid in hosts && record.Scheduled?
      modifies this
      ensures Performs(sid, M.ResumeScheduled(old(Slice(sid)), record, known))
    {
      var w := hosts[sid].world;
      if !started { return; }
      if !SameRecord(hosts[sid].store, record) { return; }
      if w.now as real < record.dueAt {
        Arm(sid, record);
        return;
      }
      if sid in inFlight { return; }
      var caller := if known.Some? then known else w.agent;
      if caller.None? || w.agent != caller || !w.status.Idle? { return; }
      var own := record.base.assignment.continuation;
      var applied := AppliedGoalContinuation(w, record);
      if applied.Some? {
        ResumeExact(sid, record, caller.value, own, applied);
        return;
      }
      if !AssignmentAndContinuationMatch(w, record, own) {
        RemoveCurrent(sid, record, false);
        return;
      }
      ResumeExact(sid, record, caller.value, own, None);
    }

    method ResumeRecovering(sid: string, record: Record, caller: nat)
      requires sid in hosts && record.Recovering?
      modifies this
      ensures Performs(sid, M.ResumeRecovering(old(Slice(sid)), record, caller))
    {
      var w := hosts[sid].world;
      if !started || !SameRecord(hosts[sid].store, record) || w.agent != Some(caller) || !w.status.Idle?
         || sid in inFlight { return; }
      var resumed := record.resumed;
      if resumed.ReviewContinuation? {
        if AssignmentAndContinuationMatch(w, record, resumed) {
          ResumeExact(sid, record, caller, resumed, None);
        } else {
          RemoveCurrent(sid, record, false);
        }
        return;
      }
      if w.goal.phase.Active? && w.goal.id == resumed.goalId && w.goal.revision == resumed.revision
         && w.goal.objectiveHash == resumed.objectiveHash {
        if w.goal.armed { return; }
        if AssignmentAndContinuationMatch(w, record, resumed) {
          ResumeExact(sid, record, caller, resumed, None);
        } else {
          RemoveCurrent(sid, record, false);
        }
        return;
      }
      var own := record.base.assignment.continuation;
      if own.GoalContinuation? && ExactDisarmedGoal(w.goal, own) && AssignmentAndContinuationMatch(w, record, own) {
        ResumeExact(sid, record, caller, own, None);
        return;
      }
      RemoveCurrent(sid, record, false);
    }

    method ResumeExact(sid: string, record: Record, caller: nat, expected: Continuation, applied: Option<Continuation>)
      requires sid in hosts && Acting(record)
      modifies this
      ensures Performs(sid, M.ResumeExact(old(Slice(sid)), record, caller, expected, applied))
    {
      if !started { return; }
      if sid in inFlight { return; }
      if applied.None? && !MechanicalContinuationAvailable(hosts[sid].world, expected) {
        PromoteOperator(sid, record);
        return;
      }
      inFlight := inFlight + {sid};
      Suspend(sid, Claiming(record, caller, expected, applied), Blocked);
    }

    method PromoteOperator(sid: string, record: Record)
      requires sid in hosts && Acting(record)
      modifies this`hosts
      ensures Performs(sid, M.PromoteOperator(old(Slice(sid)), record))
    {
      if !SameRecord(hosts[sid].store, record) { return; }
      var now := hosts[sid].world.now;
      var parsed := Parse(PromotionRaw(record, record.terminalSeq, now));
      match parsed
      case Some(next) => AwaitPut(sid, next, PublishOperator(next, None));
      case None => Suspend(sid, PublishOperator(PromotionRecord(record, record.terminalSeq, now), None), Ready(false, false));
    }

    // ---- After a flush ------------------------------------------------------------

    method AfterTerminalFlush(sid: string, event: TurnEnd, current: Record)
      requires sid in hosts
      modifies this
      ensures Performs(sid, M.AfterTerminalFlush(old(Slice(sid)), event, current))
    {
      var w := hosts[sid].world;
      if !started { return; }
      var now := if sid in pendingAwaiting then Some(pendingAwaiting[sid]) else hosts[sid].store;
      if !SameRecord(now, current) { return; }
      if !event.reason.Failed? || !SameFailure(event.reason.failure, current.base.failure) {
        RemoveCurrent(sid, current, false);
        return;
      }
      var disposition := Classify(current.base.failure);
      if disposition.Automatic? || (disposition.Unknown? && !current.base.fallbackUsed) {
        var next := Scheduled(current.base.(fallbackUsed := false), event.eventSeq,
                              w.now as real + RetryDelay(current.base.failure, w.retryDelay));
        AwaitPut(sid, next, PublishScheduled(next, Some(current)));
        return;
      }
      var next := Operator(current.base, event.eventSeq);
      AwaitPut(sid, next, PublishOperator(next, Some(current)));
    }

    method AfterSettleFlush(sid: string, event: TurnEnd, current: Record)
      requires sid in hosts && current.Recovering?
      modifies this
      ensures Performs(sid, M.AfterSettleFlush(old(Slice(sid)), event, current))
    {
      var w := hosts[sid].world;
      if !started { return; }
      if !SameRecord(hosts[sid].store, current) { return; }
      if !event.reason.Failed? {
        RemoveCurrent(sid, current, false);
        return;
      }
      var failure := event.reason.failure;
      var disposition := Classify(failure);
      if disposition.Ignore? || w.agent.None? || w.assignment.None?
         || !SameAssignmentIdentity(w.assignment.value, current) {
        RemoveCurrent(sid, current, false);
        return;
      }
      var sameFallback := disposition.Unknown? && current.base.fallbackUsed
                          && current.base.failure.code == failure.code;
      var base := Base(w.assignment.value, event.turn, current.base.step, current.base.provider, failure, w.now, false);
      if disposition.Automatic? || (disposition.Unknown? && !sameFallback) {
        var next := Scheduled(base, event.eventSeq, w.now as real + RetryDelay(failure, w.retryDelay));
        AwaitPut(sid, next, PublishScheduled(next, None));
        return;
      }
      var next := Operator(base.(fallbackUsed := sameFallback), event.eventSeq);
      AwaitPut(sid, next, PublishOperator(next, None));
    }

    /** A flush awaited by activation `id` settled. */
    method FlushSettled(sid: string, id: nat, ok: bool)
      requires sid in hosts && Enabled(Slice(sid), DoFlush(id, ok))
      modifies this
      ensures Performs(sid, M.FlushDone(old(Slice(sid)), id, ok))
    {
      var pc := hosts[sid].tasks[id].pc;
      if ok {
        var h := hosts[sid];
        hosts := hosts[sid := h.(world := h.world.(saved := |h.world.log|, goalSaved := h.world.goal),
                                 effectsSaved := |h.effects|)];
      }
      Finish(sid, id);
      if pc.Checkpointing? {
        LeaveMaintenance(sid);
      } else if ok {
        if pc.TerminalFlush? {
          AfterTerminalFlush(sid, pc.event, pc.current);
        } else {
          AfterSettleFlush(sid, pc.event, pc.current);
        }
      }
    }

    // ---- The maintenance callback ------------------------------------------------------

    method AfterApplied(sid: string, record: Record, resumed: Continuation)
      requires sid in hosts && Acting(record)
      modifies this`hosts, this`inFlight
      ensures Performs(sid, M.AfterApplied(old(Slice(sid)), record, resumed))
    {
      if !started {
        LeaveMaintenance(sid);
        return;
      }
      var next := Recovering(
        record.base.(fallbackUsed := record.base.fallbackUsed || Classify(record.base.failure).Unknown?),
        record.terminalSeq, resumed, hosts[sid].world.now);
      AwaitPut(sid, next, Writing(next));
    }

    method ApplyContinuation(sid: string, record: Record, caller: nat, expected: Continuation)
      requires sid in hosts
      modifies this`hosts
      ensures Performs(sid, M.ApplyContinuation(old(Slice(sid)), record, caller, expected))
    {
      var h := hosts[sid];
      var w := h.world;
      var effect := Effect(record, expected, w.now, h.store, w.goal, w.assignment, w.agent, caller);
      if expected.GoalContinuation? {
        var goal := w.goal.(revision := w.goal.revision + 1, armed := true);
        hosts := hosts[sid := h.(world := w.(status := Maintenance, goal := goal), effects := h.effects + [effect])];
        Suspend(sid, Resumed(record, GoalContinuation(goal.id, goal.revision, goal.objectiveHash)), Ready(true, false));
        return;
      }
      if !w.reviewRoute {
        Suspend(sid, Closing(record), Ready(true, false));
        return;
      }
      hosts := hosts[sid := h.(world := w.(status := Maintenance), effects := h.effects + [effect])];
      Suspend(sid, Waking(record, expected), Blocked);
    }

    method EnterMaintenance(sid: string, id: nat, outcome: ResumeOutcome)
      requires sid in hosts && Enabled(Slice(sid), DoEnter(id, outcome))
      modifies this
      ensures Performs(sid, M.EnterMaintenance(old(Slice(sid)), id, outcome))
    {
      hide M.AfterApplied, M.ApplyContinuation, M.AssignmentAndContinuationMatch, M.AssignmentAndAppliedGoalMatch,
        SameRecord, M.LeaveMaintenance;
      var pc := hosts[sid].tasks[id].pc;
      var record := pc.record;
      var w := hosts[sid].world;
      Finish(sid, id);
      if !started {
        ReleaseInFlight(sid);
        return;
      }
      if !SameRecord(hosts[sid].store, record) || w.agent != Some(pc.caller)
         || !(if pc.applied.None? then AssignmentAndContinuationMatch(w, record, pc.expected)
              else AssignmentAndAppliedGoalMatch(w, record, pc.applied.value)) {
        Suspend(sid, Closing(record), Ready(true, false));
        return;
      }
      if pc.applied.Some? {
        SetWorld(sid, w.(status := Maintenance));
        AfterApplied(sid, record, pc.applied.value);
        return;
      }
      if outcome.ResumeThrows? {
        ReleaseInFlight(sid);
        return;
      }
      ApplyContinuation(sid, record, pc.caller, pc.expected);
    }

    method ClaimRejected(sid: string, id: nat)
      requires sid in hosts && Enabled(Slice(sid), DoReject(id))
      modifies this
      ensures Performs(sid, M.ClaimRejected(old(Slice(sid)), id))
    {
      Finish(sid, id);
      ReleaseInFlight(sid);
    }

    method ReviewSettled(sid: string, id: nat, outcome: WakeOutcome)
      requires sid in hosts && Enabled(Slice(sid), DoReview(id, outcome))
      modifies this
      ensures Performs(sid, M.ReviewDone(old(Slice(sid)), id, outcome))
    {
      var pc := hosts[sid].tasks[id].pc;
      Finish(sid, id);
      match outcome {
        case WakeThrows => LeaveMaintenance(sid);
        case Stale =>
          if !started {
            LeaveMaintenance(sid);
          } else {
            if hosts[sid].world.status.Maintenance? {
              SetWorld(sid, hosts[sid].world.(status := Idle));
            }
            Suspend(sid, Closing(pc.record), Ready(true, false));
          }
        case Started => AfterApplied(sid, pc.record, pc.expected);
      }
    }

    // ---- After a store operation ---------------------------------------------------------

    /** The head of the Session's store queue takes effect, or fails. */
    method StoreOpSettled(sid: string, ok: bool)
      requires sid in hosts && hosts[sid].queue != []
      modifies this`hosts
      ensures Performs(sid, M.RunStoreOp(old(Slice(sid)), ok))
    {
      var h := hosts[sid];
      var op := h.queue[0];
      var removed := false;
      var store := h.store;
      if ok {
        if op.Put? {
          store := Some(op.record);
        } else if store == Some(op.record) {
          store := None;
          removed := true;
        }
      }
      var tasks := h.tasks;
      if op.id in tasks {
        tasks := tasks[op.id := Task(tasks[op.id].pc, Ready(ok, removed))];
      }
      hosts := hosts[sid := h.(queue := h.queue[1..], store := store, tasks := tasks)];
    }

    method HookSettled(sid: string, candidate: Record, ok: bool)
      requires sid in hosts
      modifies this
      ensures var t := old(Slice(sid));
              var u := if ok && t.pending == Some(candidate) then t.(pending := None) else t;
              var w := u.host.world;
              Performs(sid, if w.status.Running? && w.status.hook.Called?
                            then M.WithWorld(u, w.(status := Running(w.status.turn, Answered))) else u)
    {
      if ok && sid in pendingAwaiting && pendingAwaiting[sid] == candidate {
        pendingAwaiting := pendingAwaiting - {sid};
      }
      var w := hosts[sid].world;
      if w.status.Running? && w.status.hook.Called? {
        SetWorld(sid, w.(status := Running(w.status.turn, Answered)));
      }
    }

    /** The awaited store operation or settled promise of activation `id` lets it go on. */
    method ContinueActivation(sid: string, id: nat)
      requires sid in hosts && Enabled(Slice(sid), DoContinue(id))
      modifies this
      ensures Performs(sid, M.Continue(old(Slice(sid)), id))
    {
      hide M.ResumeScheduled, M.RemoveCurrent, M.AfterApplied, M.Arm;
      var pc := hosts[sid].tasks[id].pc;
      var signal := hosts[sid].tasks[id].signal;
      Finish(sid, id);
      match pc {
        case HookPut(candidate) => HookSettled(sid, candidate, signal.ok);
        case PublishScheduled(next, clears) =>
          if signal.ok {
            if clears.Some? { ClearPendingAwaiting(sid, clears.value); }
            Arm(sid, next);
          }
        case PublishOperator(next, clears) =>
          if signal.ok && clears.Some? { ClearPendingAwaiting(sid, clears.value); }
        case Removing(record, wasPending, owner) =>
          if signal.ok && (wasPending || signal.removed) { ClearTimer(sid); }
          if owner { ReleaseInFlight(sid); }
        case Rescheduling(next, caller) =>
          if signal.ok && SameRecord(hosts[sid].store, next) { ResumeScheduled(sid, next, Some(caller)); }
        case Resumed(record, resumed) => AfterApplied(sid, record, resumed);
        case Writing(next) =>
          if signal.ok && started {
            Suspend(sid, Checkpointing, Blocked);
          } else {
            LeaveMaintenance(sid);
          }
        case Closing(record) =>
          if started { RemoveCurrent(sid, record, true); } else { ReleaseInFlight(sid); }
        case _ =>
      }
    }
  }
}
