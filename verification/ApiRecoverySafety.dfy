/**
 Safety of API recovery over whole runs: any interleaving of request errors,
 turn ends, idle edges, adapter updates, timers, failing writes, restarts and
 crashes that lose every unflushed event.
 */
module ApiRecoverySafety {
  import opened Wrappers
  import opened ApiRecoveryRecords
  import opened ApiRecoveryMachine
  import opened ApiRecoveryInvariants

  // ---- Every step keeps the invariant ----------------------------------------

  /** A world that only moved forward judges suspended activations the same. */
  lemma WorldKeeps(s: State, w: World)
    requires Inv(s)
    requires w.saved == s.host.world.saved && s.host.world.log <= w.log && s.host.world.now <= w.now
    requires w.goalSaved == s.host.world.goalSaved
    requires w.goal == s.host.world.goal || GoalMayBecome(s.host.world.goal, w.goal)
    requires s.host.world.status.Maintenance? <==> w.status.Maintenance?
    ensures Inv(WithWorld(s, w))
  {
  }

  lemma CrashKeeps(s: State, keep: nat, keepGoal: bool)
    requires Inv(s) && Enabled(s, Crashes(keep, keepGoal))
    ensures Inv(Crash(s, keep, keepGoal))
  {
  }

  lemma DisposeKeeps(s: State)
    requires Inv(s)
    ensures Inv(DisposeRuntime(s))
  {
  }

  lemma CheckpointKeeps(s: State)
    requires Inv(s)
    ensures Inv(Flushed(s))
  {
  }

  /** The environment's own moves, short of a checkpoint or a crash. */
  predicate WorldMove(a: Action) {
    a.Tick? || a.AgentAppears? || a.AgentLeaves? || a.TurnStarts? || a.TurnEnds? || a.GoalChanges?
    || a.AssignmentChanges? || a.TimersWork?
  }

  lemma WorldMoveKeeps(s: State, a: Action)
    requires Inv(s) && Enabled(s, a) && WorldMove(a)
    ensures Inv(Step(s, a))
  {
    hide Inv;
    var w := s.host.world;
    match a
    case Tick(later) => WorldKeeps(s, w.(now := w.now + later));
    case AgentAppears => WorldKeeps(s, w.(agent := Some(w.agentCount), agentCount := w.agentCount + 1));
    case AgentLeaves => WorldKeeps(s, w.(agent := None));
    case TurnStarts(turn) => WorldKeeps(s, w.(status := Running(turn, NotCalled), lastTurn := turn));
    case TurnEnds(eventSeq, reason) =>
      WorldKeeps(s, w.(status := Idle, log := w.log + [TurnEnd(w.status.turn, eventSeq, reason)]));
    case GoalChanges(goal) => WorldKeeps(s, w.(goal := goal));
    case AssignmentChanges(assignment) => WorldKeeps(s, w.(assignment := assignment));
    case TimersWork(works) => WorldKeeps(s, w.(timerOk := works));
  }

  lemma StepKeeps(s: State, a: Action)
    requires Inv(s) && Enabled(s, a)
    ensures Inv(Step(s, a))
  {
    hide Inv, Flushed, StartRuntime, DisposeRuntime, RequestError, SessionEvent, AgentReady, AgentCreated, AdapterEdge,
      TimerFire, RunStoreOp, Continue, FlushDone, ClaimRejected, EnterMaintenance, ReviewDone, Crash;
    match a
    case DoStart => StartKeeps(s);
    case DoDispose => DisposeKeeps(s);
    case DoRequestError(step, provider, failure, retried) => RequestErrorKeeps(s, step, provider, failure, retried);
    case DoSessionEvent(event) => SessionEventKeeps(s, event);
    case DoAgentReady(caller) => AgentReadyKeeps(s, caller);
    case DoAgentCreated(caller) => AgentCreatedKeeps(s, caller);
    case DoAdapterEdge(caller, deferred) => AdapterEdgeKeeps(s, caller, deferred);
    case DoTimer => TimerKeeps(s);
    case DoStoreOp(ok) => StoreOpKeeps(s, ok);
    case DoContinue(id) => if Owner(s.host.tasks[id].pc) { ContinueOwnerKeeps(s, id); } else { ContinueKeeps(s, id); }
    case DoFlush(id, ok) => FlushKeeps(s, id, ok);
    case DoReject(id) => RejectKeeps(s, id);
    case DoEnter(id, outcome) => EnterKeeps(s, id, outcome);
    case DoReview(id, wake) => ReviewKeeps(s, id, wake);
    case Checkpoint => CheckpointKeeps(s);
    case Crashes(keep, keepGoal) => CrashKeeps(s, keep, keepGoal);
    case _ => WorldMoveKeeps(s, a);
  }

  lemma {:induction false} RunKeeps(s: State, run: seq<Action>)
    requires Inv(s) && ValidRun(s, run)
    ensures Inv(After(s, run))
    decreases |run|
  {
    if run != [] {
      StepKeeps(s, run[0]);
      RunKeeps(Step(s, run[0]), run[1..]);
    }
  }

  /** `t` is what one enabled action makes of `s`. */
  predicate Moves(s: State, a: Action, t: State) { Enabled(s, a) && Step(s, a) == t }

  /** A valid run from `s` to `t`. */
  predicate Reaches(s: State, run: seq<Action>, t: State) { ValidRun(s, run) && After(s, run) == t }

  lemma Prepend(s: State, a: Action, mid: State, rest: seq<Action>, t: State)
    requires Moves(s, a, mid) && Reaches(mid, rest, t)
    ensures Reaches(s, [a] + rest, t)
  {
  }

  lemma PrependTwo(s: State, a: Action, mid: State, b: Action, next: State, rest: seq<Action>, t: State)
    requires Moves(s, a, mid) && Moves(mid, b, next) && Reaches(next, rest, t)
    ensures Reaches(s, [a] + ([b] + rest), t)
  {
    hide Moves, Reaches;
    Prepend(mid, b, next, rest, t);
    Prepend(s, a, mid, [b] + rest, t);
  }

  lemma {:induction false} Append(s: State, first: seq<Action>, mid: State, second: seq<Action>, t: State)
    requires Reaches(s, first, mid) && Reaches(mid, second, t)
    ensures Reaches(s, first + second, t)
    decreases |first|
  {
    hide Step, Enabled;
    if first == [] {
      assert first + second == second;
    } else {
      Append(Step(s, first[0]), first[1..], mid, second, t);
      Prepend(s, first[0], Step(s, first[0]), first[1..] + second, t);
      assert first + second == [first[0]] + (first[1..] + second);
    }
  }

  lemma MoveKeeps(s: State, a: Action, t: State)
    requires Inv(s) && Moves(s, a, t)
    ensures Inv(t)
  {
    hide Step, Enabled, Inv;
    StepKeeps(s, a);
  }

  lemma ReachesNothing(s: State)
    ensures Reaches(s, [], s)
  {
  }

  lemma MoveStoreOp(s: State)
    requires s.host.queue != []
    ensures Moves(s, DoStoreOp(true), RunStoreOp(s, true))
  {
  }

  lemma MoveAgentReady(s: State, caller: nat)
    ensures Moves(s, DoAgentReady(caller), AgentReady(s, caller))
  {
  }

  lemma MoveEnter(s: State, id: nat)
    requires id in s.host.tasks && s.host.tasks[id].pc.Claiming? && Acting(s.host.tasks[id].pc.record)
    requires s.host.world.status.Idle?
    ensures Moves(s, DoEnter(id, ResumeOk), EnterMaintenance(s, id, ResumeOk))
  {
  }

  lemma MoveContinue(s: State, id: nat)
    requires id in s.host.tasks && s.host.tasks[id].signal.Ready?
    requires var pc := s.host.tasks[id].pc;
             pc.HookPut? || pc.PublishScheduled? || pc.PublishOperator? || pc.Writing? || pc.Removing?
             || (pc.Resumed? && Acting(pc.record))
    ensures Moves(s, DoContinue(id), Continue(s, id))
  {
  }

  lemma MoveFlush(s: State, id: nat)
    requires id in s.host.tasks
    requires var pc := s.host.tasks[id].pc;
             pc.TerminalFlush? || pc.Checkpointing? || (pc.SettleFlush? && pc.current.Recovering?)
    ensures Moves(s, DoFlush(id, true), FlushDone(s, id, true))
  {
  }

  lemma InitialIsGood(s: State)
    requires Initial(s)
    ensures Inv(s)
  {
  }

  lemma ReachableIsGood(s: State, run: seq<Action>)
    requires Initial(s) && ValidRun(s, run)
    ensures Inv(After(s, run))
  {
    InitialIsGood(s);
    RunKeeps(s, run);
  }

  // ---- The theorems --------------------------------------------------------------

  /**
   Record provenance.  In every reachable state the stored record past its
   terminal, whether scheduled by a turn end, by settling a recovery or by an
   adapter update, or promoted to the operator, stands for a `turn/end` error
   event of this Session with its turn, failure and position, and that event
   is in the durable part of the log.
   */
  lemma RecordProvenance(s: State, run: seq<Action>)
    requires Initial(s) && ValidRun(s, run)
    ensures var h := After(s, run).host;
            h.store.Some? && !h.store.value.Awaiting? ==>
              h.world.saved <= |h.world.log| && Origin(h.store.value) in h.world.log[..h.world.saved]
  {
    ReachableIsGood(s, run);
  }

  /**
   In every reachable state the stored record and every queued write are ones
   the strict schema takes, so a failure it refuses is never durable.
   */
  lemma StoredRecordsFitSchema(s: State, run: seq<Action>)
    requires Initial(s) && ValidRun(s, run)
    ensures var h := After(s, run).host;
            && (h.store.Some? ==> Accepts(h.store.value))
            && (forall i :: 0 <= i < |h.queue| && h.queue[i].Put? ==> Accepts(h.queue[i].record))
  {
    ReachableIsGood(s, run);
  }

  /**
   Exact targets.  Every continuation the runtime ever applied was applied
   while the store still held the acting record, the calling agent was the
   Session's agent, the resolved assignment matched the record, and (for a
   goal) the live goal was active, disarmed and equal in id, revision and
   objective to the expected one; and never before a scheduled record's due time.
   */
  lemma ExactTargets(s: State, run: seq<Action>)
    requires Initial(s) && ValidRun(s, run)
    ensures forall e :: e in After(s, run).host.effects ==> Exact(e)
  {
    ReachableIsGood(s, run);
  }

  /** At most one activation holds the Session's in-flight mark, and then the mark is set. */
  lemma OneContinuationInFlight(s: State, run: seq<Action>, i: nat, j: nat)
    requires Initial(s) && ValidRun(s, run)
    requires i in After(s, run).host.tasks && Owner(After(s, run).host.tasks[i].pc)
    requires j in After(s, run).host.tasks && Owner(After(s, run).host.tasks[j].pc)
    ensures i == j && After(s, run).inFlight
  {
    ReachableIsGood(s, run);
    var t := After(s, run);
    assert i in Owners(t) && j in Owners(t);
  }

  /**
   While a continuation is between its effect and its settled write, no turn
   can start and no request error can arrive, so a turn after the continuation
   always meets the recovering record or a failed write.
   */
  lemma NoTurnDuringContinuation(s: State, run: seq<Action>, id: nat, a: Action)
    requires Initial(s) && ValidRun(s, run)
    requires id in After(s, run).host.tasks && Inside(After(s, run).host.tasks[id].pc)
    requires a.TurnStarts? || a.DoRequestError? || a.AgentLeaves?
    ensures !Enabled(After(s, run), a)
  {
    ReachableIsGood(s, run);
    var t := After(s, run);
    assert PcGood(t.host.world, t.host.tasks[id].pc);
  }

  /**
   No goal revision is consumed twice among the effects that survive crashes,
   and the live goal is beyond all of them.
   */
  lemma GoalRevisionsConsumedOnce(s: State, run: seq<Action>, i: nat, j: nat)
    requires Initial(s) && ValidRun(s, run)
    requires i < j < |After(s, run).host.effects|
    requires OnGoal(After(s, run).host.effects[i]) && OnGoal(After(s, run).host.effects[j])
    ensures var t := After(s, run).host;
            Before(t.effects[i].goal, t.effects[j].goal) && Before(t.effects[j].goal, t.world.goal)
  {
    ReachableIsGood(s, run);
  }

  /**
   A scheduled record leads to at most one goal resume, across failed writes,
   restarts and crashes that keep the goal: two surviving resumes never act
   for one scheduled record.
   */
  lemma ScheduledRecordResumesOnce(s: State, run: seq<Action>, i: nat, j: nat)
    requires Initial(s) && ValidRun(s, run)
    requires i < |After(s, run).host.effects| && j < |After(s, run).host.effects|
    requires var es := After(s, run).host.effects;
             OnGoal(es[i]) && OnGoal(es[j]) && es[i].record.Scheduled? && es[i].record == es[j].record
    ensures i == j
  {
    ReachableIsGood(s, run);
    var es := After(s, run).host.effects;
    assert Exact(es[i]) && Exact(es[j]);
    assert !Before(es[i].goal, es[j].goal) && !Before(es[j].goal, es[i].goal);
  }

  /** Every enabled move is one the source can make: the shape guards of `Enabled` always hold. */
  lemma ShapeGuardsHold(s: State, run: seq<Action>, id: nat)
    requires Initial(s) && ValidRun(s, run)
    requires id in After(s, run).host.tasks
    ensures var t := After(s, run);
            var pc := t.host.tasks[id].pc;
            && (t.timer.Some? ==> Enabled(t, DoTimer))
            && (pc.SettleFlush? ==> Enabled(t, DoFlush(id, true)))
            && (pc.Rescheduling? && t.host.tasks[id].signal.Ready? ==> Enabled(t, DoContinue(id)))
            && (pc.Resumed? && t.host.tasks[id].signal.Ready? ==> Enabled(t, DoContinue(id)))
            && (pc.Waking? ==> Enabled(t, DoReview(id, Started)))
  {
    ReachableIsGood(s, run);
    var t := After(s, run);
    assert PcGood(t.host.world, t.host.tasks[id].pc);
  }

  /** A timer whose record is no longer the stored one does nothing but disappear. */
  lemma StaleTimerIsInert(s: State)
    requires Enabled(s, DoTimer) && s.host.store != s.timer
    ensures Step(s, DoTimer) == s.(timer := None)
  {
  }

  /**
   A remove that reaches the store deletes exactly the record it expects; a
   newer incident stays.
   */
  lemma RemoveDeletesOnlyItsRecord(s: State, ok: bool)
    requires s.host.queue != [] && s.host.queue[0].Remove?
    ensures var after := Step(s, DoStoreOp(ok)).host.store;
            after == (if ok && s.host.store == Some(s.host.queue[0].record) then None else s.host.store)
  {
  }

  // ---- The crash window ------------------------------------------------------------

  /** The goal was resumed for the stored scheduled record and is still armed there. */
  predicate ResumeLanded(s: State) {
    var w := s.host.world;
    && s.host.store.Some? && s.host.store.value.Scheduled?
    && var own := s.host.store.value.base.assignment.continuation;
       && own.GoalContinuation?
       && w.goal.phase.Active? && w.goal.armed && w.goal.id == own.goalId
       && w.goal.revision == own.revision + 1 && w.goal.objectiveHash == own.objectiveHash
  }

  /** The live assignment is the record's, still at the old continuation or already at the resumed one. */
  predicate AssignmentFollows(s: State)
    requires ResumeLanded(s)
  {
    var w := s.host.world;
    var record := s.host.store.value;
    && w.assignment.Some?
    && SameAssignmentIdentity(w.assignment.value, record)
    && (w.assignment.value.continuation == record.base.assignment.continuation
        || w.assignment.value.continuation == GoalContinuation(w.goal.id, w.goal.revision, w.goal.objectiveHash))
  }

  lemma EnterNeedsDisarmedGoal(s: State, id: nat, outcome: ResumeOutcome)
    requires s.host.world.goal.armed && Enabled(s, DoEnter(id, outcome))
    ensures EnterMaintenance(s, id, outcome).host.world.goal == s.host.world.goal
    ensures forall e :: e in EnterMaintenance(s, id, outcome).host.effects && e !in s.host.effects ==> !OnGoal(e)
  {
  }

  /** While the goal is armed, no step of the runtime resumes it. */
  lemma ArmedGoalIsNotTouched(s: State, a: Action)
    requires s.host.world.goal.armed && Inv(s) && Enabled(s, a)
    requires !a.GoalChanges? && (a.Crashes? ==> a.keepGoal)
    ensures Step(s, a).host.world.goal == s.host.world.goal
    ensures forall e :: e in Step(s, a).host.effects && e !in s.host.effects ==> !OnGoal(e)
  {
    hide StartRuntime, DisposeRuntime, RequestError, SessionEvent, AgentReady, AgentCreated, AdapterEdge, TimerFire,
      RunStoreOp, Continue, FlushDone, ReviewDone, EnterMaintenance;
    if a.DoEnter? {
      EnterNeedsDisarmedGoal(s, a.id, a.outcome);
    }
  }

  /** Others may change the goal but leave it armed, and no crash loses it. */
  predicate KeepsArmed(a: Action) {
    (a.GoalChanges? ==> a.goal.armed) && (a.Crashes? ==> a.keepGoal)
  }

  /**
   Once a resume landed, no run resumes a goal again until someone disarms it,
   however often the goal changes meanwhile: not through the scheduled record,
   not through the recovering record that adopts it, not after a restart that
   kept the goal.
   */
  lemma {:induction false} LandedResumeIsFinal(s: State, run: seq<Action>)
    requires s.host.world.goal.armed && Inv(s) && ValidRun(s, run)
    requires forall a :: a in run ==> KeepsArmed(a)
    ensures After(s, run).host.world.goal.armed
    ensures forall e :: e in After(s, run).host.effects && e !in s.host.effects ==> !OnGoal(e)
    ensures (forall a :: a in run ==> !a.GoalChanges?) ==> After(s, run).host.world.goal == s.host.world.goal
    decreases |run|
  {
    if run != [] {
      assert run[0] in run && forall a :: a in run[1..] ==> a in run;
      var t := Step(s, run[0]);
      StepKeeps(s, run[0]);
      if !run[0].GoalChanges? {
        ArmedGoalIsNotTouched(s, run[0]);
      }
      LandedResumeIsFinal(t, run[1..]);
    }
  }

  /**
   The next pass.  With the resume landed, the recovering write missing, an
   idle agent and a due record, the idle edge followed by the maintenance and
   a successful write stores the recovering record at exactly the landed
   revision, and neither goal nor effects change.
   */
  lemma NextPassAdoptsLandedResume(s: State)
    returns (t: State)
    requires Inv(s) && ResumeLanded(s) && AssignmentFollows(s)
    requires s.started && !s.inFlight && s.pending.None? && s.host.queue == []
    requires s.host.world.agent.Some? && s.host.world.status.Idle?
    requires s.host.store.value.dueAt <= s.host.world.now as real
    requires s.host.world.now <= MAX_SAFE_INTEGER && s.host.world.goal.revision <= MAX_SAFE_INTEGER
    ensures Reaches(s, [DoAgentReady(s.host.world.agent.value)] + ([DoEnter(s.host.nextId, ResumeOk)]
                       + ([DoStoreOp(true)] + [])), t)
    ensures && t.host.store.Some? && t.host.store.value.Recovering?
            && t.host.store.value.resumed
               == GoalContinuation(s.host.world.goal.id, s.host.world.goal.revision, s.host.world.goal.objectiveHash)
            && t.host.store.value.terminalSeq == s.host.store.value.terminalSeq
            && t.host.world.goal == s.host.world.goal
            && t.host.effects == s.host.effects
  {
    assert Good(s);
    hide Step, Enabled, Reaches, Moves, Inv, Accepts, Good;
    var caller := s.host.world.agent.value;
    var id := s.host.nextId;
    var record := s.host.store.value;
    var w := s.host.world;
    var landed := GoalContinuation(w.goal.id, w.goal.revision, w.goal.objectiveHash);
    var pc := Claiming(record, caller, record.base.assignment.continuation, Some(landed));
    assert AppliedGoalContinuation(w, record) == Some(landed);
    var s1 := AgentReady(s, caller);
    MoveAgentReady(s, caller);
    assert s1 == Spawn(s.(inFlight := true), pc, Blocked);
    assert s1.host.tasks[id] == Task(pc, Blocked);
    ContinuedIsAccepted(record, landed, w.now);
    var s2 := EnterMaintenance(s1, id, ResumeOk);
    MoveEnter(s1, id);
    assert |s2.host.queue| == 1 && s2.host.queue[0].Put?;
    t := RunStoreOp(s2, true);
    MoveStoreOp(s2);
    ReachesNothing(t);
    Prepend(s2, DoStoreOp(true), t, [], t);
    Prepend(s1, DoEnter(id, ResumeOk), s2, [DoStoreOp(true)] + [], t);
    Prepend(s, DoAgentReady(caller), s1, [DoEnter(id, ResumeOk)] + ([DoStoreOp(true)] + []), t);
  }

  /** The recovering record a continuation of `record` writes. */
  function ContinuedRecord(record: Record, resumed: Continuation, now: nat): Record
    requires Acting(record)
  {
    Recovering(record.base.(fallbackUsed := record.base.fallbackUsed || Classify(record.base.failure).Unknown?),
               record.terminalSeq, resumed, now)
  }

  lemma ContinuedIsAccepted(record: Record, resumed: Continuation, now: nat)
    requires Acting(record) && Accepts(record) && ContinuationAccepted(resumed) && now <= MAX_SAFE_INTEGER
    ensures Accepts(ContinuedRecord(record, resumed, now))
  {
  }

  // ---- The ordinary continuation ------------------------------------------------------

  /** The goal once it was resumed. */
  function ResumedGoal(w: World): Goal { w.goal.(revision := w.goal.revision + 1, armed := true) }

  /** The continuation its recovering record names: a goal at the next revision, a review as it was. */
  function ResumedAs(expected: Continuation, goal: Goal): Continuation {
    if expected.GoalContinuation? then GoalContinuation(goal.id, goal.revision + 1, goal.objectiveHash) else expected
  }

  /** A review is woken without touching the goal. */
  function ResumedWorld(expected: Continuation, w: World): World {
    if expected.GoalContinuation? then w.(goal := ResumedGoal(w)) else w
  }

  /** The agent is claimed for `record`, to continue `expected` or to adopt what was already `applied`. */
  function Claimed(s: State, record: Record, expected: Continuation, applied: Option<Continuation>): State
    requires s.host.world.agent.Some?
  {
    Spawn(s.(inFlight := true), Claiming(record, s.host.world.agent.value, expected, applied), Blocked)
  }

  /** Nothing stands between such a claim and its continuation. */
  predicate Claimable(s: State, record: Record, expected: Continuation) {
    var w := s.host.world;
    && s.started && !s.inFlight && s.host.queue == [] && s.host.store == Some(record) && Acting(record)
    && Known(record, expected) && w.agent.Some? && w.status.Idle? && w.now <= MAX_SAFE_INTEGER
    && AssignmentAndContinuationMatch(w, record, expected)
    && (if expected.GoalContinuation? then w.goal.revision < MAX_SAFE_INTEGER else w.reviewRoute)
  }

  /** What lets the applied continuation go on: its own promise, or the started judge. */
  function ResumedBy(expected: Continuation, id: nat): Action {
    if expected.GoalContinuation? then DoContinue(id) else DoReview(id, Started)
  }

  /** Where it is suspended until then. */
  function AppliedTask(record: Record, expected: Continuation, goal: Goal): Task {
    if expected.GoalContinuation? then Task(Resumed(record, ResumedAs(expected, goal)), Ready(true, false))
    else Task(Waking(record, expected), Blocked)
  }

  /** The facts of one continuation. */
  function EffectOf(s: State, record: Record, expected: Continuation): Effect
    requires s.host.world.agent.Some?
  {
    var w := s.host.world;
    Effect(record, expected, w.now, s.host.store, w.goal, w.assignment, w.agent, w.agent.value)
  }

  /** The continuation is applied, inside maintenance, and nothing written yet. */
  function Applied(s: State, record: Record, expected: Continuation): State
    requires s.host.world.agent.Some?
  {
    s.(inFlight := true,
       host := s.host.(nextId := s.host.nextId + 1, effects := s.host.effects + [EffectOf(s, record, expected)],
                       world := ResumedWorld(expected, s.host.world).(status := Maintenance)))
  }

  /** The maintenance, the write and the checkpoint of one continuation. */
  function ClaimRun(expected: Continuation, id: nat): seq<Action> {
    [DoEnter(id, ResumeOk)] + ([ResumedBy(expected, id + 1)] + ([DoStoreOp(true)]
    + ([DoContinue(id + 2)] + ([DoFlush(id + 3, true)] + []))))
  }

  /** The state that run leaves. */
  function ContinuedOn(s: State, record: Record, expected: Continuation): State
    requires s.host.world.agent.Some? && Acting(record)
  {
    var h := s.host;
    var w := ResumedWorld(expected, h.world);
    s.(host := h.(store := Some(ContinuedRecord(record, ResumedAs(expected, h.world.goal), h.world.now)),
                  nextId := h.nextId + 4, effects := h.effects + [EffectOf(s, record, expected)],
                  effectsSaved := |h.effects| + 1, world := w.(saved := |w.log|, goalSaved := w.goal)))
  }

  /** Inside maintenance the goal is resumed, or the judge's wake begins. */
  lemma ClaimEnters(s: State, record: Record, expected: Continuation)
    requires Claimable(s, record, expected) && Accepts(record) && s.host.nextId !in s.host.tasks
    ensures var task := AppliedTask(record, expected, s.host.world.goal);
            Moves(Claimed(s, record, expected, None), DoEnter(s.host.nextId, ResumeOk),
                  Spawn(Applied(s, record, expected), task.pc, task.signal))
  {
    hide AfterApplied;
    var claimed := Claimed(s, record, expected, None);
    assert Drop(claimed, s.host.nextId).host.tasks == s.host.tasks;
    MoveEnter(claimed, s.host.nextId);
  }

  /** The applied continuation asks for its record's write. */
  lemma AppliedWrites(s: State, id: nat, record: Record, resumed: Continuation)
    requires s.started && id !in s.host.tasks && id == s.host.nextId && Acting(record)
    ensures var next := ContinuedRecord(record, resumed, s.host.world.now);
            var written := EnqueuePut(s.(host := s.host.(nextId := id + 1)), next, Writing(next));
            && Moves(Spawn(s, Resumed(record, resumed), Ready(true, false)), DoContinue(id), written)
            && Moves(Spawn(s, Waking(record, resumed), Blocked), DoReview(id, Started), written)
  {
    hide EnqueuePut, Accepts, Classify;
    var t := Spawn(s, Resumed(record, resumed), Ready(true, false));
    var u := Spawn(s, Waking(record, resumed), Blocked);
    assert Drop(t, id).host.tasks == s.host.tasks && Drop(u, id).host.tasks == s.host.tasks;
    assert Drop(t, id) == s.(host := s.host.(nextId := id + 1)) == Drop(u, id);
    assert Continue(t, id) == AfterApplied(Drop(t, id), record, resumed);
    assert ReviewDone(u, id, Started) == AfterApplied(Drop(u, id), record, resumed);
  }

  lemma ClaimFits(s: State, record: Record, expected: Continuation)
    requires Inv(s) && Claimable(s, record, expected)
    ensures Accepts(record) && (forall id :: id in s.host.tasks ==> id < s.host.nextId)
    ensures Accepts(ContinuedRecord(record, ResumedAs(expected, s.host.world.goal), s.host.world.now))
  {
    hide ExactDisarmedGoal, SameAssignmentIdentity;
    ContinuationFits(s, record, expected);
    ContinuedIsAccepted(record, ResumedAs(expected, s.host.world.goal), s.host.world.now);
  }

  /** What the assignment may be continued with is a continuation the schema takes. */
  lemma ContinuationFits(s: State, record: Record, expected: Continuation)
    requires Inv(s) && Claimable(s, record, expected)
    ensures ContinuationAccepted(ResumedAs(expected, s.host.world.goal))
  {
  }

  /** The record the continuation writes, and the state its write starts from. */
  function NextRecord(s: State, record: Record, expected: Continuation): Record
    requires Acting(record)
  {
    ContinuedRecord(record, ResumedAs(expected, s.host.world.goal), s.host.world.now)
  }

  function BeforeWrite(s: State, record: Record, expected: Continuation): State
    requires s.host.world.agent.Some?
  {
    var m := Applied(s, record, expected);
    m.(host := m.host.(nextId := s.host.nextId + 2))
  }

  lemma AppliedMoves(s: State, record: Record, expected: Continuation)
    requires Inv(s) && Claimable(s, record, expected)
    ensures var task := AppliedTask(record, expected, s.host.world.goal);
            var next := NextRecord(s, record, expected);
            Moves(Spawn(Applied(s, record, expected), task.pc, task.signal), ResumedBy(expected, s.host.nextId + 1),
                  EnqueuePut(BeforeWrite(s, record, expected), next, Writing(next)))
  {
    ClaimFits(s, record, expected);
    hide Moves, Inv, Accepts, EnqueuePut, Claimable;
    AppliedWrites(Applied(s, record, expected), s.host.nextId + 1, record, ResumedAs(expected, s.host.world.goal));
  }

  /** Up to the recovering record's write. */
  lemma ClaimApplies(s: State, record: Record, expected: Continuation) returns (t: State)
    requires Inv(s) && Claimable(s, record, expected)
    ensures var id := s.host.nextId;
            Reaches(Claimed(s, record, expected, None), [DoEnter(id, ResumeOk)] + ([ResumedBy(expected, id + 1)] + []), t)
    ensures var next := NextRecord(s, record, expected);
            t == EnqueuePut(BeforeWrite(s, record, expected), next, Writing(next))
  {
    ClaimFits(s, record, expected);
    AgentWhenClaimable(s, record, expected);
    hide *;
    ClaimEnters(s, record, expected);
    AppliedMoves(s, record, expected);
    var id := s.host.nextId;
    var task := AppliedTask(record, expected, s.host.world.goal);
    var next := NextRecord(s, record, expected);
    t := EnqueuePut(BeforeWrite(s, record, expected), next, Writing(next));
    ReachesNothing(t);
    PrependTwo(Claimed(s, record, expected, None), DoEnter(id, ResumeOk),
               Spawn(Applied(s, record, expected), task.pc, task.signal), ResumedBy(expected, id + 1), t, [], t);
  }

  lemma AgentWhenClaimable(s: State, record: Record, expected: Continuation)
    requires Claimable(s, record, expected)
    ensures s.host.world.agent.Some? && Acting(record)
  {
  }

  /** From that write to the idle agent. */
  lemma ContinuationSettles(s: State, record: Record) returns (t: State)
    requires Accepts(record) && s.started && s.inFlight && s.host.queue == [] && s.host.world.status.Maintenance?
    requires s.host.nextId !in s.host.tasks && s.host.nextId + 1 !in s.host.tasks
    ensures var id := s.host.nextId;
            && Reaches(EnqueuePut(s, record, Writing(record)),
                       [DoStoreOp(true)] + ([DoContinue(id)] + ([DoFlush(id + 1, true)] + [])), t)
            && t == s.(inFlight := false,
                       host := s.host.(store := Some(record), nextId := id + 2, effectsSaved := |s.host.effects|,
                                       world := s.host.world.(status := Idle, saved := |s.host.world.log|,
                                                              goalSaved := s.host.world.goal)))
  {
    hide Step, Enabled, Reaches, Moves, SchemaAccepts;
    var id := s.host.nextId;
    var s1 := EnqueuePut(s, record, Writing(record));
    var s2 := RunStoreOp(s1, true);
    MoveStoreOp(s1);
    assert s2.host.tasks[id] == Task(Writing(record), Ready(true, false));
    var s3 := Continue(s2, id);
    MoveContinue(s2, id);
    assert s3.host.tasks[id + 1] == Task(Checkpointing, Blocked);
    t := FlushDone(s3, id + 1, true);
    MoveFlush(s3, id + 1);
    assert t.host.tasks == s.host.tasks;
    ReachesNothing(t);
    Prepend(s3, DoFlush(id + 1, true), t, [], t);
    Prepend(s2, DoContinue(id), s3, [DoFlush(id + 1, true)] + [], t);
    Prepend(s1, DoStoreOp(true), s2, [DoContinue(id)] + ([DoFlush(id + 1, true)] + []), t);
  }

  /**
   A claim that nothing stands against resumes its goal once, raising the
   revision by one, or wakes its review's judge once, and stores the recovering
   record of exactly that continuation, which has used the fallback if the code
   is unknown; goal and log are durable, the agent idle, and nothing else changed.
   */
  lemma ClaimIsContinued(s: State, record: Record, expected: Continuation)
    requires Inv(s) && Claimable(s, record, expected)
    ensures Reaches(Claimed(s, record, expected, None), ClaimRun(expected, s.host.nextId), ContinuedOn(s, record, expected))
  {
    var s3 := ClaimApplies(s, record, expected);
    var t := ClaimSettles(s, record, expected);
    hide *;
    var id := s.host.nextId;
    var first := [DoEnter(id, ResumeOk)] + ([ResumedBy(expected, id + 1)] + []);
    var second := [DoStoreOp(true)] + ([DoContinue(id + 2)] + ([DoFlush(id + 3, true)] + []));
    Append(Claimed(s, record, expected, None), first, s3, second, t);
    assert first + second == ClaimRun(expected, id) by {
      ClaimRunParts(expected, id);
    }
  }

  lemma ClaimRunParts(expected: Continuation, id: nat)
    ensures ([DoEnter(id, ResumeOk)] + ([ResumedBy(expected, id + 1)] + []))
            + ([DoStoreOp(true)] + ([DoContinue(id + 2)] + ([DoFlush(id + 3, true)] + [])))
            == ClaimRun(expected, id)
  {
    hide ResumedBy;
  }

  lemma ClaimSettles(s: State, record: Record, expected: Continuation) returns (t: State)
    requires Inv(s) && Claimable(s, record, expected)
    ensures var next, id := NextRecord(s, record, expected), s.host.nextId;
            Reaches(EnqueuePut(BeforeWrite(s, record, expected), next, Writing(next)),
                    [DoStoreOp(true)] + ([DoContinue(id + 2)] + ([DoFlush(id + 3, true)] + [])), t)
    ensures t == ContinuedOn(s, record, expected)
  {
    ClaimFits(s, record, expected);
    hide Inv, Reaches, Accepts, EnqueuePut, ContinuedRecord, AssignmentAndContinuationMatch;
    t := ContinuationSettles(BeforeWrite(s, record, expected), NextRecord(s, record, expected));
  }

  // ---- The same from an idle edge ------------------------------------------------------

  /** A scheduled record is due, its target is exactly the recorded one, and a round or a review route is left. */
  predicate ReadyToContinue(s: State) {
    var w := s.host.world;
    && s.started && !s.inFlight && s.pending.None? && s.host.queue == []
    && s.host.store.Some? && s.host.store.value.Scheduled? && s.host.store.value.dueAt <= w.now as real
    && w.agent.Some? && w.status.Idle?
    && w.now <= MAX_SAFE_INTEGER
    && var own := s.host.store.value.base.assignment.continuation;
       && (own.GoalContinuation? ==> w.goal.revision < MAX_SAFE_INTEGER)
       && AssignmentAndContinuationMatch(w, s.host.store.value, own) && MechanicalContinuationAvailable(w, own)
  }

  function Own(s: State): Continuation
    requires s.host.store.Some?
  {
    s.host.store.value.base.assignment.continuation
  }

  function ResumedRecord(s: State): Record
    requires s.host.store.Some? && Acting(s.host.store.value)
  {
    ContinuedRecord(s.host.store.value, ResumedAs(Own(s), s.host.world.goal), s.host.world.now)
  }

  /** The idle edge, and the continuation it claims. */
  function ContinuationRun(s: State): seq<Action>
    requires s.host.world.agent.Some? && s.host.store.Some?
  {
    [DoAgentReady(s.host.world.agent.value)] + ClaimRun(Own(s), s.host.nextId)
  }

  function Continued(s: State): State
    requires s.host.world.agent.Some? && s.host.store.Some? && Acting(s.host.store.value)
  {
    ContinuedOn(s, s.host.store.value, Own(s))
  }

  /** The idle edge claims the agent for the record's own continuation. */
  lemma EdgeClaims(s: State)
    requires ReadyToContinue(s) && Accepts(s.host.store.value)
    ensures Claimable(s, s.host.store.value, Own(s))
    ensures Moves(s, DoAgentReady(s.host.world.agent.value), Claimed(s, s.host.store.value, Own(s), None))
  {
    hide ResumeRecovering, SessionEvent, ReconcileAwaiting, RemoveCurrent, PromoteOperator;
    MoveAgentReady(s, s.host.world.agent.value);
  }

  /** The ordinary continuation: an idle edge on a due record continues it once, as its claim does. */
  lemma DueRecordIsContinued(s: State) returns (t: State)
    requires Inv(s) && ReadyToContinue(s)
    ensures Reaches(s, ContinuationRun(s), t) && Inv(t)
    ensures t == Continued(s) && Accepts(ResumedRecord(s))
  {
    assert Accepts(s.host.store.value);
    EdgeClaims(s);
    var record, own := s.host.store.value, Own(s);
    t := Continued(s);
    hide *;
    ClaimFits(s, record, own);
    ClaimIsContinued(s, record, own);
    FromTheEdge(s, Claimed(s, record, own, None), t);
    ReachKeeps(s, ContinuationRun(s), t);
  }

  lemma FromTheEdge(s: State, claimed: State, t: State)
    requires s.host.world.agent.Some? && s.host.store.Some?
    requires Moves(s, DoAgentReady(s.host.world.agent.value), claimed)
    requires Reaches(claimed, ClaimRun(Own(s), s.host.nextId), t)
    ensures Reaches(s, ContinuationRun(s), t)
  {
    hide Moves, Reaches;
    Prepend(s, DoAgentReady(s.host.world.agent.value), claimed, ClaimRun(Own(s), s.host.nextId), t);
  }

  lemma ReachKeeps(s: State, run: seq<Action>, t: State)
    requires Inv(s) && Reaches(s, run, t)
    ensures Inv(t)
  {
    RunKeeps(s, run);
  }
}
