/**
 One Session's view of `ApiRecoveryRuntime` (dsh-autolab/src/api-recovery.ts) as
 a state machine: every step function below is one stretch of the source between
 two `await`s, and `Step` adds the environment's moves.  The class in
 ApiRecoveryRuntime.dfy performs the same stretches on the source's own maps.
 */
module ApiRecoveryMachine {
  import opened Wrappers
  import opened ApiRecoveryRecords

  // ---- The environment --------------------------------------------------

  datatype GoalPhase = Absent | Active | Inactive

  /** `id` numbers goals in creation order; a later goal never reuses an id. */
  datatype Goal = Goal(
    id: nat,
    revision: nat,
    phase: GoalPhase,
    armed: bool,
    objectiveHash: string,
    roundsStarted: nat,
    maxRounds: nat)

  datatype Reason = Completed | Failed(failure: Failure)

  /** A `turn/end` event of the Session log. */
  datatype TurnEnd = TurnEnd(turn: nat, eventSeq: nat, reason: Reason)

  /** The terminal request-error hook of the running turn; the turn closes only once it answered. */
  datatype Hook = NotCalled | Called | Answered

  datatype Status = Idle | Running(turn: nat, hook: Hook) | Maintenance

  /**
   What surrounds the runtime.  `saved` is the durable prefix of the log and
   `goalSaved` the durable goal; a flush moves both up.
   */
  datatype World = World(
    sessionId: string,
    now: nat,
    agent: Option<nat>,
    agentCount: nat,
    status: Status,
    lastTurn: nat,
    log: seq<TurnEnd>,
    saved: nat,
    goal: Goal,
    goalSaved: Goal,
    assignment: Option<Assignment>,
    reviewRoute: bool,
    timerOk: bool,
    retryDelay: real)

  /** A continuation that reached the goal or the judge, with the facts that held at that instant. */
  datatype Effect = Effect(
    record: Record,
    expected: Continuation,
    at: nat,
    stored: Option<Record>,
    goal: Goal,
    assignment: Option<Assignment>,
    agent: Option<nat>,
    caller: nat)

  // ---- Suspended activations ---------------------------------------------

  /** Where an activation is suspended, with the locals it needs to go on. */
  datatype Pc =
    | HookPut(candidate: Record)
    | TerminalFlush(event: TurnEnd, current: Record)
    | SettleFlush(event: TurnEnd, current: Record)
    | PublishScheduled(next: Record, clears: Option<Record>)
    | PublishOperator(next: Record, clears: Option<Record>)
    | Removing(record: Record, wasPending: bool, owner: bool)
    | Rescheduling(next: Record, caller: nat)
    | Claiming(record: Record, caller: nat, expected: Continuation, applied: Option<Continuation>)
    | Resumed(record: Record, resumed: Continuation)
    | Waking(record: Record, expected: Continuation)
    | Writing(next: Record)
    | Checkpointing
    | Closing(record: Record)

  datatype Signal = Blocked | Ready(ok: bool, removed: bool)

  datatype Task = Task(pc: Pc, signal: Signal)

  /** A queued operation of the recovery store; `id` is the activation awaiting it. */
  datatype Op = Put(record: Record, id: nat) | Remove(record: Record, id: nat)

  /**
   The event loop and everything outside the runtime object.  `effects` records
   the continuations applied; the first `effectsSaved` of them are in the
   durable goal.
   */
  datatype Host = Host(
    store: Option<Record>,
    queue: seq<Op>,
    tasks: map<nat, Task>,
    nextId: nat,
    effects: seq<Effect>,
    effectsSaved: nat,
    world: World)

  /** One Session's slice of the runtime's fields, and its host. */
  datatype State = State(
    started: bool,
    timer: Option<Record>,
    inFlight: bool,
    pending: Option<Record>,
    host: Host)

  // ---- Small moves -------------------------------------------------------

  function WithWorld(s: State, w: World): State { s.(host := s.host.(world := w)) }

  function Spawn(s: State, pc: Pc, signal: Signal): State {
    s.(host := s.host.(tasks := s.host.tasks[s.host.nextId := Task(pc, signal)], nextId := s.host.nextId + 1))
  }

  function Drop(s: State, id: nat): State { s.(host := s.host.(tasks := s.host.tasks - {id})) }

  /** `store.put`: a record the strict schema refuses rejects before anything is queued. */
  function EnqueuePut(s: State, record: Record, pc: Pc): State {
    if !Accepts(record) then Spawn(s, pc, Ready(false, false))
    else
      var t := Spawn(s, pc, Blocked);
      t.(host := t.host.(queue := s.host.queue + [Put(record, s.host.nextId)]))
  }

  /** `store.remove`, which parses what it expects as well. */
  function EnqueueRemove(s: State, record: Record, pc: Pc): State {
    if !Accepts(record) then Spawn(s, pc, Ready(false, false))
    else
      var t := Spawn(s, pc, Blocked);
      t.(host := t.host.(queue := s.host.queue + [Remove(record, s.host.nextId)]))
  }

  function ClearTimer(s: State): State { s.(timer := None) }

  /** `pendingAwaiting.get(sessionId) ?? store.get(sessionId)` */
  function CurrentRecord(s: State): Option<Record> {
    if s.pending.Some? then s.pending else s.host.store
  }

  function ClearPendingAwaiting(s: State, expected: Record): State {
    if SameRecord(s.pending, expected) then s.(pending := None) else s
  }

  /** Every successful session flush is a durable checkpoint of log and goal. */
  function Flushed(s: State): State {
    var w := s.host.world;
    s.(host := s.host.(world := w.(saved := |w.log|, goalSaved := w.goal), effectsSaved := |s.host.effects|))
  }

  function EndActivation(s: State, owner: bool): State {
    if owner then s.(inFlight := false) else s
  }

  function LeaveMaintenance(s: State): State {
    WithWorld(s, s.host.world.(status := if s.host.world.status.Maintenance? then Idle else s.host.world.status))
  }

  // ---- What the runtime reads --------------------------------------------

  predicate ExactDisarmedGoal(goal: Goal, expected: Continuation) {
    && expected.GoalContinuation?
    && goal.phase.Active? && !goal.armed
    && goal.id == expected.goalId && goal.revision == expected.revision
    && goal.objectiveHash == expected.objectiveHash
  }

  predicate ExactArmedGoal(goal: Goal, expected: Continuation) {
    && expected.GoalContinuation?
    && goal.phase.Active? && goal.armed
    && goal.id == expected.goalId && goal.revision == expected.revision
    && goal.objectiveHash == expected.objectiveHash
  }

  predicate AssignmentAndContinuationMatch(w: World, record: Record, expected: Continuation) {
    && w.assignment.Some?
    && SameAssignment(w.assignment.value, record, expected)
    && (expected.ReviewContinuation? || ExactDisarmedGoal(w.goal, expected))
  }

  predicate AssignmentAndAppliedGoalMatch(w: World, record: Record, resumed: Continuation) {
    && w.assignment.Some?
    && SameAssignmentIdentity(w.assignment.value, record)
    && (SameContinuation(w.assignment.value.continuation, record.base.assignment.continuation)
        || SameContinuation(w.assignment.value.continuation, resumed))
    && ExactArmedGoal(w.goal, resumed)
  }

  /** The crash window in which the goal was resumed but the recovering record was not stored. */
  function AppliedGoalContinuation(w: World, record: Record): Option<Continuation> {
    var own := record.base.assignment.continuation;
    if !own.GoalContinuation? then None
    else
      var goal := w.goal;
      if goal.phase.Active? && goal.armed && goal.id == own.goalId && goal.revision == own.revision + 1
         && goal.objectiveHash == own.objectiveHash
      then
        var resumed := GoalContinuation(goal.id, goal.revision, goal.objectiveHash);
        if AssignmentAndAppliedGoalMatch(w, record, resumed) then Some(resumed) else None
      else None
  }

  predicate MechanicalContinuationAvailable(w: World, expected: Continuation) {
    if expected.ReviewContinuation? then w.reviewRoute
    else !w.goal.phase.Absent? && w.goal.roundsStarted < w.goal.maxRounds
  }

  predicate CarryUnknownFallback(w: World, assignment: Assignment, prior: Option<Record>, failure: Failure) {
    && Classify(failure).Unknown?
    && prior.Some? && prior.value.Recovering?
    && prior.value.base.fallbackUsed
    && prior.value.base.failure.code == failure.code
    && SameAssignmentIdentity(assignment, prior.value)
    && (SameContinuation(assignment.continuation, prior.value.base.assignment.continuation)
        || SameContinuation(assignment.continuation, prior.value.resumed))
    && (prior.value.resumed.ReviewContinuation?
        || (w.goal.phase.Active?
            && w.goal.id == prior.value.resumed.goalId
            && w.goal.revision == prior.value.resumed.revision
            && w.goal.objectiveHash == prior.value.resumed.objectiveHash))
  }

  /** `events.findLast` over the turn ends. */
  function FindTurn(log: seq<TurnEnd>, turn: nat): (found: Option<TurnEnd>)
    ensures found.Some? ==> found.value in log && found.value.turn == turn
    ensures found.None? ==> forall e :: e in log ==> e.turn != turn
  {
    if log == [] then None
    else if log[|log| - 1].turn == turn then Some(log[|log| - 1])
    else
      assert log == log[..|log| - 1] + [log[|log| - 1]];
      FindTurn(log[..|log| - 1], turn)
  }

  function FindLater(log: seq<TurnEnd>, turn: nat): (found: Option<TurnEnd>)
    ensures found.Some? ==> found.value in log && found.value.turn > turn
    ensures found.None? ==> forall e :: e in log ==> e.turn <= turn
  {
    if log == [] then None
    else if log[|log| - 1].turn > turn then Some(log[|log| - 1])
    else
      assert log == log[..|log| - 1] + [log[|log| - 1]];
      FindLater(log[..|log| - 1], turn)
  }

  // ---- Synchronous stretches of the runtime --------------------------------

  /** A synchronous stretch touches neither the table nor the world: it only queues and suspends. */
  predicate OnlyQueues(s: State, t: State) {
    && t.started == s.started
    && t.host.world == s.host.world
    && t.host.store == s.host.store
    && t.host.effects == s.host.effects && t.host.effectsSaved == s.host.effectsSaved
    && s.host.queue <= t.host.queue
  }

  /** The step neither resumes a goal nor wakes a judge. */
  predicate KeepsTargets(s: State, t: State) {
    t.host.world.goal == s.host.world.goal && t.host.effects == s.host.effects
  }

  /** `arm`, 503-527. */
  function Arm(s: State, record: Record): (t: State)
    ensures OnlyQueues(s, t)
  {
    if !s.started || !SameRecord(s.host.store, record) || SameRecord(s.timer, record) then s
    else s.(timer := if s.host.world.timerOk then Some(record) else None)
  }

  /** `removeCurrent`, 799-810, up to its store operation. */
  function RemoveCurrent(s: State, record: Record, owner: bool): (t: State)
    ensures OnlyQueues(s, t)
  {
    if SameRecord(s.pending, record) then
      var u := s.(pending := None);
      if SameRecord(s.host.store, record) then EnqueueRemove(u, record, Removing(record, true, owner))
      else EndActivation(ClearTimer(u), owner)
    else
      EnqueueRemove(s, record, Removing(record, false, owner))
  }

  /** `handleRequestError`, 258-300, up to its store operation. */
  function RequestError(s: State, step: nat, provider: string, failure: Failure, retried: bool): (r: State)
    requires s.host.world.status.Running?
    ensures KeepsTargets(s, r)
  {
    var w := s.host.world;
    var turn := w.status.turn;
    var answered := WithWorld(s, w.(status := Running(turn, Answered)));
    if retried then s
    else if !s.started || Classify(failure).Ignore? then answered
    else if w.agent.None? || w.assignment.None? || w.assignment.value.sessionId != w.sessionId then answered
    else
      var assignment := w.assignment.value;
      var candidate := Awaiting(Base(assignment, turn, step, provider, failure, w.now,
                                     CarryUnknownFallback(w, assignment, CurrentRecord(s), failure)));
      var t := WithWorld(ClearTimer(s), w.(status := Running(turn, Called))).(pending := Some(candidate));
      EnqueuePut(t, candidate, HookPut(candidate))
  }

  /** `handleSessionEvent` and `settleRecovering`, up to their flush. */
  function SessionEvent(s: State, event: TurnEnd): (t: State)
    ensures OnlyQueues(s, t)
  {
    if !s.started then s
    else
      var current := CurrentRecord(s);
      if current.None? then s
      else if current.value.Recovering? && event.turn > current.value.base.turn then
        Spawn(s, SettleFlush(event, current.value), Blocked)
      else if current.value.Awaiting? && current.value.base.turn == event.turn then
        Spawn(s, TerminalFlush(event, current.value), Blocked)
      else s
  }

  function ReconcileAwaiting(s: State, record: Record): (t: State)
    ensures OnlyQueues(s, t)
  {
    var terminal := FindTurn(s.host.world.log, record.base.turn);
    if terminal.Some? then SessionEvent(s, terminal.value) else s
  }

  /** `handleSessionEvent` after its flush, 316-348. */
  function AfterTerminalFlush(s: State, event: TurnEnd, current: Record): (t: State)
    ensures OnlyQueues(s, t)
  {
    if !s.started || !SameRecord(CurrentRecord(s), current) then s
    else if !event.reason.Failed? || !SameFailure(event.reason.failure, current.base.failure) then
      RemoveCurrent(s, current, false)
    else
      var w := s.host.world;
      var disposition := Classify(current.base.failure);
      if disposition.Automatic? || (disposition.Unknown? && !current.base.fallbackUsed) then
        var next := Scheduled(current.base.(fallbackUsed := false), event.eventSeq,
                              w.now as real + RetryDelay(current.base.failure, w.retryDelay));
        EnqueuePut(s, next, PublishScheduled(next, Some(current)))
      else
        var next := Operator(current.base, event.eventSeq);
        EnqueuePut(s, next, PublishOperator(next, Some(current)))
  }

  /** `settleRecovering` after its flush, 855-912. */
  function AfterSettleFlush(s: State, event: TurnEnd, current: Record): (t: State)
    requires current.Recovering?
    ensures OnlyQueues(s, t)
  {
    var w := s.host.world;
    if !s.started || !SameRecord(s.host.store, current) then s
    else if !event.reason.Failed? then RemoveCurrent(s, current, false)
    else
      var failure := event.reason.failure;
      var disposition := Classify(failure);
      if disposition.Ignore? then RemoveCurrent(s, current, false)
      else if w.agent.None? || w.assignment.None? || !SameAssignmentIdentity(w.assignment.value, current) then
        RemoveCurrent(s, current, false)
      else
        var sameFallback := disposition.Unknown? && current.base.fallbackUsed
                            && current.base.failure.code == failure.code;
        var base := Base(w.assignment.value, event.turn, current.base.step, current.base.provider,
                         failure, w.now, false);
        if disposition.Automatic? || (disposition.Unknown? && !sameFallback) then
          var next := Scheduled(base, event.eventSeq, w.now as real + RetryDelay(failure, w.retryDelay));
          EnqueuePut(s, next, PublishScheduled(next, None))
        else
          var next := Operator(base.(fallbackUsed := sameFallback), event.eventSeq);
          EnqueuePut(s, next, PublishOperator(next, None))
  }

  /**
   `promoteOperator`, 812-825; its caller has just matched the stored record.
   The object it spreads goes through the store's schema like any other.
   */
  function PromoteOperator(s: State, record: Record): (t: State)
    requires record.Scheduled? || record.Recovering?
    ensures OnlyQueues(s, t)
  {
    if !SameRecord(s.host.store, record) then s
    else
      var spread := PromotionRaw(record, record.terminalSeq, s.host.world.now);
      match Parse(spread)
      case Some(next) => EnqueuePut(s, next, PublishOperator(next, None))
      case None =>
        var meant := PromotionRecord(record, record.terminalSeq, s.host.world.now);
        Spawn(s, PublishOperator(meant, None), Ready(false, false))
  }

  /** `resumeExact`, 612-629, up to the maintenance claim. */
  function ResumeExact(s: State, record: Record, caller: nat, expected: Continuation,
                       applied: Option<Continuation>): (t: State)
    requires record.Scheduled? || record.Recovering?
    ensures OnlyQueues(s, t)
  {
    if !s.started || s.inFlight then s
    else if applied.None? && !MechanicalContinuationAvailable(s.host.world, expected) then
      PromoteOperator(s, record)
    else
      Spawn(s.(inFlight := true), Claiming(record, caller, expected, applied), Blocked)
  }

  /** `resumeScheduled`, 529-556. */
  function ResumeScheduled(s: State, record: Record, known: Option<nat>): (t: State)
    requires record.Scheduled?
    ensures OnlyQueues(s, t)
  {
    var w := s.host.world;
    if !s.started || !SameRecord(s.host.store, record) then s
    else if w.now as real < record.dueAt then Arm(s, record)
    else if s.inFlight then s
    else
      var caller := if known.Some? then known else w.agent;
      if caller.None? || w.agent != caller || !w.status.Idle? then s
      else
        var own := record.base.assignment.continuation;
        var applied := AppliedGoalContinuation(w, record);
        if applied.Some? then ResumeExact(s, record, caller.value, own, applied)
        else if !AssignmentAndContinuationMatch(w, record, own) then RemoveCurrent(s, record, false)
        else ResumeExact(s, record, caller.value, own, None)
  }

  /** `resumeRecovering`, 558-610. */
  function ResumeRecovering(s: State, record: Record, caller: nat): (t: State)
    requires record.Recovering?
    ensures OnlyQueues(s, t)
  {
    var w := s.host.world;
    var resumed := record.resumed;
    var own := record.base.assignment.continuation;
    if !s.started || !SameRecord(s.host.store, record) || w.agent != Some(caller) || !w.status.Idle? || s.inFlight
    then s
    else if resumed.ReviewContinuation? then
      if AssignmentAndContinuationMatch(w, record, resumed) then ResumeExact(s, record, caller, resumed, None)
      else RemoveCurrent(s, record, false)
    else if w.goal.phase.Active? && w.goal.id == resumed.goalId && w.goal.revision == resumed.revision
            && w.goal.objectiveHash == resumed.objectiveHash
    then
      if w.goal.armed then s
      else if AssignmentAndContinuationMatch(w, record, resumed) then ResumeExact(s, record, caller, resumed, None)
      else RemoveCurrent(s, record, false)
    else if own.GoalContinuation? && ExactDisarmedGoal(w.goal, own) && AssignmentAndContinuationMatch(w, record, own)
    then ResumeExact(s, record, caller, own, None)
    else RemoveCurrent(s, record, false)
  }

  /** `handleAgentReady`, 472-501, for the agent object `caller`. */
  function AgentReady(s: State, caller: nat): (t: State)
    ensures OnlyQueues(s, t)
  {
    var w := s.host.world;
    if !s.started then s
    else if s.pending.Some? then ReconcileAwaiting(s, s.pending.value)
    else if s.host.store.None? then s
    else
      var record := s.host.store.value;
      match record
      case Awaiting(_) => ReconcileAwaiting(s, record)
      case Recovering(base, _, _, _) =>
        var terminal := FindLater(w.log, base.turn);
        if terminal.Some? then SessionEvent(s, terminal.value) else ResumeRecovering(s, record, caller)
      case Scheduled(_, _, dueAt) =>
        if w.now as real < dueAt then Arm(s, record) else ResumeScheduled(s, record, Some(caller))
      case Operator(_, _) => s
  }

  /** `handleAgentCreated`, 381-394. */
  function AgentCreated(s: State, caller: nat): (t: State)
    ensures OnlyQueues(s, t)
  {
    if s.pending.Some? then ReconcileAwaiting(s, s.pending.value)
    else if s.host.store.None? then s
    else
      match s.host.store.value
      case Awaiting(_) => ReconcileAwaiting(s, s.host.store.value)
      case Scheduled(_, _, _) => Arm(s, s.host.store.value)
      case Recovering(_, _, _, _) => AgentReady(s, caller)
      case Operator(_, _) => s
  }

  /** `resumeOperatorOnAdapterUpdate`, 436-457. */
  function ResumeOperator(s: State, record: Record, caller: nat): (t: State)
    requires record.Operator?
    ensures OnlyQueues(s, t)
  {
    var w := s.host.world;
    var own := record.base.assignment.continuation;
    if !s.started || !SameRecord(s.host.store, record) || w.agent != Some(caller) || !w.status.Idle? then s
    else if !AssignmentAndContinuationMatch(w, record, own) then RemoveCurrent(s, record, false)
    else if !MechanicalContinuationAvailable(w, own) then s
    else
      var next := Scheduled(record.base, record.terminalSeq, w.now as real);
      EnqueuePut(s, next, Rescheduling(next, caller))
  }

  /**
   `handleAdaptersUpdated`, 402-434, for this Session; `deferred` is its
   `whenIdle().then(resume)` half, which does not look at the pending map again.
   */
  function AdapterEdge(s: State, caller: nat, deferred: bool): (t: State)
    ensures OnlyQueues(s, t)
  {
    if !s.started then s
    else if s.pending.Some? && !deferred then ReconcileAwaiting(s, s.pending.value)
    else if s.host.store.Some? && s.host.store.value.Operator? then ResumeOperator(s, s.host.store.value, caller)
    else AgentReady(s, caller)
  }

  /** The one-shot callback of `arm`, 514-519. */
  function TimerFire(s: State): (t: State)
    requires s.timer.Some? && s.timer.value.Scheduled?
    ensures OnlyQueues(s, t)
  {
    ResumeScheduled(ClearTimer(s), s.timer.value, None)
  }

  /** `reconcile`, 351-379, for this Session. */
  function Reconcile(s: State): (t: State)
    ensures OnlyQueues(s, t)
  {
    var agent := s.host.world.agent;
    if s.pending.Some? then
      if agent.Some? then ReconcileAwaiting(s, s.pending.value) else s
    else if s.host.store.None? || !SameRecord(s.host.store, s.host.store.value) then s
    else
      match s.host.store.value
      case Scheduled(_, _, _) => Arm(s, s.host.store.value)
      case Recovering(_, _, _, _) => if agent.Some? then AgentReady(s, agent.value) else s
      case Awaiting(_) => if agent.Some? then ReconcileAwaiting(s, s.host.store.value) else s
      case Operator(_, _) => s
  }

  /** `start`, 214-244. */
  function StartRuntime(s: State): (t: State)
    ensures OnlyQueues(s.(started := true), t)
  {
    if s.started then s else Reconcile(s.(started := true))
  }

  /** `dispose`, 246-252. */
  function DisposeRuntime(s: State): (t: State)
    ensures OnlyQueues(s.(started := false), t)
  {
    if s.started then ClearTimer(s).(started := false) else s
  }

  // ---- Resumption of suspended activations ----------------------------------

  /** The head of the store queue takes effect, or fails without effect. */
  function RunStoreOp(s: State, ok: bool): (r: State)
    requires s.host.queue != []
    ensures KeepsTargets(s, r)
  {
    var h := s.host;
    var op := h.queue[0];
    var removed := op.Remove? && ok && h.store == Some(op.record);
    var store' := if !ok then h.store
                  else if op.Put? then Some(op.record)
                  else if removed then None
                  else h.store;
    var tasks' := if op.id in h.tasks then h.tasks[op.id := Task(h.tasks[op.id].pc, Ready(ok, removed))]
                  else h.tasks;
    s.(host := h.(queue := h.queue[1..], store := store', tasks := tasks'))
  }

  /** Suspensions on a store operation or on an already settled promise. */
  predicate Continues(pc: Pc) {
    pc.HookPut? || pc.PublishScheduled? || pc.PublishOperator? || pc.Removing? || pc.Rescheduling?
    || pc.Writing? || pc.Resumed? || pc.Closing?
  }

  /** Run the continuation of a settled store operation, or of a plain promise (`Resumed`, `Closing`). */
  function Continue(s: State, id: nat): (r: State)
    requires id in s.host.tasks
    requires s.host.tasks[id].signal.Ready? && Continues(s.host.tasks[id].pc)
    requires s.host.tasks[id].pc.Rescheduling? ==> s.host.tasks[id].pc.next.Scheduled?
    requires s.host.tasks[id].pc.Resumed?
             ==> s.host.tasks[id].pc.record.Scheduled? || s.host.tasks[id].pc.record.Recovering?
    ensures KeepsTargets(s, r)
  {
    var task := s.host.tasks[id];
    var ok := task.signal.ok;
    var t := Drop(s, id);
    match task.pc
    case HookPut(candidate) =>
      var u := if ok && t.pending == Some(candidate) then t.(pending := None) else t;
      var w := u.host.world;
      if w.status.Running? && w.status.hook.Called? then WithWorld(u, w.(status := Running(w.status.turn, Answered)))
      else u
    case PublishScheduled(next, clears) =>
      if !ok then t
      else Arm(if clears.Some? then ClearPendingAwaiting(t, clears.value) else t, next)
    case PublishOperator(next, clears) =>
      if ok && clears.Some? then ClearPendingAwaiting(t, clears.value) else t
    case Removing(record, wasPending, owner) =>
      EndActivation(if ok && (wasPending || task.signal.removed) then ClearTimer(t) else t, owner)
    case Rescheduling(next, caller) =>
      if ok && SameRecord(t.host.store, next) then ResumeScheduled(t, next, Some(caller)) else t
    case Resumed(record, resumed) => AfterApplied(t, record, resumed)
    case Writing(next) =>
      if ok && t.started then Spawn(t, Checkpointing, Blocked)
      else EndActivation(LeaveMaintenance(t), true)
    case Closing(record) =>
      if !t.started then EndActivation(t, true) else RemoveCurrent(t, record, true)
    case _ => t
  }

  /** Inside maintenance once the continuation is applied, 644-655. */
  function AfterApplied(s: State, record: Record, resumed: Continuation): (r: State)
    requires record.Scheduled? || record.Recovering?
    ensures KeepsTargets(s, r)
  {
    if !s.started then EndActivation(LeaveMaintenance(s), true)
    else
      var next := Recovering(
        record.base.(fallbackUsed := record.base.fallbackUsed || Classify(record.base.failure).Unknown?),
        record.terminalSeq, resumed, s.host.world.now);
      EnqueuePut(s, next, Writing(next))
  }

  /** The flush awaited by activation `id` settled. */
  function FlushDone(s: State, id: nat, ok: bool): (r: State)
    requires id in s.host.tasks
    requires s.host.tasks[id].pc.SettleFlush? ==> s.host.tasks[id].pc.current.Recovering?
    ensures KeepsTargets(s, r)
  {
    var t := Drop(if ok then Flushed(s) else s, id);
    match s.host.tasks[id].pc
    case TerminalFlush(event, current) => if ok then AfterTerminalFlush(t, event, current) else t
    case SettleFlush(event, current) => if ok then AfterSettleFlush(t, event, current) else t
    case Checkpointing => EndActivation(LeaveMaintenance(t), true)
    case _ => s
  }

  /** `agent.runMaintenance` refused the claim, 675-681. */
  function ClaimRejected(s: State, id: nat): State { EndActivation(Drop(s, id), true) }

  datatype ResumeOutcome = ResumeOk | ResumeThrows

  /** `applyContinuation`, 685-704: the goal is resumed, or the review wake begins; `s` has left its claim. */
  function ApplyContinuation(s: State, record: Record, caller: nat, expected: Continuation): State {
    var w := s.host.world;
    var effect := Effect(record, expected, w.now, s.host.store, w.goal, w.assignment, w.agent, caller);
    if expected.GoalContinuation? then
      var goal := w.goal.(revision := w.goal.revision + 1, armed := true);
      var resumed := GoalContinuation(goal.id, goal.revision, goal.objectiveHash);
      var u := WithWorld(s, w.(status := Maintenance, goal := goal));
      Spawn(u.(host := u.host.(effects := s.host.effects + [effect])), Resumed(record, resumed), Ready(true, false))
    else if !w.reviewRoute then Spawn(s, Closing(record), Ready(true, false))
    else
      var inside := WithWorld(s, w.(status := Maintenance));
      Spawn(inside.(host := inside.host.(effects := s.host.effects + [effect])), Waking(record, expected), Blocked)
  }

  /** The maintenance callback from its entry to its first suspension, 629-648. */
  function EnterMaintenance(s: State, id: nat, outcome: ResumeOutcome): State
    requires id in s.host.tasks && s.host.tasks[id].pc.Claiming?
    requires s.host.tasks[id].pc.record.Scheduled? || s.host.tasks[id].pc.record.Recovering?
  {
    var pc := s.host.tasks[id].pc;
    var record := pc.record;
    var w := s.host.world;
    var t := Drop(s, id);
    if !s.started then EndActivation(t, true)
    else if !SameRecord(s.host.store, record) || w.agent != Some(pc.caller)
            || !(if pc.applied.None? then AssignmentAndContinuationMatch(w, record, pc.expected)
                 else AssignmentAndAppliedGoalMatch(w, record, pc.applied.value))
    then Spawn(t, Closing(record), Ready(true, false))
    else if pc.applied.Some? then AfterApplied(WithWorld(t, w.(status := Maintenance)), record, pc.applied.value)
    else if outcome.ResumeThrows? then EndActivation(t, true)
    else ApplyContinuation(t, record, pc.caller, pc.expected)
  }

  datatype WakeOutcome = Started | Stale | WakeThrows

  /** `resumeReviewOnce` settled, 702-655. */
  function ReviewDone(s: State, id: nat, outcome: WakeOutcome): (r: State)
    requires id in s.host.tasks && s.host.tasks[id].pc.Waking?
    requires s.host.tasks[id].pc.record.Scheduled? || s.host.tasks[id].pc.record.Recovering?
    ensures KeepsTargets(s, r)
  {
    var pc := s.host.tasks[id].pc;
    var t := Drop(s, id);
    match outcome
    case WakeThrows => EndActivation(LeaveMaintenance(t), true)
    case Stale =>
      if !t.started then EndActivation(LeaveMaintenance(t), true)
      else Spawn(LeaveMaintenance(t), Closing(pc.record), Ready(true, false))
    case Started => AfterApplied(t, pc.record, pc.expected)
  }

  // ---- The environment's own moves -------------------------------------------

  /** A goal never goes back, and arming an unarmed goal raises its revision. */
  predicate GoalMayBecome(before: Goal, after: Goal) {
    && (before.id < after.id || (before.id == after.id && before.revision <= after.revision))
    && (before.id == after.id && before.revision == after.revision && after.armed ==> before.armed)
  }

  function Crash(s: State, keep: nat, keepGoal: bool): State
    requires s.host.world.saved <= keep <= |s.host.world.log|
    requires s.host.effectsSaved <= |s.host.effects|
  {
    var h := s.host;
    var w := h.world;
    var log := w.log[..keep];
    State(false, None, false, None,
      h.(queue := [], tasks := map[],
         effects := if keepGoal then h.effects else h.effects[..h.effectsSaved],
         effectsSaved := if keepGoal then |h.effects| else h.effectsSaved,
         world := w.(agent := None, status := Idle, log := log, saved := keep,
                     lastTurn := if keep == 0 then 0 else log[keep - 1].turn,
                     goal := if keepGoal then w.goal else w.goalSaved,
                     goalSaved := if keepGoal then w.goal else w.goalSaved)))
  }

  datatype Action =
    // the runtime's entry points and resumptions
    | DoStart | DoDispose
    | DoRequestError(step: nat, provider: string, failure: Failure, retried: bool)
    | DoSessionEvent(event: TurnEnd)
    | DoAgentReady(caller: nat)
    | DoAgentCreated(caller: nat)
    | DoAdapterEdge(caller: nat, deferred: bool)
    | DoTimer
    | DoStoreOp(ok: bool)
    | DoContinue(id: nat)
    | DoFlush(id: nat, ok: bool)
    | DoReject(id: nat)
    | DoEnter(id: nat, outcome: ResumeOutcome)
    | DoReview(id: nat, wake: WakeOutcome)
    // the environment
    | Tick(later: nat)
    | AgentAppears | AgentLeaves
    | TurnStarts(turn: nat)
    | TurnEnds(eventSeq: nat, reason: Reason)
    | GoalChanges(goal: Goal)
    | AssignmentChanges(assignment: Option<Assignment>)
    | TimersWork(works: bool)
    | Checkpoint
    | Crashes(keep: nat, keepGoal: bool)

  predicate Acting(record: Record) { record.Scheduled? || record.Recovering? }

  predicate Enabled(s: State, a: Action) {
    var h := s.host;
    var w := h.world;
    match a
    case DoRequestError(_, _, _, _) => w.status.Running? && w.status.hook.NotCalled?
    case DoSessionEvent(event) => event in w.log
    case DoTimer => s.timer.Some? && s.timer.value.Scheduled?
    case DoStoreOp(_) => h.queue != []
    case DoContinue(id) =>
      && id in h.tasks && h.tasks[id].signal.Ready? && Continues(h.tasks[id].pc)
      && (h.tasks[id].pc.Rescheduling? ==> h.tasks[id].pc.next.Scheduled?)
      && (h.tasks[id].pc.Resumed? ==> Acting(h.tasks[id].pc.record))
    case DoFlush(id, _) =>
      && id in h.tasks
      && (h.tasks[id].pc.TerminalFlush? || h.tasks[id].pc.SettleFlush? || h.tasks[id].pc.Checkpointing?)
      && (h.tasks[id].pc.SettleFlush? ==> h.tasks[id].pc.current.Recovering?)
    case DoReject(id) => id in h.tasks && h.tasks[id].pc.Claiming?
    case DoEnter(id, _) =>
      && id in h.tasks && h.tasks[id].pc.Claiming? && Acting(h.tasks[id].pc.record)
      && (w.status.Idle? || w.agent != Some(h.tasks[id].pc.caller))
    case DoReview(id, _) => id in h.tasks && h.tasks[id].pc.Waking? && Acting(h.tasks[id].pc.record)
    case AgentAppears => w.agent.None?
    case AgentLeaves => w.status.Idle?
    case TurnStarts(turn) => w.agent.Some? && w.status.Idle? && turn > w.lastTurn
    case TurnEnds(eventSeq, _) =>
      && w.status.Running? && !w.status.hook.Called?
      && (w.log != [] ==> w.log[|w.log| - 1].eventSeq < eventSeq)
    case GoalChanges(goal) => GoalMayBecome(w.goal, goal)
    case Crashes(keep, _) => w.saved <= keep <= |w.log| && h.effectsSaved <= |h.effects|
    case _ => true
  }

  function Step(s: State, a: Action): State
    requires Enabled(s, a)
  {
    var w := s.host.world;
    match a
    case DoStart => StartRuntime(s)
    case DoDispose => DisposeRuntime(s)
    case DoRequestError(step, provider, failure, retried) => RequestError(s, step, provider, failure, retried)
    case DoSessionEvent(event) => SessionEvent(s, event)
    case DoAgentReady(caller) => AgentReady(s, caller)
    case DoAgentCreated(caller) => AgentCreated(s, caller)
    case DoAdapterEdge(caller, deferred) => AdapterEdge(s, caller, deferred)
    case DoTimer => TimerFire(s)
    case DoStoreOp(ok) => RunStoreOp(s, ok)
    case DoContinue(id) => Continue(s, id)
    case DoFlush(id, ok) => FlushDone(s, id, ok)
    case DoReject(id) => ClaimRejected(s, id)
    case DoEnter(id, outcome) => EnterMaintenance(s, id, outcome)
    case DoReview(id, wake) => ReviewDone(s, id, wake)
    case Tick(later) => WithWorld(s, w.(now := w.now + later))
    case AgentAppears => WithWorld(s, w.(agent := Some(w.agentCount), agentCount := w.agentCount + 1))
    case AgentLeaves => WithWorld(s, w.(agent := None))
    case TurnStarts(turn) => WithWorld(s, w.(status := Running(turn, NotCalled), lastTurn := turn))
    case TurnEnds(eventSeq, reason) =>
      WithWorld(s, w.(status := Idle, log := w.log + [TurnEnd(w.status.turn, eventSeq, reason)]))
    case GoalChanges(goal) => WithWorld(s, w.(goal := goal))
    case AssignmentChanges(assignment) => WithWorld(s, w.(assignment := assignment))
    case TimersWork(works) => WithWorld(s, w.(timerOk := works))
    case Checkpoint => Flushed(s)
    case Crashes(keep, keepGoal) => Crash(s, keep, keepGoal)
  }

  /** A fresh process on an empty recovery table. */
  predicate Initial(s: State) {
    var h := s.host;
    var w := h.world;
    && !s.started && s.timer.None? && !s.inFlight && s.pending.None?
    && h.store.None? && h.queue == [] && h.tasks == map[] && h.effects == [] && h.effectsSaved == 0
    && w.status.Idle? && w.saved <= |w.log| && w.goalSaved == w.goal
    && (forall e :: e in w.log ==> e.turn <= w.lastTurn)
  }

  predicate ValidRun(s: State, actions: seq<Action>)
    decreases |actions|
  {
    actions == [] || (Enabled(s, actions[0]) && ValidRun(Step(s, actions[0]), actions[1..]))
  }

  /** The state after a valid run. */
  function After(s: State, actions: seq<Action>): State
    requires ValidRun(s, actions)
    decreases |actions|
  {
    if actions == [] then s else After(Step(s, actions[0]), actions[1..])
  }
}
