/**
 The Attempt edge consumer (dsh-autolab/src/attempt-runtime.ts) and the exact
 compare-and-set that publishes its projections (dsh-autolab/lib/index.js,
 `applyAttemptRuntimeResult`).

 The machine is one target's slice: its serialized edges, its two one-shot
 timers, and the RuntimeState of its Lab.  Every other writer of that state,
 the edges of other targets included, is an `Environment` step.
 */
module AttemptRuntime {
  import opened Wrappers

  datatype AttemptPhase = LaunchingAttempt | RunningAttempt | OutcomeUnknownAttempt | TerminalAttempt

  datatype Reference = Reference(attemptId: string, phase: AttemptPhase, path: string, hash: string,
                                 checkout: Option<string>)

  datatype SlotState = SlotState(revision: nat, status: string)

  /** `rest` stands for the fields the publication spreads without looking at them. */
  datatype Slot = Slot(state: SlotState, active: Option<Reference>, rest: string)

  datatype SlotId = SlotId(trialId: string, runSlotId: string)

  datatype Target = Target(labId: string, slot: SlotId)

  datatype GoalInstall = GoalInstall(applied: bool, goalId: Option<string>, goalRevision: Option<nat>)

  datatype RuntimeState = RuntimeState(
    labId: string,
    revision: nat,
    controllerSession: string,
    controllerGoal: Option<GoalInstall>,
    slots: map<SlotId, Slot>,
    rest: string)

  datatype Edge = Startup | Poke | LaunchSafety | PendingRetry

  datatype Inspection = Absent | Launching | Running | Completed | Uncertain | BlockedInspection | PendingInspection

  datatype Artifact = Artifact(path: string, hash: string)

  datatype Transition = Transition(state: SlotState, attemptId: string, phase: AttemptPhase)

  /** What `reconcileLocalTmuxInspection` answers; `Recorded` covers its four recording actions. */
  datatype Reconcile =
    | LaunchRequired
    | AwaitStartedReceipt
    | BlockedReconcile
    | Pending
    | Recorded(records: seq<Option<Artifact>>, transition: Option<Transition>)

  datatype Projection = Projection(
    expectedRevision: nat,
    slot: SlotId,
    expectedActive: Reference,
    state: SlotState,
    active: Reference)

  datatype Wake = Wake(labId: string, session: string, goalId: string, goalRevision: nat, slot: SlotId,
                       attemptId: string, phase: AttemptPhase)

  datatype EdgeResult =
    | Inactive(edge: Edge)
    | Stale(edge: Edge)
    | Handled(edge: Edge, source: Reference, launched: bool, inspection: Inspection, reconcile: Reconcile,
              projection: Option<Projection>, wake: Option<Wake>)

  // ---- The pure compilers -------------------------------------------------

  /** `[...records].reverse().find(...)`: the artifact of the last record that has one. */
  function LastArtifact(records: seq<Option<Artifact>>): (found: Option<Artifact>)
    ensures found.Some? ==>
              exists i :: 0 <= i < |records| && records[i] == found && forall j :: i < j < |records| ==> records[j].None?
    ensures found.None? ==> forall record :: record in records ==> record.None?
  {
    if records == [] then None
    else if records[|records| - 1].Some? then records[|records| - 1]
    else LastArtifact(records[..|records| - 1])
  }

  function CompileProjection(state: RuntimeState, reference: Reference, slot: SlotId, reconcile: Reconcile)
    : Result<Option<Projection>, string>
  {
    if !reconcile.Recorded? || reconcile.transition.None? then Ok(None)
    else match LastArtifact(reconcile.records)
      case None => Err("Attempt reconcile transition is missing its exact Attempt artifact")
      case Some(artifact) =>
        var transition := reconcile.transition.value;
        Ok(Some(Projection(state.revision, slot, reference, transition.state,
                           Reference(transition.attemptId, transition.phase, artifact.path, artifact.hash,
                                     reference.checkout))))
  }

  function CompileControllerWake(state: RuntimeState, slot: SlotId, active: Reference, reconcile: Reconcile, edge: Edge)
    : Option<Wake>
  {
    if !active.phase.TerminalAttempt? && !active.phase.OutcomeUnknownAttempt? then None
    else if reconcile.LaunchRequired? || reconcile.AwaitStartedReceipt?
            || (reconcile.Pending? && edge != PendingRetry) then None
    else match state.controllerGoal
      case Some(GoalInstall(true, Some(id), Some(revision))) =>
        Some(Wake(state.labId, state.controllerSession, id, revision, slot, active.attemptId, active.phase))
      case _ => None
  }

  // ---- The timers -----------------------------------------------------------

  /** The target's two one-shot timers, each with the reference its edge will insist on. */
  datatype Timers = Timers(retry: Option<Reference>, safety: Option<Reference>)

  function Arm(timer: Option<Reference>, expected: Reference): Option<Reference> {
    if timer.Some? then timer else Some(expected)
  }

  function Carried(result: EdgeResult): Reference
    requires result.Handled?
  {
    if result.projection.Some? then result.projection.value.active else result.source
  }

  /** `reconcileTimers` */
  function NextTimers(timers: Timers, result: EdgeResult): Timers {
    if !result.Handled? then timers
    else if result.reconcile.Pending? then
      if result.edge != PendingRetry then timers.(retry := Arm(timers.retry, Carried(result))) else timers
    else
      var settled := Timers(None, if result.edge.Poke? || result.wake.Some? then None else timers.safety);
      if result.wake.None? && result.launched && (result.inspection.Launching? || result.inspection.Running?)
      then settled.(safety := Arm(settled.safety, Carried(result)))
      else settled
  }

  function Armed(before: Option<Reference>, after: Option<Reference>): nat {
    if after.Some? && after != before then 1 else 0
  }

  /**
   A result arms at most one timer; only a launch arms the safety timer, only a
   pending answer arms the retry timer, and a pending-retry edge never does.
   */
  lemma OneTimerPerResult(timers: Timers, result: EdgeResult)
    ensures var next := NextTimers(timers, result);
            && Armed(timers.retry, next.retry) + Armed(timers.safety, next.safety) <= 1
            && (Armed(timers.retry, next.retry) == 1 ==>
                  result.Handled? && result.reconcile.Pending? && result.edge != PendingRetry && timers.retry.None?)
            && (Armed(timers.safety, next.safety) == 1 ==> result.Handled? && result.launched)
            && (!result.Handled? ==> next == timers)
  {
  }

  // ---- The machine ------------------------------------------------------------

  /** A queued edge; an internal one carries the reference it was armed for. */
  datatype Job = Job(edge: Edge, expected: Option<Reference>)

  /** Where the running edge is suspended; `seen` is the snapshot it resolved. */
  datatype Pc =
    | Entered
    | Resolved(seen: RuntimeState)
    | Starting(seen: RuntimeState)
    | Inspected(seen: RuntimeState, launched: bool, inspection: Inspection)
    | Applying(seen: RuntimeState, result: EdgeResult)
    | Publishing(seen: RuntimeState, result: EdgeResult, read: RuntimeState)
    | Delivering(result: EdgeResult)

  datatype Run = Run(job: Job, pc: Pc)

  /** What has happened so far, for the counting claims. */
  datatype Counts = Counts(dispatches: nat, retries: nat, safetyEdges: nat, retryEdges: nat, launches: nat,
                           bumps: nat, publications: nat)

  datatype State = State(
    target: Target,
    known: bool,
    history: seq<RuntimeState>,
    waiting: seq<Job>,
    running: Option<Run>,
    timers: Timers,
    disposed: bool,
    accepting: bool,
    counts: Counts)

  /** The Lab's durable state is the last of its history. */
  function Lab(s: State): RuntimeState
    requires s.history != []
  {
    s.history[|s.history| - 1]
  }

  function Active(state: RuntimeState, slot: SlotId): Option<Reference> {
    if slot in state.slots then state.slots[slot].active else None
  }

  datatype Action =
    | Dispatch(edge: Edge)
    | Fire(edge: Edge)
    | Begin
    | Read
    | Inspect(status: Inspection)
    | LaunchReturned(status: Inspection)
    | Reconciled(reconcile: Reconcile)
    | Apply
    | Publish(ok: bool)
    | Deliver
    | Throw
    | Environment(next: RuntimeState)
    | Close
    | StopAccepting
    | Dispose

  predicate At(s: State, a: Action) {
    s.running.Some? && match a
      case Read => s.running.value.pc.Entered?
      case Inspect(_) => s.running.value.pc.Resolved?
      case LaunchReturned(_) => s.running.value.pc.Starting?
      case Reconciled(_) => s.running.value.pc.Inspected?
      case Apply => s.running.value.pc.Applying?
      case Publish(_) => s.running.value.pc.Publishing?
      case Deliver => s.running.value.pc.Delivering?
      case _ => true
  }

  predicate Enabled(s: State, a: Action) {
    s.history != [] && match a
      case Dispatch(edge) => edge.Startup? || edge.Poke?
      case Fire(edge) =>
        (edge.LaunchSafety? && s.timers.safety.Some?) || (edge.PendingRetry? && s.timers.retry.Some?)
      case Begin => s.running.None? && s.waiting != []
      case Environment(next) => next.revision == Lab(s).revision + 1
      case Close => true
      case StopAccepting => true
      case Dispose => true
      case _ => At(s, a)
  }

  function Continue(s: State, pc: Pc): State
    requires s.running.Some?
  {
    s.(running := Some(s.running.value.(pc := pc)))
  }

  /** Reading the state and refusing an edge that is inactive or was armed for another reference. */
  function ReadStep(s: State): State
    requires s.history != [] && s.running.Some?
  {
    var job, lab := s.running.value.job, Lab(s);
    var active := Active(lab, s.target.slot);
    if !s.known then Continue(s, Delivering(Inactive(job.edge)))
    else if lab.labId != s.target.labId then Continue(s, Delivering(Stale(job.edge)))
    else if active.None? then Continue(s, Delivering(Inactive(job.edge)))
    else if job.expected.Some? && active != job.expected then Continue(s, Delivering(Stale(job.edge)))
    else Continue(s, Resolved(lab))
  }

  /** A launching Attempt whose process is absent is launched; the launch counts even if it throws. */
  function InspectStep(s: State, status: Inspection): State
    requires s.running.Some? && s.running.value.pc.Resolved?
  {
    var seen := s.running.value.pc.seen;
    var active := Active(seen, s.target.slot);
    if active.Some? && active.value.phase.LaunchingAttempt? && status.Absent?
    then Continue(s, Starting(seen)).(counts := s.counts.(launches := s.counts.launches + 1))
    else Continue(s, Inspected(seen, false, status))
  }

  /** Compiling the result; a transition without its artifact throws. */
  function ReconcileStep(s: State, reconcile: Reconcile): State
    requires s.running.Some? && s.running.value.pc.Inspected?
  {
    var job, pc, slot := s.running.value.job, s.running.value.pc, s.target.slot;
    match Active(pc.seen, slot)
    case None => s.(running := None)
    case Some(source) =>
      match CompileProjection(pc.seen, source, slot, reconcile)
      case Err(_) => s.(running := None)
      case Ok(projection) =>
        var active := if projection.Some? then projection.value.active else source;
        Continue(s, Applying(pc.seen,
                             Handled(job.edge, source, pc.launched, pc.inspection, reconcile, projection,
                                     CompileControllerWake(pc.seen, slot, active, reconcile, job.edge))))
  }

  /** The projection is what the slot already holds. */
  predicate AlreadyPublished(lab: RuntimeState, projection: Projection) {
    && projection.slot in lab.slots
    && lab.slots[projection.slot].active == Some(projection.active)
    && lab.slots[projection.slot].state == projection.state
  }

  /** The compare that precedes publication, and the poke that replaces a CAS lost to an unrelated bump. */
  function ApplyStep(s: State): State
    requires s.history != [] && s.running.Some? && s.running.value.pc.Applying?
  {
    var result, lab := s.running.value.pc.result, Lab(s);
    if !result.Handled? || result.projection.None? then Continue(s, Delivering(result))
    else if !s.known then s.(running := None)
    else
      var projection := result.projection.value;
      var active := Active(lab, s.target.slot);
      if active.None? || AlreadyPublished(lab, projection) then Continue(s, Delivering(result))
      else if lab.revision == projection.expectedRevision && active == Some(projection.expectedActive) then
        Continue(s, Publishing(s.running.value.pc.seen, result, lab))
      else if active == Some(projection.expectedActive) && s.accepting && !s.disposed then
        Continue(s, Delivering(result)).(waiting := s.waiting + [Job(Poke, None)],
                                         counts := s.counts.(retries := s.counts.retries + 1))
      else Continue(s, Delivering(result))
  }

  function WithAttempt(state: RuntimeState, projection: Projection): RuntimeState
    requires projection.slot in state.slots
  {
    state.(slots := state.slots[projection.slot := state.slots[projection.slot].(state := projection.state,
                                                                                 active := Some(projection.active))])
  }

  /** `transition`: the whole trials value that was read, written by compare-and-set on its revision. */
  function PublishStep(s: State, ok: bool): State
    requires s.history != [] && s.running.Some? && s.running.value.pc.Publishing?
  {
    var pc := s.running.value.pc;
    if ok && Lab(s).revision == pc.read.revision && pc.result.Handled? && pc.result.projection.Some?
       && pc.result.projection.value.slot in pc.read.slots then
      var next := Lab(s).(revision := Lab(s).revision + 1,
                          slots := WithAttempt(pc.read, pc.result.projection.value).slots);
      Continue(s, Delivering(pc.result)).(history := s.history + [next],
                                          counts := s.counts.(publications := s.counts.publications + 1))
    else s.(running := None)
  }

  function Step(s: State, a: Action): State
    requires Enabled(s, a)
  {
    match a
    case Dispatch(edge) =>
      if s.disposed then s
      else s.(waiting := s.waiting + [Job(edge, None)], counts := s.counts.(dispatches := s.counts.dispatches + 1))
    case Fire(edge) =>
      if edge.LaunchSafety? then
        s.(timers := s.timers.(safety := None), waiting := s.waiting + [Job(edge, s.timers.safety)],
           counts := s.counts.(safetyEdges := s.counts.safetyEdges + 1))
      else
        s.(timers := s.timers.(retry := None), waiting := s.waiting + [Job(edge, s.timers.retry)],
           counts := s.counts.(retryEdges := s.counts.retryEdges + 1))
    case Begin => s.(running := Some(Run(s.waiting[0], Entered)), waiting := s.waiting[1..])
    case Read => ReadStep(s)
    case Inspect(status) => InspectStep(s, status)
    case LaunchReturned(status) => Continue(s, Inspected(s.running.value.pc.seen, true, status))
    case Reconciled(reconcile) => ReconcileStep(s, reconcile)
    case Apply => ApplyStep(s)
    case Publish(ok) => PublishStep(s, ok)
    case Deliver =>
      s.(running := None, timers := if s.disposed then s.timers else NextTimers(s.timers, s.running.value.pc.result))
    case Throw => s.(running := None)
    case Environment(next) => s.(history := s.history + [next], counts := s.counts.(bumps := s.counts.bumps + 1))
    case Close => s.(known := false)
    case StopAccepting => s.(accepting := false)
    case Dispose => s.(disposed := true, timers := Timers(None, None))
  }

  predicate Initial(s: State) {
    && |s.history| == 1 && s.waiting == [] && s.running.None? && s.timers == Timers(None, None) && !s.disposed
    && s.counts == Counts(0, 0, 0, 0, 0, 0, 0)
  }

  predicate ValidRun(s: State, run: seq<Action>)
    decreases |run|
  {
    run == [] || (Enabled(s, run[0]) && ValidRun(Step(s, run[0]), run[1..]))
  }

  function After(s: State, run: seq<Action>): State
    requires ValidRun(s, run)
    decreases |run|
  {
    if run == [] then s else After(Step(s, run[0]), run[1..])
  }

  // ---- The invariant -----------------------------------------------------------

  function NonRetry(jobs: seq<Job>): nat {
    if jobs == [] then 0
    else NonRetry(jobs[..|jobs| - 1]) + if jobs[|jobs| - 1].edge.PendingRetry? then 0 else 1
  }

  lemma {:induction false} NonRetryTail(jobs: seq<Job>)
    requires jobs != []
    ensures NonRetry(jobs) == NonRetry(jobs[1..]) + if jobs[0].edge.PendingRetry? then 0 else 1
  {
    var front := jobs[..|jobs| - 1];
    if front != [] {
      NonRetryTail(front);
      assert front[1..] == jobs[1..][..|jobs| - 2];
    }
  }

  lemma NonRetryAppend(jobs: seq<Job>, job: Job)
    ensures NonRetry(jobs + [job]) == NonRetry(jobs) + if job.edge.PendingRetry? then 0 else 1
  {
  }

  function Count(b: bool): nat { if b then 1 else 0 }

  /** The running edge has launched and its result may still arm the safety timer. */
  predicate HasLaunched(s: State) {
    s.running.Some? && match s.running.value.pc
      case Starting(_) => true
      case Inspected(_, launched, _) => launched
      case Applying(_, result) => result.Handled? && result.launched
      case Publishing(_, result, _) => result.Handled? && result.launched
      case Delivering(result) => result.Handled? && result.launched
      case _ => false
  }

  /** Each internal edge is paid for: a safety edge by its launch, a retry by the edge that met the pending answer. */
  predicate EdgesArePaid(s: State) {
    && s.counts.safetyEdges + Count(s.timers.safety.Some?) + Count(HasLaunched(s)) <= s.counts.launches
    && s.counts.retryEdges + Count(s.timers.retry.Some?) + NonRetry(s.waiting)
       + Count(s.running.Some? && !s.running.value.job.edge.PendingRetry?)
       <= s.counts.dispatches + s.counts.retries + s.counts.safetyEdges
  }

  /** Durable revisions count up by one, so a revision names one state. */
  predicate HistoryOk(s: State) {
    && s.history != []
    && (forall i :: 0 <= i < |s.history| ==> s.history[i].revision == s.history[0].revision + i)
    && |s.history| == 1 + s.counts.bumps + s.counts.publications
  }

  /** `seen` is a past state of the Lab that holds the edge's reference. */
  predicate SnapshotOk(s: State, seen: RuntimeState)
    requires s.history != [] && s.running.Some?
  {
    && seen in s.history && Active(seen, s.target.slot).Some?
    && (s.running.value.job.expected.Some? ==> Active(seen, s.target.slot) == s.running.value.job.expected)
  }

  /** Every environment bump before the snapshot could have cost at most one of the retries so far. */
  predicate RetriesBefore(s: State, seen: RuntimeState)
    requires s.history != []
  {
    s.history[0].revision + s.counts.publications + s.counts.retries <= seen.revision
  }

  /** The result is what the consumer compiled from the snapshot. */
  predicate ResultOk(s: State, seen: RuntimeState, result: EdgeResult) {
    result.Handled? ==>
      && Active(seen, s.target.slot) == Some(result.source)
      && CompileProjection(seen, result.source, s.target.slot, result.reconcile) == Ok(result.projection)
  }

  predicate RunningOk(s: State)
    requires s.history != []
  {
    s.running.Some? ==>
      match s.running.value.pc
      case Entered => true
      case Resolved(seen) => SnapshotOk(s, seen) && RetriesBefore(s, seen)
      case Starting(seen) => SnapshotOk(s, seen) && RetriesBefore(s, seen)
      case Inspected(seen, _, _) => SnapshotOk(s, seen) && RetriesBefore(s, seen)
      case Applying(seen, result) =>
        SnapshotOk(s, seen) && RetriesBefore(s, seen) && ResultOk(s, seen, result)
        && result.edge == s.running.value.job.edge
      case Publishing(seen, result, read) =>
        && SnapshotOk(s, seen) && ResultOk(s, seen, result) && read == seen
        && result.edge == s.running.value.job.edge && result.Handled? && result.projection.Some?
      case Delivering(result) => result.edge == s.running.value.job.edge
  }

  predicate Inv(s: State) {
    && HistoryOk(s) && RunningOk(s) && EdgesArePaid(s)
    && s.counts.retries <= s.counts.bumps
  }

  lemma RevisionNamesState(s: State, left: RuntimeState, right: RuntimeState)
    requires HistoryOk(s) && left in s.history && right in s.history && left.revision == right.revision
    ensures left == right
  {
  }

  /** Past states have smaller revisions, and only bumps and publications made revisions. */
  lemma SeenIsPast(s: State, seen: RuntimeState)
    requires HistoryOk(s) && seen in s.history
    ensures s.history[0].revision <= seen.revision <= Lab(s).revision
    ensures Lab(s).revision == s.history[0].revision + s.counts.bumps + s.counts.publications
  {
  }

  lemma DispatchStaysPaid(s: State, edge: Edge)
    requires EdgesArePaid(s) && Enabled(s, Dispatch(edge))
    ensures EdgesArePaid(Step(s, Dispatch(edge)))
  {
  }

  /** A timer's credit passes to the edge it fires. */
  lemma FireStaysPaid(s: State, edge: Edge)
    requires EdgesArePaid(s) && Enabled(s, Fire(edge))
    ensures EdgesArePaid(Step(s, Fire(edge)))
  {
  }

  lemma BeginStaysPaid(s: State)
    requires EdgesArePaid(s) && Enabled(s, Begin)
    ensures EdgesArePaid(Step(s, Begin))
  {
    NonRetryTail(s.waiting);
    hide NonRetry, ReadStep, InspectStep, ReconcileStep, ApplyStep, PublishStep, NextTimers;
  }

  lemma QueueStepKeeps(s: State, a: Action)
    requires Inv(s) && Enabled(s, a) && (a.Dispatch? || a.Fire? || a.Begin?)
    ensures Inv(Step(s, a))
  {
    hide HistoryOk, RunningOk, EdgesArePaid;
    QueueStepFrame(s, a);
    match a {
      case Dispatch(edge) => DispatchStaysPaid(s, edge);
      case Fire(edge) => FireStaysPaid(s, edge);
      case Begin => BeginStaysPaid(s);
    }
  }

  lemma QueueStepFrame(s: State, a: Action)
    requires HistoryOk(s) && RunningOk(s) && Enabled(s, a) && (a.Dispatch? || a.Fire? || a.Begin?)
    ensures HistoryOk(Step(s, a)) && RunningOk(Step(s, a))
  {
  }

  predicate IsConsumeStep(a: Action) {
    a.Read? || a.Inspect? || a.LaunchReturned? || a.Reconciled? || a.Apply? || a.Publish? || a.Deliver? || a.Throw?
  }

  lemma ReadingStaysPaid(s: State, a: Action)
    requires EdgesArePaid(s) && Enabled(s, a)
    requires a.Read? || a.Inspect? || a.LaunchReturned? || a.Throw?
    ensures EdgesArePaid(Step(s, a))
  {
    hide ReconcileStep, ApplyStep, PublishStep, NextTimers;
    hide NonRetry, Active;
  }

  lemma ResultStaysPaid(s: State, a: Action)
    requires EdgesArePaid(s) && Enabled(s, a) && (a.Reconciled? || a.Publish?)
    ensures EdgesArePaid(Step(s, a))
  {
    hide ReadStep, InspectStep, ApplyStep, NextTimers;
    hide NonRetry, CompileProjection, CompileControllerWake, WithAttempt, Active;
  }

  lemma ApplyStaysPaid(s: State)
    requires EdgesArePaid(s) && Enabled(s, Apply)
    ensures EdgesArePaid(Step(s, Apply))
  {
    hide ReadStep, InspectStep, ReconcileStep, PublishStep, NextTimers;
    NonRetryAppend(s.waiting, Job(Poke, None));
    hide NonRetry, AlreadyPublished, Active;
  }

  lemma DeliverStaysPaid(s: State)
    requires EdgesArePaid(s) && Enabled(s, Deliver) && s.running.value.pc.result.edge == s.running.value.job.edge
    ensures EdgesArePaid(Step(s, Deliver))
  {
  }

  lemma ReadingKeeps(s: State, a: Action)
    requires HistoryOk(s) && RunningOk(s) && s.counts.retries <= s.counts.bumps && Enabled(s, a)
    requires a.Read? || a.Inspect? || a.LaunchReturned? || a.Deliver? || a.Throw?
    ensures HistoryOk(Step(s, a)) && RunningOk(Step(s, a)) && Step(s, a).counts.retries <= Step(s, a).counts.bumps
  {
    hide ReconcileStep, ApplyStep, PublishStep, NextTimers, CompileProjection;
  }

  lemma ReconcilingKeeps(s: State, reconcile: Reconcile)
    requires HistoryOk(s) && RunningOk(s) && s.counts.retries <= s.counts.bumps && Enabled(s, Reconciled(reconcile))
    ensures var t := Step(s, Reconciled(reconcile)); HistoryOk(t) && RunningOk(t) && t.counts == s.counts
  {
  }

  lemma ProjectionNamesSnapshot(s: State, seen: RuntimeState, result: EdgeResult)
    requires ResultOk(s, seen, result) && result.Handled? && result.projection.Some?
    ensures var projection := result.projection.value;
            && projection.expectedRevision == seen.revision && projection.slot == s.target.slot
            && Active(seen, s.target.slot) == Some(projection.expectedActive)
  {
  }

  /** A compare that passes has met the very state the projection was compiled from. */
  lemma ApplyKeeps(s: State)
    requires HistoryOk(s) && RunningOk(s) && s.counts.retries <= s.counts.bumps && Enabled(s, Apply)
    ensures var t := Step(s, Apply); HistoryOk(t) && RunningOk(t) && t.counts.retries <= t.counts.bumps
  {
    hide Step, AlreadyPublished, CompileProjection;
    assert Step(s, Apply) == ApplyStep(s) by { ApplyIsApplyStep(s); }
    var seen, result := s.running.value.pc.seen, s.running.value.pc.result;
    SeenIsPast(s, seen);
    if result.Handled? && result.projection.Some? {
      ProjectionNamesSnapshot(s, seen, result);
    }
    if seen.revision == Lab(s).revision {
      RevisionNamesState(s, seen, Lab(s));
    }
  }

  lemma ApplyIsApplyStep(s: State)
    requires Enabled(s, Apply)
    ensures Step(s, Apply) == ApplyStep(s)
  {
  }

  lemma {:induction false} HistoryGrows(s: State, next: RuntimeState)
    requires HistoryOk(s) && next.revision == Lab(s).revision + 1
    ensures var grown := s.history + [next];
            && (forall i :: 0 <= i < |grown| ==> grown[i].revision == grown[0].revision + i)
            && grown[0] == s.history[0] && (forall state :: state in s.history ==> state in grown)
  {
  }

  lemma HistoryStepKeeps(s: State, a: Action)
    requires HistoryOk(s) && RunningOk(s) && s.counts.retries <= s.counts.bumps && Enabled(s, a)
    requires a.Publish? || a.Environment?
    ensures var t := Step(s, a); HistoryOk(t) && RunningOk(t) && t.counts.retries <= t.counts.bumps
  {
    hide ReadStep, InspectStep, ReconcileStep, ApplyStep, NextTimers;
    var t := Step(s, a);
    if t.history != s.history {
      HistoryGrows(s, t.history[|s.history|]);
    }
    hide CompileProjection, WithAttempt;
  }

  lemma ConsumeStepKeeps(s: State, a: Action)
    requires Inv(s) && Enabled(s, a) && IsConsumeStep(a)
    ensures Inv(Step(s, a))
  {
    hide EdgesArePaid, HistoryOk, Step;
    if a.Apply? {
      ApplyStaysPaid(s);
      ApplyKeeps(s);
    } else if a.Publish? {
      ResultStaysPaid(s, a);
      HistoryStepKeeps(s, a);
    } else if a.Deliver? {
      DeliverStaysPaid(s);
      ReadingKeeps(s, a);
    } else if a.Reconciled? {
      ResultStaysPaid(s, a);
      ReconcilingKeeps(s, a.reconcile);
    } else {
      ReadingStaysPaid(s, a);
      ReadingKeeps(s, a);
    }
  }

  lemma EnvironmentKeeps(s: State, next: RuntimeState)
    requires Inv(s) && Enabled(s, Environment(next))
    ensures Inv(Step(s, Environment(next)))
  {
  }

  lemma StepKeeps(s: State, a: Action)
    requires Inv(s) && Enabled(s, a)
    ensures Inv(Step(s, a))
  {
    match a {
      case Dispatch(_) => QueueStepKeeps(s, a);
      case Fire(_) => QueueStepKeeps(s, a);
      case Begin => QueueStepKeeps(s, a);
      case Environment(next) => EnvironmentKeeps(s, next);
      case Close =>
      case StopAccepting =>
      case Dispose =>
      case _ => ConsumeStepKeeps(s, a);
    }
  }

  lemma {:induction false} RunKeeps(s: State, run: seq<Action>)
    requires Inv(s) && ValidRun(s, run)
    ensures Inv(After(s, run))
    decreases |run|
  {
    hide Step, Enabled, Inv;
    if run != [] {
      StepKeeps(s, run[0]);
      RunKeeps(Step(s, run[0]), run[1..]);
    }
  }

  // ---- The theorems -------------------------------------------------------------

  /**
   No self-sustaining polling: over any run the edges the consumer makes itself
   are at most its dispatches and twice its launches, safety edges alone at
   most the launches, and the pokes that replace a lost CAS at most the
   unrelated revision bumps.
   */
  lemma NoPolling(s: State, run: seq<Action>)
    requires Initial(s) && ValidRun(s, run)
    ensures var c := After(s, run).counts;
            && c.safetyEdges + c.retryEdges <= c.dispatches + c.retries + 2 * c.launches
            && c.safetyEdges <= c.launches
            && c.retries <= c.bumps
  {
    RunKeeps(s, run);
  }

  /**
   No lost update: the write succeeds exactly when the Lab is still at the
   projection's revision, and then it replaces the very state the projection
   was compiled from, changing the slot's state and reference and the revision
   only; otherwise the edge ends without a trace.
   */
  lemma PublishesExactProjection(s: State, run: seq<Action>, ok: bool)
    requires Initial(s) && ValidRun(s, run) && Enabled(After(s, run), Publish(ok))
    ensures var t := After(s, run);
            var u := Step(t, Publish(ok));
            var result := t.running.value.pc.result;
            && result.Handled? && result.projection.Some?
            && var projection := result.projection.value;
               if ok && Lab(t).revision == projection.expectedRevision then
                 && CompileProjection(Lab(t), result.source, t.target.slot, result.reconcile) == Ok(Some(projection))
                 && Active(Lab(t), t.target.slot) == Some(projection.expectedActive)
                 && t.target.slot in Lab(t).slots
                 && u.history == t.history + [WithAttempt(Lab(t), projection).(revision := Lab(t).revision + 1)]
               else u == t.(running := None)
  {
    hide ReadStep, InspectStep, ReconcileStep, ApplyStep, NextTimers;
    RunKeeps(s, run);
    var t := After(s, run);
    var pc := t.running.value.pc;
    if Lab(t).revision == pc.read.revision {
      RevisionNamesState(t, pc.read, Lab(t));
    }
  }

  /** Nothing else the consumer does writes the Lab's state. */
  lemma OnlyPublicationWrites(s: State, a: Action)
    requires Enabled(s, a) && !a.Publish? && !a.Environment?
    ensures Step(s, a).history == s.history
  {
  }

  /**
   At the compare, exactly a projection whose reference is still current and
   whose revision moved is dispatched again (while accepting), and then some
   other writer did bump the revision; in every other case nothing is queued.
   */
  lemma LostCasIsDispatchedAgain(s: State, run: seq<Action>)
    requires Initial(s) && ValidRun(s, run) && Enabled(After(s, run), Apply)
    requires After(s, run).running.value.pc.result.Handled? && After(s, run).running.value.pc.result.projection.Some?
    ensures var t := After(s, run);
            var u := Step(t, Apply);
            var projection := t.running.value.pc.result.projection.value;
            var again := && t.known && !AlreadyPublished(Lab(t), projection)
                         && Active(Lab(t), t.target.slot) == Some(projection.expectedActive)
                         && Lab(t).revision != projection.expectedRevision && t.accepting && !t.disposed;
            && u.waiting == (if again then t.waiting + [Job(Poke, None)] else t.waiting)
            && (u.running.Some? && u.running.value.pc.Publishing? <==>
                  && t.known && !AlreadyPublished(Lab(t), projection)
                  && Active(Lab(t), t.target.slot) == Some(projection.expectedActive)
                  && Lab(t).revision == projection.expectedRevision)
            && (Lab(t).revision != projection.expectedRevision ==>
                  Lab(t).revision > projection.expectedRevision && t.counts.retries < t.counts.bumps)
  {
    hide ReadStep, InspectStep, ReconcileStep, PublishStep, NextTimers;
    RunKeeps(s, run);
    var t := After(s, run);
    var seen := t.running.value.pc.seen;
    SeenIsPast(t, seen);
  }

  /** An internal edge whose reference is no longer the published one ends without any effect. */
  lemma StaleEdgeIsInert(s: State)
    requires Enabled(s, Read) && s.running.value.job.expected.Some?
    requires Active(Lab(s), s.target.slot) != s.running.value.job.expected
    ensures var t := Step(s, Read);
            && Enabled(t, Deliver) && !t.running.value.pc.result.Handled?
            && Step(t, Deliver) == s.(running := None)
  {
  }

  lemma OnlyInspectionLaunches(s: State, a: Action)
    requires Enabled(s, a) && Step(s, a).counts.launches != s.counts.launches
    ensures a == Inspect(Absent) && At(s, a)
    ensures var active := Active(s.running.value.pc.seen, s.target.slot);
            active.Some? && active.value.phase.LaunchingAttempt?
  {
  }

  /** A process is launched only for a launching Attempt found absent, and an internal edge only for its own Attempt. */
  lemma LaunchesOnlyExactAttempt(s: State, run: seq<Action>, a: Action)
    requires Initial(s) && ValidRun(s, run) && Enabled(After(s, run), a)
    requires Step(After(s, run), a).counts.launches != After(s, run).counts.launches
    ensures var t := After(s, run);
            && a == Inspect(Absent)
            && var active := Active(t.running.value.pc.seen, t.target.slot);
               && active.Some? && active.value.phase.LaunchingAttempt?
               && (t.running.value.job.expected.Some? ==> active == t.running.value.job.expected)
  {
    OnlyInspectionLaunches(After(s, run), a);
    RunKeeps(s, run);
    hide Step, Enabled;
  }

  /** A disposed consumer holds no timer and takes no new edge. */
  lemma {:induction false} DisposedStaysQuiet(s: State, run: seq<Action>)
    requires ValidRun(s, run) && s.disposed && s.timers == Timers(None, None)
    ensures var t := After(s, run);
            && t.disposed && t.timers == Timers(None, None)
            && |t.waiting| <= |s.waiting| && t.counts.safetyEdges == s.counts.safetyEdges
            && t.counts.retryEdges == s.counts.retryEdges
    decreases |run|
  {
    if run != [] {
      DisposedStaysQuiet(Step(s, run[0]), run[1..]);
    }
  }

  // ---- What an edge answers -------------------------------------------------------

  /** `records[i]` is the last record that holds an artifact. */
  predicate LastHolds(records: seq<Option<Artifact>>, i: nat) {
    i < |records| && records[i].Some? && forall j :: i < j < |records| ==> records[j].None?
  }

  lemma {:induction false} LastHeldIsFound(records: seq<Option<Artifact>>, i: nat)
    requires LastHolds(records, i)
    ensures LastArtifact(records) == records[i]
    decreases |records|
  {
    if i < |records| - 1 {
      LastHeldIsFound(records[..|records| - 1], i);
    }
  }

  /** The slot once the transition was published under the last recorded artifact. */
  function Moved(slot: Slot, transition: Transition, artifact: Artifact, checkout: Option<string>): Slot {
    Slot(transition.state,
         Some(Reference(transition.attemptId, transition.phase, artifact.path, artifact.hash, checkout)), slot.rest)
  }

  /** Two states of a Lab differ in the revision, by one, and in one slot. */
  predicate OnlySlotMoved(before: RuntimeState, after: RuntimeState, slot: SlotId, moved: Slot) {
    && after == before.(revision := before.revision + 1, slots := after.slots)
    && after.slots.Keys == before.slots.Keys && slot in after.slots && after.slots[slot] == moved
    && forall other :: other in before.slots && other != slot ==> after.slots[other] == before.slots[other]
  }

  /**
   What is published.  A successful write moves the target's slot to the
   recorded transition's state, attempt and phase, under the path and hash of the
   last recorded artifact and the checkout the slot had; every other slot and
   field stays.
   */
  lemma PublishesTheTransition(s: State, run: seq<Action>, ok: bool) returns (i: nat)
    requires Initial(s) && ValidRun(s, run) && Enabled(After(s, run), Publish(ok))
    requires Step(After(s, run), Publish(ok)).history != After(s, run).history
    ensures var t := After(s, run);
            var u, result, slot := Step(t, Publish(ok)), t.running.value.pc.result, t.target.slot;
            && ok && result.Handled? && result.reconcile.Recorded? && result.reconcile.transition.Some?
            && slot in Lab(t).slots && Lab(t).slots[slot].active == Some(result.source)
            && LastHolds(result.reconcile.records, i)
            && u.history == t.history + [Lab(u)]
            && OnlySlotMoved(Lab(t), Lab(u), slot,
                             Moved(Lab(t).slots[slot], result.reconcile.transition.value,
                                   result.reconcile.records[i].value, result.source.checkout))
  {
    PublishesExactProjection(s, run, ok);
    var t := After(s, run);
    var reconcile := t.running.value.pc.result.reconcile;
    assert LastArtifact(reconcile.records).Some?;
    i :| LastHolds(reconcile.records, i) && reconcile.records[i] == LastArtifact(reconcile.records);
    hide Step, Enabled, After, ValidRun, LastArtifact;
    assert Lab(t).slots[t.target.slot].active == Some(t.running.value.pc.result.source);
  }

  /** A recorded transition without any artifact ends the edge, with nothing written or delivered. */
  lemma TransitionWithoutArtifactEnds(s: State, reconcile: Reconcile)
    requires Enabled(s, Reconciled(reconcile)) && reconcile.Recorded? && reconcile.transition.Some?
    requires forall record :: record in reconcile.records ==> record.None?
    ensures Step(s, Reconciled(reconcile)) == s.(running := None)
  {
  }

  /** Whether the Controller is woken, and for which Attempt at which Goal revision. */
  lemma WakesExactly(state: RuntimeState, slot: SlotId, active: Reference, reconcile: Reconcile, edge: Edge)
    ensures var wake := CompileControllerWake(state, slot, active, reconcile, edge);
            && (wake.Some? <==>
                  && (active.phase.TerminalAttempt? || active.phase.OutcomeUnknownAttempt?)
                  && (reconcile.BlockedReconcile? || reconcile.Recorded? || (reconcile.Pending? && edge.PendingRetry?))
                  && state.controllerGoal.Some? && state.controllerGoal.value.applied
                  && state.controllerGoal.value.goalId.Some? && state.controllerGoal.value.goalRevision.Some?)
            && (wake.Some? ==>
                  && wake.value.labId == state.labId && wake.value.session == state.controllerSession
                  && Some(wake.value.goalId) == state.controllerGoal.value.goalId
                  && Some(wake.value.goalRevision) == state.controllerGoal.value.goalRevision
                  && wake.value.slot == slot && wake.value.attemptId == active.attemptId && wake.value.phase == active.phase)
  {
  }

  /**
   The timers after a result.  A pending answer arms the retry timer, once, and
   leaves the safety timer alone; any other answer disarms the retry timer.  A
   poke or a wake disarms the safety timer, and a fresh launch still under way
   arms it, unless the Controller is woken.
   */
  lemma TimersExactly(timers: Timers, result: EdgeResult)
    requires result.Handled?
    ensures var next := NextTimers(timers, result);
            var reference := if result.projection.Some? then result.projection.value.active else result.source;
            var wakes := result.wake.Some?;
            var underWay := result.launched && (result.inspection.Launching? || result.inspection.Running?);
            && next.retry == (if !result.reconcile.Pending? then None
                              else if timers.retry.Some? || result.edge.PendingRetry? then timers.retry
                              else Some(reference))
            && next.safety == (if result.reconcile.Pending? then timers.safety
                               else if wakes then None
                               else if timers.safety.Some? && !result.edge.Poke? then timers.safety
                               else if underWay then Some(reference)
                               else None)
  {
  }

  /** The edge's run from its turn in the queue, when nobody else writes the Lab's state. */
  function EdgeRun(launch: Option<Inspection>, status: Inspection, reconcile: Reconcile): seq<Action> {
    (if launch.Some? then [Begin, Read, Inspect(launch.value), LaunchReturned(status)] else [Begin, Read, Inspect(status)])
    + [Reconciled(reconcile), Apply]
  }

  /** The next edge finds its Attempt as it expects it. */
  predicate FindsAttempt(s: State, source: Reference) {
    && s.history != [] && s.running.None? && s.waiting != [] && s.known && Lab(s).labId == s.target.labId
    && s.target.slot in Lab(s).slots && Lab(s).slots[s.target.slot].active == Some(source)
    && (s.waiting[0].expected.Some? ==> s.waiting[0].expected == Some(source))
  }

  /** Inspected once, and launched exactly if it is a launching Attempt found absent. */
  predicate Inspects(source: Reference, launch: Option<Inspection>, status: Inspection) {
    if source.phase.LaunchingAttempt? && (launch == Some(Absent) || (launch.None? && status.Absent?))
    then launch == Some(Absent) else launch.None?
  }

  function ResultOf(s: State, source: Reference, launch: Option<Inspection>, status: Inspection, reconcile: Reconcile,
                    projection: Option<Projection>): EdgeResult
    requires s.history != [] && s.waiting != []
  {
    var active := if projection.Some? then projection.value.active else source;
    Handled(s.waiting[0].edge, source, launch.Some?, status, reconcile, projection,
            CompileControllerWake(Lab(s), s.target.slot, active, reconcile, s.waiting[0].edge))
  }

  /** The state once the edge has compared its result: about to publish, or about to deliver. */
  lemma EdgeCompares(s: State, source: Reference, launch: Option<Inspection>, status: Inspection, reconcile: Reconcile,
                     projection: Option<Projection>)
    requires FindsAttempt(s, source) && Inspects(source, launch, status)
    requires CompileProjection(Lab(s), source, s.target.slot, reconcile) == Ok(projection)
    ensures var result := ResultOf(s, source, launch, status, reconcile, projection);
            var pc := if projection.Some? && !AlreadyPublished(Lab(s), projection.value)
                      then Publishing(Lab(s), result, Lab(s)) else Delivering(result);
            ValidRun(s, EdgeRun(launch, status, reconcile))
            && After(s, EdgeRun(launch, status, reconcile))
               == s.(waiting := s.waiting[1..], running := Some(Run(s.waiting[0], pc)),
                     counts := s.counts.(launches := s.counts.launches + if launch.Some? then 1 else 0))
  {
    EdgeReads(s, source);
    var read := s.(waiting := s.waiting[1..], running := Some(Run(s.waiting[0], Resolved(Lab(s)))));
    EdgeInspects(read, source, launch, status);
    var looks := if launch.Some? then [Inspect(launch.value), LaunchReturned(status)] else [Inspect(status)];
    var inspected := After(read, looks);
    EdgeReconciles(s, source, launch, status, reconcile, projection, inspected);
    hide Step, Enabled, ValidRun, After, CompileProjection, AlreadyPublished, ResultOf, FindsAttempt, Inspects;
    var last := After(inspected, [Reconciled(reconcile), Apply]);
    RunSplits(read, looks, inspected, [Reconciled(reconcile), Apply], last);
    RunSplits(s, [Begin, Read], read, looks + [Reconciled(reconcile), Apply], last);
    assert EdgeRun(launch, status, reconcile) == [Begin, Read] + (looks + [Reconciled(reconcile), Apply]);
  }

  lemma EdgeReconciles(s: State, source: Reference, launch: Option<Inspection>, status: Inspection, reconcile: Reconcile,
                       projection: Option<Projection>, inspected: State)
    requires FindsAttempt(s, source)
    requires CompileProjection(Lab(s), source, s.target.slot, reconcile) == Ok(projection)
    requires inspected == s.(waiting := s.waiting[1..],
                             running := Some(Run(s.waiting[0], Inspected(Lab(s), launch.Some?, status))),
                             counts := s.counts.(launches := s.counts.launches + if launch.Some? then 1 else 0))
    ensures var result := ResultOf(s, source, launch, status, reconcile, projection);
            var pc := if projection.Some? && !AlreadyPublished(Lab(s), projection.value)
                      then Publishing(Lab(s), result, Lab(s)) else Delivering(result);
            ValidRun(inspected, [Reconciled(reconcile), Apply])
            && After(inspected, [Reconciled(reconcile), Apply])
               == inspected.(running := Some(Run(s.waiting[0], pc)))
  {
    hide CompileControllerWake, NextTimers, AlreadyPublished;
    ProjectionIsOfSlot(s, source, reconcile, projection);
    hide CompileProjection;
    var result := ResultOf(s, source, launch, status, reconcile, projection);
    var applying := inspected.(running := Some(Run(s.waiting[0], Applying(Lab(s), result))));
    assert Enabled(inspected, Reconciled(reconcile)) && Step(inspected, Reconciled(reconcile)) == applying;
    assert Enabled(applying, Apply);
    RunTwo(inspected, Reconciled(reconcile), applying, Apply, Step(applying, Apply));
  }

  lemma ProjectionIsOfSlot(s: State, source: Reference, reconcile: Reconcile, projection: Option<Projection>)
    requires s.history != [] && CompileProjection(Lab(s), source, s.target.slot, reconcile) == Ok(projection)
    ensures projection.Some? ==>
              && projection.value.expectedRevision == Lab(s).revision && projection.value.slot == s.target.slot
              && projection.value.expectedActive == source
  {
  }

  lemma EdgeReads(s: State, source: Reference)
    requires FindsAttempt(s, source)
    ensures ValidRun(s, [Begin, Read])
    ensures After(s, [Begin, Read]) == s.(waiting := s.waiting[1..], running := Some(Run(s.waiting[0], Resolved(Lab(s)))))
  {
    var m := Step(s, Begin);
    RunTwo(s, Begin, m, Read, Step(m, Read));
  }

  lemma EdgeInspects(s: State, source: Reference, launch: Option<Inspection>, status: Inspection)
    requires s.history != [] && s.running.Some? && s.running.value.pc.Resolved?
    requires Active(s.running.value.pc.seen, s.target.slot) == Some(source) && Inspects(source, launch, status)
    ensures var looks := if launch.Some? then [Inspect(launch.value), LaunchReturned(status)] else [Inspect(status)];
            && ValidRun(s, looks)
            && After(s, looks)
               == s.(running := Some(s.running.value.(pc := Inspected(s.running.value.pc.seen, launch.Some?, status))),
                     counts := s.counts.(launches := s.counts.launches + if launch.Some? then 1 else 0))
  {
    if launch.Some? {
      var m := Step(s, Inspect(launch.value));
      RunTwo(s, Inspect(launch.value), m, LaunchReturned(status), Step(m, LaunchReturned(status)));
    } else {
      assert [Inspect(status)][1..] == [];
    }
  }

  lemma RunTwo(s: State, a: Action, m: State, b: Action, t: State)
    requires Enabled(s, a) && Step(s, a) == m && Enabled(m, b) && Step(m, b) == t
    ensures ValidRun(s, [a, b]) && After(s, [a, b]) == t
  {
    hide Step, Enabled;
    assert [a, b][1..] == [b] && [b][1..] == [];
    assert ValidRun(m, [b]) && After(m, [b]) == t by {
      assert ValidRun(t, []);
    }
  }

  lemma {:induction false} RunSplits(s: State, first: seq<Action>, m: State, second: seq<Action>, t: State)
    requires ValidRun(s, first) && After(s, first) == m && ValidRun(m, second) && After(m, second) == t
    ensures ValidRun(s, first + second) && After(s, first + second) == t
    decreases |first|
  {
    hide Step, Enabled;
    if first == [] {
      assert first + second == second;
    } else {
      RunSplits(Step(s, first[0]), first[1..], m, second, t);
      assert (first + second)[0] == first[0] && (first + second)[1..] == first[1..] + second;
    }
  }

  /**
   One edge, undisturbed.  It reads the state, inspects the process, launches a
   launching Attempt found absent, and publishes the recorded transition; then
   its result sets the timers.
   */
  lemma EdgePublishesItsTransition(s: State, source: Reference, launch: Option<Inspection>, status: Inspection,
                                   records: seq<Option<Artifact>>, transition: Transition, i: nat)
    returns (t: State, result: EdgeResult)
    requires FindsAttempt(s, source) && Inspects(source, launch, status) && LastHolds(records, i)
    requires var slot := Lab(s).slots[s.target.slot];
             Moved(slot, transition, records[i].value, source.checkout) != slot
    ensures var run := EdgeRun(launch, status, Recorded(records, Some(transition))) + [Publish(true), Deliver];
            ValidRun(s, run) && t == After(s, run)
    ensures t.history != [] && t.history == s.history + [Lab(t)]
            && OnlySlotMoved(Lab(s), Lab(t), s.target.slot,
                             Moved(Lab(s).slots[s.target.slot], transition, records[i].value, source.checkout))
    ensures result.Handled? && result.source == source && result.launched == launch.Some? && result.inspection == status
    ensures t.running.None? && t.waiting == s.waiting[1..]
    ensures t.timers == if s.disposed then s.timers else NextTimers(s.timers, result)
  {
    var reconcile := Recorded(records, Some(transition));
    LastHeldIsFound(records, i);
    var active := Reference(transition.attemptId, transition.phase, records[i].value.path, records[i].value.hash,
                            source.checkout);
    var projection := Projection(Lab(s).revision, s.target.slot, source, transition.state, active);
    assert CompileProjection(Lab(s), source, s.target.slot, reconcile) == Ok(Some(projection));
    EdgeCompares(s, source, launch, status, reconcile, Some(projection));
    result := ResultOf(s, source, launch, status, reconcile, Some(projection));
    assert !AlreadyPublished(Lab(s), projection);
    hide CompileProjection, CompileControllerWake, NextTimers, ReadStep, InspectStep, ReconcileStep, ApplyStep, LastArtifact;
    var m := After(s, EdgeRun(launch, status, reconcile));
    var published := Step(m, Publish(true));
    t := Step(published, Deliver);
    RunTwo(m, Publish(true), published, Deliver, t);
    RunSplits(s, EdgeRun(launch, status, reconcile), m, [Publish(true), Deliver], t);
  }

  /** An answer that records no transition is delivered without a write. */
  lemma EdgeWithoutTransitionWritesNothing(s: State, source: Reference, launch: Option<Inspection>, status: Inspection,
                                           reconcile: Reconcile) returns (t: State, result: EdgeResult)
    requires FindsAttempt(s, source) && Inspects(source, launch, status)
    requires !reconcile.Recorded? || reconcile.transition.None?
    ensures var run := EdgeRun(launch, status, reconcile) + [Deliver]; ValidRun(s, run) && t == After(s, run)
    ensures result.Handled? && result.source == source && result.projection.None? && result.reconcile == reconcile
    ensures t == s.(waiting := s.waiting[1..], timers := if s.disposed then s.timers else NextTimers(s.timers, result),
                    counts := s.counts.(launches := s.counts.launches + if launch.Some? then 1 else 0))
  {
    EdgeCompares(s, source, launch, status, reconcile, None);
    result := ResultOf(s, source, launch, status, reconcile, None);
    hide CompileProjection, CompileControllerWake, NextTimers, ReadStep, InspectStep, ReconcileStep, ApplyStep, LastArtifact;
    var m := After(s, EdgeRun(launch, status, reconcile));
    t := Step(m, Deliver);
    assert [Deliver][1..] == [];
    RunSplits(s, EdgeRun(launch, status, reconcile), m, [Deliver], t);
  }

  /** An edge of an unknown or foreign Lab, or of a slot without an Attempt, is answered without effect. */
  lemma EdgeWithoutAttemptIsInert(s: State)
    requires Enabled(s, Begin)
    requires !s.known || Lab(s).labId != s.target.labId || s.target.slot !in Lab(s).slots
             || Lab(s).slots[s.target.slot].active.None?
    ensures ValidRun(s, [Begin, Read, Deliver]) && After(s, [Begin, Read, Deliver]) == s.(waiting := s.waiting[1..])
  {
    var m := Step(s, Begin);
    var u := Step(m, Read);
    assert ValidRun(u, [Deliver]) && After(u, [Deliver]) == Step(u, Deliver) by {
      assert [Deliver][1..] == [];
    }
    RunTwo(s, Begin, m, Read, u);
    RunSplits(s, [Begin, Read], u, [Deliver], Step(u, Deliver));
    assert [Begin, Read] + [Deliver] == [Begin, Read, Deliver];
  }

  /** What may happen at any time: dispatches, another writer, closing, disposal; and a failure of any running edge. */
  lemma MayAlwaysHappen(s: State, next: RuntimeState)
    requires s.history != []
    ensures Enabled(s, Dispatch(Startup)) && Enabled(s, Dispatch(Poke))
    ensures Enabled(s, Close) && Enabled(s, StopAccepting) && Enabled(s, Dispose)
    ensures next.revision == Lab(s).revision + 1 ==> Enabled(s, Environment(next))
    ensures s.running.Some? ==> Enabled(s, Throw) && Step(s, Throw) == s.(running := None)
    ensures Enabled(s, Begin) <==> s.running.None? && s.waiting != []
    ensures Enabled(s, Fire(LaunchSafety)) <==> s.timers.safety.Some?
    ensures Enabled(s, Fire(PendingRetry)) <==> s.timers.retry.Some?
  {
  }

  /** Closing a Lab forgets it, shutdown stops the replacement pokes, and disposal cancels both timers; no edge is lost. */
  lemma StoppingKeepsTheQueue(s: State)
    requires s.history != []
    ensures Step(s, Close) == s.(known := false) && Step(s, StopAccepting) == s.(accepting := false)
    ensures Step(s, Dispose) == s.(disposed := true, timers := Timers(None, None))
  {
  }

  /** A dispatch queues its edge, a fired timer queues its own with its reference; a disposed consumer refuses. */
  lemma EdgesAreQueued(s: State, edge: Edge)
    requires s.history != []
    ensures Enabled(s, Dispatch(edge)) ==>
              Step(s, Dispatch(edge)).waiting == if s.disposed then s.waiting else s.waiting + [Job(edge, None)]
    ensures Enabled(s, Fire(edge)) ==>
              var t := Step(s, Fire(edge));
              && (edge.LaunchSafety? ==> t.waiting == s.waiting + [Job(edge, s.timers.safety)]
                                         && t.timers == s.timers.(safety := None))
              && (edge.PendingRetry? ==> t.waiting == s.waiting + [Job(edge, s.timers.retry)]
                                         && t.timers == s.timers.(retry := None))
  {
  }

  // ---- The consumer's own fields --------------------------------------------------

  datatype TimerKey = TimerKey(target: Target, edge: Edge)

  /** `AttemptRuntimeConsumer` over its mutable maps; `scheduled` is what the host will still call back. */
  class AttemptRuntimeConsumer {
    var armed: map<TimerKey, Reference>
    var scheduled: set<TimerKey>
    var queued: map<Target, seq<Job>>
    var disposed: bool

    ghost predicate Valid()
      reads this
    {
      && scheduled == armed.Keys && (disposed ==> armed == map[])
      && forall key :: key in armed ==> key.edge.LaunchSafety? || key.edge.PendingRetry?
    }

    function ArmedFor(target: Target, edge: Edge): Option<Reference>
      reads this
    {
      var key := TimerKey(target, edge);
      if key in armed then Some(armed[key]) else None
    }

    /** The target's slice of the armed map. */
    ghost function TimersOf(target: Target): Timers
      reads this
    {
      Timers(ArmedFor(target, PendingRetry), ArmedFor(target, LaunchSafety))
    }

    function QueuedFor(target: Target): seq<Job>
      reads this
    {
      if target in queued then queued[target] else []
    }

    /** Every other target keeps its timers. */
    twostate predicate OthersKeep(target: Target)
      reads this
    {
      forall other :: other != target ==> TimersOf(other) == old(TimersOf(other))
    }

    constructor ()
      ensures Valid() && armed == map[] && queued == map[] && !disposed
    {
      armed, scheduled, queued, disposed := map[], {}, map[], false;
    }

    method Enqueue(target: Target, job: Job)
      modifies this`queued
      ensures QueuedFor(target) == old(QueuedFor(target)) + [job]
      ensures forall other :: other != target ==> QueuedFor(other) == old(QueuedFor(other))
    {
      queued := queued[target := QueuedFor(target) + [job]];
    }

    method Dispatch(target: Target, edge: Edge) returns (accepted: bool)
      requires Valid() && (edge.Startup? || edge.Poke?)
      modifies this`queued
      ensures Valid() && accepted == !disposed
      ensures QueuedFor(target) == old(QueuedFor(target)) + if accepted then [Job(edge, None)] else []
      ensures forall other :: other != target ==> QueuedFor(other) == old(QueuedFor(other))
    {
      accepted := !disposed;
      if accepted {
        Enqueue(target, Job(edge, None));
      }
    }

    method ArmOnce(target: Target, edge: Edge, expected: Reference)
      requires Valid() && (edge.LaunchSafety? || edge.PendingRetry?) && !disposed
      modifies this`armed, this`scheduled
      ensures Valid() && ArmedFor(target, edge) == Arm(old(ArmedFor(target, edge)), expected)
      ensures forall t, e :: (t != target || e != edge) ==> ArmedFor(t, e) == old(ArmedFor(t, e))
    {
      var key := TimerKey(target, edge);
      if key in armed || disposed {
        return;
      }
      scheduled := scheduled + {key};
      armed := armed[key := expected];
    }

    method ClearArmed(target: Target, edge: Edge)
      requires Valid()
      modifies this`armed, this`scheduled
      ensures Valid() && ArmedFor(target, edge).None?
      ensures forall t, e :: (t != target || e != edge) ==> ArmedFor(t, e) == old(ArmedFor(t, e))
    {
      var key := TimerKey(target, edge);
      if key !in armed {
        return;
      }
      armed := armed - {key};
      scheduled := scheduled - {key};
    }

    method ReconcileTimers(target: Target, result: EdgeResult)
      requires Valid() && !disposed
      modifies this`armed, this`scheduled
      ensures Valid() && TimersOf(target) == NextTimers(old(TimersOf(target)), result)
      ensures OthersKeep(target)
    {
      if !result.Handled? {
        return;
      }
      if result.reconcile.Pending? {
        if result.edge != PendingRetry {
          ArmOnce(target, PendingRetry, Carried(result));
        }
        return;
      }
      ClearArmed(target, PendingRetry);
      if result.edge.Poke? || result.wake.Some? {
        ClearArmed(target, LaunchSafety);
      }
      if result.wake.Some? {
        return;
      }
      if result.launched && (result.inspection.Launching? || result.inspection.Running?) {
        ArmOnce(target, LaunchSafety, Carried(result));
      }
    }

    /** The scheduled callback: the timer is gone before its edge is queued with the reference it was armed for. */
    method Fire(target: Target, edge: Edge)
      requires Valid() && TimerKey(target, edge) in scheduled
      modifies this
      ensures Valid() && disposed == old(disposed)
      ensures QueuedFor(target) == old(QueuedFor(target)) + [Job(edge, old(ArmedFor(target, edge)))]
      ensures ArmedFor(target, edge).None?
      ensures forall t, e :: (t != target || e != edge) ==> ArmedFor(t, e) == old(ArmedFor(t, e))
      ensures forall other :: other != target ==> QueuedFor(other) == old(QueuedFor(other))
    {
      var key := TimerKey(target, edge);
      var expected := armed[key];
      scheduled := scheduled - {key};
      armed := armed - {key};
      if disposed {
        return;
      }
      Enqueue(target, Job(edge, Some(expected)));
    }

    method Dispose()
      requires Valid()
      modifies this`disposed, this`armed, this`scheduled
      ensures Valid() && disposed && armed == map[] && scheduled == {}
    {
      if disposed {
        return;
      }
      disposed := true;
      var left := armed.Keys;
      while left != {}
        invariant disposed && scheduled == left && left <= armed.Keys
        decreases |left|
      {
        var key :| key in left;
        scheduled := scheduled - {key};
        left := left - {key};
      }
      armed := map[];
    }
  }
}
