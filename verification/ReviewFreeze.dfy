/**
 The worker freeze of a review (dsh-autolab/lib/index.js): the one pause receipt,
 the hold that replaces a still open source turn, Postflight completion, and
 the recovery a new owner makes of holds its predecessor lost.

 Owner tokens are fresh: the runtime lock draws a random one for each owner.
 */
module ReviewFreeze {
  import opened Wrappers

  datatype Freeze = Pending | HoldPending | Held | Stopped | StaleFreeze | UserOverride

  datatype GoalOutcome = Paused | AlreadyApplied | NoActiveGoal | StaleGoal

  datatype TurnOutcome = TurnStopped | SourceActive | TurnOverridden

  datatype GoalRef = GoalRef(id: string, revision: int)

  /** What the pause receipt says. */
  datatype Outcome = Outcome(completedAt: nat, goalOutcome: GoalOutcome, activeTurn: bool, observedTurn: Option<int>,
                             goalRef: Option<GoalRef>)

  datatype Pause = Pause(controlId: string, payloadHash: string, freeze: Freeze, outcome: Option<Outcome>,
                         detail: Option<string>, holdOwner: Option<string>)

  /** The route a Preflight verdict was resolved by. */
  datatype Resolution = Resolution(verdict: string, effect: string)

  /**
   `recorded`: the Postflight result is in; `verdict` and `resolution` belong to
   a Preflight; `rest` is what the freeze protocol never touches.
   */
  datatype Review = Review(sourceTurn: int, postflight: bool, recorded: bool, verdict: Option<string>,
                           resolution: Option<Resolution>, pause: Pause, rest: string)

  /** The control receipt as delivered. */
  datatype Status = Status(reviewId: string, controlId: string, payloadHash: string, updatedAt: nat, activeTurn: bool,
                           observedTurn: Option<int>, turnOutcome: TurnOutcome, goalOutcome: GoalOutcome,
                           goalRef: Option<GoalRef>)

  const MAX_SAFE_INTEGER := 0x1F_FFFF_FFFF_FFFF

  /** pending < hold-pending < held < the three final freezes */
  function Rank(freeze: Freeze): nat {
    match freeze
    case Pending => 0
    case HoldPending => 1
    case Held => 2
    case _ => 3
  }

  predicate Final(freeze: Freeze) { Rank(freeze) == 3 }

  /** `reviewFreezeComplete` (dsh-autolab/src/state.ts) */
  predicate FreezeComplete(pause: Pause, owner: string) {
    pause.freeze.Stopped? || (pause.freeze.Held? && pause.holdOwner == Some(owner))
  }

  /** The strict schema of a durable pause (dsh-autolab/src/state.ts). */
  predicate PauseSchema(pause: Pause) {
    if pause.freeze.Pending? then pause.outcome.None? && pause.detail.None? && pause.holdOwner.None?
    else
      && pause.outcome.Some?
      && (pause.outcome.value.activeTurn <==> pause.outcome.value.observedTurn.Some?)
      && (pause.outcome.value.observedTurn.Some? ==> 0 < pause.outcome.value.observedTurn.value <= MAX_SAFE_INTEGER)
      && (pause.freeze.Held? <==> pause.holdOwner.Some?)
      && (pause.freeze.Held? || pause.freeze.HoldPending? || pause.freeze.UserOverride? ==> pause.outcome.value.activeTurn)
      && (pause.freeze.StaleFreeze? ==> pause.outcome.value.goalOutcome.StaleGoal?)
      && (pause.freeze.UserOverride? ==> pause.detail.Some?)
  }

  /** The receipt is well formed, and its claims about the turn agree with each other. */
  predicate WellFormed(status: Status) {
    && (status.activeTurn <==> status.observedTurn.Some?)
    && (status.observedTurn.Some? ==> 0 < status.observedTurn.value <= MAX_SAFE_INTEGER)
    && (status.turnOutcome.TurnStopped? <==> !status.activeTurn)
  }

  function ExpectedTurn(review: Review, status: Status): TurnOutcome {
    if status.observedTurn.None? then TurnStopped
    else if status.observedTurn.value == review.sourceTurn then SourceActive
    else TurnOverridden
  }

  /** `handleReviewControlStatus`: the pause a receipt asks to record, if it is about this review. */
  function PauseFrom(review: Review, status: Status): Option<Pause> {
    if !WellFormed(status) || review.pause.controlId != status.controlId || review.pause.payloadHash != status.payloadHash
       || status.turnOutcome != ExpectedTurn(review, status) then None
    else
      var freeze :=
        if status.goalOutcome.StaleGoal? then StaleFreeze
        else match status.turnOutcome
          case TurnOverridden => UserOverride
          case SourceActive => HoldPending
          case TurnStopped => Stopped;
      Some(Pause(status.controlId, status.payloadHash, freeze,
                 Some(Outcome(status.updatedAt, status.goalOutcome, status.activeTurn, status.observedTurn,
                              status.goalRef)),
                 if freeze.UserOverride? then Some("SOURCE_TURN_CHANGED") else None, None))
  }

  /** `sameReviewPauseReceipt` */
  predicate SameReceipt(left: Pause, right: Pause) {
    left.controlId == right.controlId && left.payloadHash == right.payloadHash && left.outcome == right.outcome
  }

  /** `recordReviewPauseOutcome`: the first receipt is taken, the same one again ignored, another refused. */
  function RecordPause(review: Review, pause: Pause): Result<Review, string> {
    if review.pause.controlId != pause.controlId || review.pause.payloadHash != pause.payloadHash then Ok(review)
    else if !review.pause.freeze.Pending? then
      if SameReceipt(review.pause, pause) then Ok(review) else Err("CONFIG_DRIFT")
    else Ok(review.(pause := pause))
  }

  /** `finishReviewFreeze` moves only a pending hold. */
  function FinishPause(review: Review, freeze: Freeze, detail: Option<string>, owner: Option<string>): Review {
    if !review.pause.freeze.HoldPending? then review
    else review.(pause := review.pause.(freeze := freeze,
                                        detail := if detail.Some? then detail else review.pause.detail,
                                        holdOwner := if owner.Some? then owner else review.pause.holdOwner))
  }

  /** Postflight completion releases a held worker for good. */
  function CompletePostflight(review: Review): Review {
    review.(recorded := true,
            pause := if review.pause.freeze.Held? then review.pause.(freeze := Stopped, holdOwner := None)
                     else review.pause)
  }

  /** `recordReviewResolution` (dsh-autolab/src/state.ts): an applied route also releases the held worker for good. */
  function Resolve(review: Review, owner: string, marker: Resolution): Result<Review, string> {
    if review.resolution.Some? then
      if review.resolution.value == marker then Ok(review) else Err("RESOLUTION_CONFLICT")
    else if review.postflight || review.verdict.None? || !FreezeComplete(review.pause, owner) then Err("NOT_READY")
    else if review.verdict != Some(marker.verdict) then Err("VERDICT_MISMATCH")
    else Ok(review.(resolution := Some(marker), pause := review.pause.(freeze := Stopped, holdOwner := None)))
  }

  /** The freeze lost its live hold with the owner before `owner`. */
  predicate Wedged(review: Review, owner: string) {
    (review.pause.freeze.Held? && review.pause.holdOwner != Some(owner)) || review.pause.freeze.HoldPending?
  }

  function Unwedge(review: Review, owner: string): Review {
    if Wedged(review, owner) then review.(pause := review.pause.(freeze := Stopped, holdOwner := None)) else review
  }

  // ---- The machine ---------------------------------------------------------------

  /** Where the one hold task of a review is suspended. */
  datatype HoldTask = Acquiring(epoch: string) | Finishing(freeze: Freeze, detail: Option<string>, owner: Option<string>)

  datatype Answer = NotRequired | Overridden | Granted

  datatype Worker = Missing | Idle | Running

  /**
   `holds` and `tasks` live in the process, which `closed` its holds at
   shutdown; `reviews`, `owner` and `revision` are durable.
   */
  datatype State = State(
    reviews: map<string, Review>,
    owner: string,
    owners: set<string>,
    revision: nat,
    accepting: bool,
    closed: bool,
    tasks: map<string, HoldTask>,
    holds: set<string>)

  datatype Action =
    | Receipt(status: Status, ok: bool)
    | StartHold(reviewId: string, worker: Worker)
    | HoldAnswered(reviewId: string, answer: Answer)
    | FinishFreeze(reviewId: string, ok: bool)
    | Postflight(reviewId: string)
    | RecordVerdict(reviewId: string, verdict: string)
    | Resolving(reviewId: string, marker: Resolution)
    | ReleaseHold(reviewId: string)
    | StopAccepting
    | Shutdown
    | Restart(owner: string)

  /** Shutdown waits for the hold tasks, and nothing but a new owner follows it. */
  predicate Enabled(s: State, a: Action) {
    (s.closed ==> a.Restart?)
    && match a
       case Receipt(status, _) => status.reviewId in s.reviews
       case StartHold(id, _) => id in s.reviews && id !in s.tasks
       case HoldAnswered(id, _) => id in s.reviews && id in s.tasks && s.tasks[id].Acquiring?
       case FinishFreeze(id, _) => id in s.reviews && id in s.tasks && s.tasks[id].Finishing?
       case Postflight(id) =>
         id in s.reviews && s.reviews[id].postflight && !s.reviews[id].recorded && FreezeComplete(s.reviews[id].pause, s.owner)
       case RecordVerdict(id, _) => id in s.reviews && !s.reviews[id].postflight && s.reviews[id].verdict.None?
       case Resolving(id, _) => id in s.reviews
       case ReleaseHold(id) => id in s.reviews && (s.reviews[id].recorded || s.reviews[id].resolution.Some?)
       case StopAccepting => true
       case Shutdown => !s.accepting && s.tasks == map[]
       case Restart(owner) => owner !in s.owners
  }

  /** One durable transition of a review; nothing is written when nothing changes. */
  function Write(s: State, id: string, review: Review): State
    requires id in s.reviews
  {
    if review == s.reviews[id] then s else s.(reviews := s.reviews[id := review], revision := s.revision + 1)
  }

  /** `recoverReviewFreezeProjection` under the new owner. */
  function Recover(s: State): State {
    if exists id :: id in s.reviews && Wedged(s.reviews[id], s.owner) then
      s.(reviews := map id | id in s.reviews :: Unwedge(s.reviews[id], s.owner), revision := s.revision + 1)
    else s
  }

  function Step(s: State, a: Action): State
    requires Enabled(s, a)
  {
    match a
    case Receipt(status, ok) =>
      (match PauseFrom(s.reviews[status.reviewId], status)
       case None => s
       case Some(pause) =>
         match RecordPause(s.reviews[status.reviewId], pause)
         case Err(_) => s
         case Ok(review) => if ok then Write(s, status.reviewId, review) else s)
    case StartHold(id, worker) =>
      if !s.reviews[id].pause.freeze.HoldPending? then s
      else s.(tasks := s.tasks[id := match worker
                                     case Missing => Finishing(UserOverride, Some("SESSION_NOT_LOCAL"), None)
                                     case Idle => Finishing(Stopped, None, None)
                                     case Running => Acquiring(s.owner)])
    case HoldAnswered(id, answer) =>
      (match answer
       case NotRequired => s.(tasks := s.tasks[id := Finishing(Stopped, None, None)])
       case Overridden => s.(tasks := s.tasks[id := Finishing(UserOverride, Some("SESSION_BUSY"), None)])
       case Granted =>
         if !s.accepting || !s.reviews[id].pause.freeze.HoldPending? || id in s.holds then s.(tasks := s.tasks - {id})
         else s.(tasks := s.tasks[id := Finishing(Held, None, Some(s.tasks[id].epoch))], holds := s.holds + {id}))
    case FinishFreeze(id, ok) =>
      var task := s.tasks[id];
      if ok then Write(s, id, FinishPause(s.reviews[id], task.freeze, task.detail, task.owner)).(tasks := s.tasks - {id})
      else s.(tasks := s.tasks - {id}, holds := if task.freeze.Held? then s.holds - {id} else s.holds)
    case Postflight(id) => Write(s, id, CompletePostflight(s.reviews[id]))
    case RecordVerdict(id, verdict) => Write(s, id, s.reviews[id].(verdict := Some(verdict)))
    case Resolving(id, marker) =>
      (match Resolve(s.reviews[id], s.owner, marker)
       case Err(_) => s
       case Ok(review) => Write(s, id, review))
    case ReleaseHold(id) => s.(holds := s.holds - {id})
    case StopAccepting => s.(accepting := false)
    case Shutdown => s.(closed := true, holds := {})
    case Restart(owner) =>
      Recover(s.(owner := owner, owners := s.owners + {owner}, accepting := true, closed := false, tasks := map[],
                 holds := {}))
  }

  predicate Initial(s: State) {
    && s.tasks == map[] && s.holds == {} && s.owner in s.owners && !s.closed
    && forall id :: id in s.reviews ==>
         && s.reviews[id].pause.freeze.Pending? && PauseSchema(s.reviews[id].pause) && !s.reviews[id].recorded
         && s.reviews[id].resolution.None? && s.reviews[id].sourceTurn > 0
  }

  predicate ValidRun(s: State, run: seq<Action>)
    decreases |run|
  {
    run == [] || (Enabled(s, run[0]) && ValidRun(Step(s, run[0]), run[1..]))
  }

  function After(s: State, run: seq<Action>): State
    requires ValidRun(s, run)
    decreases |run|
  {
    if run == [] then s else After(Step(s, run[0]), run[1..])
  }

  // ---- The invariant ------------------------------------------------------------------

  predicate ReviewOk(s: State, id: string)
    requires id in s.reviews
  {
    var review := s.reviews[id];
    && PauseSchema(review.pause)
    && (review.recorded || review.resolution.Some? ==> review.pause.freeze.Stopped?)
    && (review.pause.freeze.Held? ==> review.pause.holdOwner == Some(s.owner) && (s.closed || id in s.holds))
  }

  predicate TaskOk(s: State, id: string)
    requires id in s.tasks
  {
    && id in s.reviews && s.reviews[id].pause.freeze.HoldPending?
    && match s.tasks[id]
       case Acquiring(owner) => owner == s.owner
       case Finishing(freeze, detail, owner) =>
         match freeze
         case Stopped => detail.None? && owner.None?
         case UserOverride => detail.Some? && owner.None?
         case Held => detail.None? && owner == Some(s.owner) && id in s.holds
         case _ => false
  }

  predicate Inv(s: State) {
    && s.owner in s.owners
    && (forall id :: id in s.reviews ==> ReviewOk(s, id))
    && (forall id :: id in s.tasks ==> TaskOk(s, id))
    && (s.closed ==> s.tasks == map[])
  }

  /** How one step may move a review: up, or not at all; and never the first receipt. */
  predicate Climbs(before: Review, after: Review) {
    && Rank(before.pause.freeze) <= Rank(after.pause.freeze)
    && (Final(before.pause.freeze) ==> after.pause == before.pause)
    && (before.pause.outcome.Some? ==> after.pause.outcome == before.pause.outcome)
    && after.pause.controlId == before.pause.controlId && after.pause.payloadHash == before.pause.payloadHash
    && after.sourceTurn == before.sourceTurn && after.rest == before.rest
  }

  lemma RecordedPauseFitsSchema(review: Review, status: Status)
    ensures PauseFrom(review, status).Some? ==>
              var pause := PauseFrom(review, status).value;
              PauseSchema(pause) && !pause.freeze.Pending? && !pause.freeze.Held?
  {
  }

  lemma ReceiptKeeps(s: State, status: Status, ok: bool)
    requires Inv(s) && Enabled(s, Receipt(status, ok))
    ensures Inv(Step(s, Receipt(status, ok)))
  {
  }

  lemma HoldStepKeeps(s: State, a: Action)
    requires Inv(s) && Enabled(s, a) && (a.StartHold? || a.ReleaseHold? || a.StopAccepting? || a.Shutdown?)
    ensures Inv(Step(s, a))
  {
  }

  lemma AnswerKeeps(s: State, a: Action)
    requires Inv(s) && Enabled(s, a) && a.HoldAnswered?
    ensures Inv(Step(s, a))
  {
    hide PauseSchema, PauseFrom, RecordPause, FinishPause, CompletePostflight, Recover, Write, FreezeComplete;
    var t := Step(s, a);
    assert TaskOk(s, a.reviewId);
    forall id | id in t.reviews ensures ReviewOk(t, id) {
      assert ReviewOk(s, id);
    }
    forall id | id in t.tasks ensures TaskOk(t, id) {
      assert TaskOk(s, id);
    }
  }

  lemma FinishKeeps(s: State, id: string, ok: bool)
    requires Inv(s) && Enabled(s, FinishFreeze(id, ok))
    ensures Inv(Step(s, FinishFreeze(id, ok)))
  {
  }

  lemma PostflightKeeps(s: State, id: string)
    requires Inv(s) && Enabled(s, Postflight(id))
    ensures Inv(Step(s, Postflight(id)))
  {
  }

  lemma VerdictKeeps(s: State, a: Action)
    requires Inv(s) && Enabled(s, a) && (a.RecordVerdict? || a.Resolving?)
    ensures Inv(Step(s, a))
  {
    hide PauseFrom, RecordPause, Recover, FinishPause, CompletePostflight;
    var t := Step(s, a);
    forall k | k in t.reviews ensures ReviewOk(t, k) {
      assert ReviewOk(s, k);
    }
    hide PauseSchema;
    forall k | k in t.tasks ensures TaskOk(t, k) {
      assert TaskOk(s, k);
    }
  }

  /** A new owner has no hold task and no hold, and recovery leaves it no held review. */
  lemma RestartKeeps(s: State, owner: string)
    requires Inv(s) && Enabled(s, Restart(owner))
    ensures Inv(Step(s, Restart(owner)))
  {
  }

  /** Every step keeps the invariant: the durable schema, one hold task, a live hold behind every held review. */
  lemma StepKeeps(s: State, a: Action)
    requires Inv(s) && Enabled(s, a)
    ensures Inv(Step(s, a))
  {
    hide Step, Inv, Enabled;
    match a
    case Receipt(status, ok) => ReceiptKeeps(s, status, ok);
    case FinishFreeze(id, ok) => FinishKeeps(s, id, ok);
    case Postflight(id) => PostflightKeeps(s, id);
    case Restart(owner) => RestartKeeps(s, owner);
    case HoldAnswered(_, _) => AnswerKeeps(s, a);
    case RecordVerdict(_, _) => VerdictKeeps(s, a);
    case Resolving(_, _) => VerdictKeeps(s, a);
    case _ => HoldStepKeeps(s, a);
  }

  lemma RestartRecovers(s: State, token: string)
    requires Enabled(s, Restart(token))
    ensures Step(s, Restart(token))
            == Recover(s.(owner := token, owners := s.owners + {token}, accepting := true, closed := false, tasks := map[],
                          holds := {}))
  {
  }

  lemma RecordingClimbs(review: Review, status: Status)
    requires PauseSchema(review.pause) && PauseFrom(review, status).Some?
    ensures var next := RecordPause(review, PauseFrom(review, status).value);
            next.Ok? ==> Climbs(review, next.value)
  {
  }

  lemma OtherMovesClimb(review: Review, freeze: Freeze, detail: Option<string>, holder: Option<string>, owner: string)
    ensures Climbs(review, review) && Climbs(review, CompletePostflight(review)) && Climbs(review, Unwedge(review, owner))
    ensures Rank(freeze) >= 1 ==> Climbs(review, FinishPause(review, freeze, detail, holder))
  {
  }

  lemma ResolvingClimbs(review: Review, owner: string, marker: Resolution, verdict: string)
    requires PauseSchema(review.pause)
    ensures Climbs(review, review.(verdict := Some(verdict)))
    ensures Resolve(review, owner, marker).Ok? ==> Climbs(review, Resolve(review, owner, marker).value)
  {
  }

  lemma StepClimbs(s: State, a: Action)
    requires Inv(s) && Enabled(s, a)
    ensures var t := Step(s, a);
            && t.reviews.Keys == s.reviews.Keys
            && forall id :: id in s.reviews ==> Climbs(s.reviews[id], t.reviews[id])
  {
    hide Climbs, PauseFrom, PauseSchema, RecordPause, FinishPause, CompletePostflight, Unwedge, Resolve;
    var t := Step(s, a);
    forall id | id in s.reviews ensures id in t.reviews && Climbs(s.reviews[id], t.reviews[id]) {
      assert ReviewOk(s, id);
      var review := s.reviews[id];
      OtherMovesClimb(review, Pending, None, None, if a.Restart? then a.owner else s.owner);
      if a.Receipt? && PauseFrom(review, a.status).Some? {
        RecordingClimbs(review, a.status);
      } else if a.RecordVerdict? {
        ResolvingClimbs(review, s.owner, Resolution("", ""), a.verdict);
      } else if a.Resolving? {
        ResolvingClimbs(review, s.owner, a.marker, "");
      } else if a.FinishFreeze? && a.reviewId == id {
        assert TaskOk(s, id);
        var task := s.tasks[id];
        OtherMovesClimb(review, task.freeze, task.detail, task.owner, s.owner);
      }
    }
  }

  lemma {:induction false} RunHolds(s: State, run: seq<Action>)
    requires Inv(s) && ValidRun(s, run)
    ensures Inv(After(s, run)) && After(s, run).reviews.Keys == s.reviews.Keys
    ensures forall id :: id in s.reviews ==> Climbs(s.reviews[id], After(s, run).reviews[id])
    decreases |run|
  {
    hide Step, Enabled, Inv;
    if run != [] {
      var t := Step(s, run[0]);
      StepKeeps(s, run[0]);
      StepClimbs(s, run[0]);
      RunHolds(t, run[1..]);
    }
  }

  lemma InitialIsGood(s: State)
    requires Initial(s)
    ensures Inv(s)
  {
  }

  // ---- The theorems ------------------------------------------------------------------------

  /**
   The freeze is monotone: over any run of receipts, replays, hold
   acquisitions, failed writes, restarts and completions it only climbs, a
   final freeze stays, and the first receipt's fields never change.
   */
  lemma FreezeIsMonotone(s: State, first: seq<Action>, then': seq<Action>, id: string)
    requires Initial(s) && id in s.reviews && ValidRun(s, first) && ValidRun(After(s, first), then')
    ensures id in After(s, first).reviews && id in After(After(s, first), then').reviews
    ensures Climbs(After(s, first).reviews[id], After(After(s, first), then').reviews[id])
    ensures PauseSchema(After(After(s, first), then').reviews[id].pause)
  {
    InitialIsGood(s);
    RunHolds(s, first);
    RunHolds(After(s, first), then');
    assert ReviewOk(After(After(s, first), then'), id);
  }

  /** Until shutdown, a review counted as frozen by a hold is backed by a hold this process really has. */
  lemma HeldIsBacked(s: State, run: seq<Action>, id: string)
    requires Initial(s) && ValidRun(s, run) && !After(s, run).closed
    requires id in After(s, run).reviews && FreezeComplete(After(s, run).reviews[id].pause, After(s, run).owner)
    ensures After(s, run).reviews[id].pause.freeze.Stopped? || id in After(s, run).holds
  {
    InitialIsGood(s);
    RunHolds(s, run);
    assert ReviewOk(After(s, run), id);
  }

  /** A second receipt never moves the review: the same one is a no-op, another is refused. */
  lemma OnlyTheFirstReceiptCounts(review: Review, status: Status)
    requires !review.pause.freeze.Pending? && PauseFrom(review, status).Some?
    ensures var again := RecordPause(review, PauseFrom(review, status).value);
            if review.pause.outcome
               == Some(Outcome(status.updatedAt, status.goalOutcome, status.activeTurn, status.observedTurn, status.goalRef))
            then again == Ok(review) else again.Err?
  {
  }

  /**
   Owner recovery leaves no review hold-pending and none held by another owner,
   stops exactly the wedged ones, and is idempotent down to the revision.
   */
  lemma RecoveryUnwedges(s: State)
    ensures var t := Recover(s);
            && t.reviews.Keys == s.reviews.Keys && t.owner == s.owner
            && (forall id :: id in s.reviews ==>
                  && !Wedged(t.reviews[id], t.owner)
                  && t.reviews[id].rest == s.reviews[id].rest && t.reviews[id].pause.outcome == s.reviews[id].pause.outcome
                  && (if Wedged(s.reviews[id], s.owner) then t.reviews[id].pause.freeze.Stopped?
                      else t.reviews[id] == s.reviews[id]))
            && Recover(t) == t
            && (t.revision == s.revision <==> t == s)
  {
  }

  /** After a restart every review is complete or still waits for its receipt or was taken over by the user. */
  lemma RestartLeavesNoWedge(s: State, run: seq<Action>, owner: string, id: string)
    requires Initial(s) && ValidRun(s, run) && Enabled(After(s, run), Restart(owner)) && id in s.reviews
    ensures var t := Step(After(s, run), Restart(owner));
            && id in t.reviews
            && var freeze := t.reviews[id].pause.freeze;
               freeze.Stopped? || freeze.Pending? || freeze.StaleFreeze? || freeze.UserOverride?
  {
    InitialIsGood(s);
    RunHolds(s, run);
    var m := After(s, run);
    assert ReviewOk(m, id);
    RecoveryUnwedges(m.(owner := owner, owners := m.owners + {owner}, accepting := true, closed := false, tasks := map[],
                        holds := {}));
  }

  // ---- What each step answers ----------------------------------------------------------

  /** The receipt is about this pause, and what it says of the turn is neither malformed nor contradictory. */
  predicate About(review: Review, status: Status) {
    && status.controlId == review.pause.controlId && status.payloadHash == review.pause.payloadHash
    && match status.observedTurn
       case None => !status.activeTurn && status.turnOutcome.TurnStopped?
       case Some(turn) =>
         && status.activeTurn && 0 < turn <= MAX_SAFE_INTEGER
         && (turn == review.sourceTurn ==> status.turnOutcome.SourceActive?)
         && (turn != review.sourceTurn ==> status.turnOutcome.TurnOverridden?)
  }

  /**
   A receipt recorded.  A stale goal makes the freeze stale; otherwise no active
   turn stops it, the source turn still running leaves a hold to take, and any
   other running turn is a user override, with its detail.
   */
  predicate RecordedAs(pause: Pause, review: Review, status: Status) {
    && pause.controlId == review.pause.controlId && pause.payloadHash == review.pause.payloadHash
    && pause.outcome == Some(Outcome(status.updatedAt, status.goalOutcome, status.activeTurn, status.observedTurn,
                                     status.goalRef))
    && pause.holdOwner.None?
    && (pause.freeze.StaleFreeze? <==> status.goalOutcome.StaleGoal?)
    && (!status.goalOutcome.StaleGoal? ==>
          && (status.observedTurn.None? <==> pause.freeze.Stopped?)
          && (status.observedTurn == Some(review.sourceTurn) <==> pause.freeze.HoldPending?)
          && (status.observedTurn.Some? && status.observedTurn != Some(review.sourceTurn) <==> pause.freeze.UserOverride?))
    && pause.detail == if pause.freeze.UserOverride? then Some("SOURCE_TURN_CHANGED") else None
  }

  /** Only the first receipt about a review changes anything, and then it is recorded so; no other review moves. */
  lemma ReceiptIsRecorded(s: State, status: Status, ok: bool)
    requires Enabled(s, Receipt(status, ok))
    ensures var id, t := status.reviewId, Step(s, Receipt(status, ok));
            if ok && s.reviews[id].pause.freeze.Pending? && About(s.reviews[id], status) then
              && t == s.(reviews := s.reviews[id := t.reviews[id]], revision := s.revision + 1)
              && t.reviews[id] == s.reviews[id].(pause := t.reviews[id].pause)
              && RecordedAs(t.reviews[id].pause, s.reviews[id], status)
            else t == s
  {
  }

  /** Of one review, and nothing else but the tasks and holds of the process. */
  predicate OnlyReview(s: State, t: State, id: string) {
    && id in s.reviews && t.reviews.Keys == s.reviews.Keys && t.owner == s.owner && t.owners == s.owners
    && t.accepting == s.accepting && t.closed == s.closed
    && (forall k :: k in s.reviews && k != id ==> t.reviews[k] == s.reviews[k])
    && t.reviews[id] == s.reviews[id].(pause := t.reviews[id].pause)
  }

  /** What a hold task is to find out: the worker's freeze, and whether the process then holds it. */
  function HoldOutcome(worker: Worker, answer: Answer): Freeze {
    match worker
    case Missing => UserOverride
    case Idle => Stopped
    case Running =>
      match answer
      case NotRequired => Stopped
      case Overridden => UserOverride
      case Granted => Held
  }

  function HoldRun(id: string, worker: Worker, answer: Answer, ok: bool): seq<Action> {
    [StartHold(id, worker)] + ((if worker.Running? then [HoldAnswered(id, answer)] else []) + [FinishFreeze(id, ok)])
  }

  lemma OneStep(s: State, a: Action, rest: seq<Action>, t: State)
    requires Enabled(s, a) && ValidRun(Step(s, a), rest) && After(Step(s, a), rest) == t
    ensures ValidRun(s, [a] + rest) && After(s, [a] + rest) == t
    ensures rest == [] ==> ValidRun(s, [a]) && After(s, [a]) == t
  {
    hide Step, Enabled;
    assert ([a] + rest)[1..] == rest;
    if rest == [] {
      assert [a] + rest == [a];
    }
  }

  /**
   A hold task run through.  A missing worker and an overridden hold end in a
   user override, an idle worker and one that needs no hold in a stop, a granted
   hold in a held review whose hold this process keeps.  When the durable write
   fails the review waits as before, and a granted hold is given back.
   */
  lemma HoldTaskDecides(s: State, id: string, worker: Worker, answer: Answer, ok: bool) returns (t: State)
    requires !s.closed && s.accepting && id in s.reviews && id !in s.tasks && id !in s.holds
    requires s.reviews[id].pause.freeze.HoldPending?
    ensures var run := HoldRun(id, worker, answer, ok); ValidRun(s, run) && t == After(s, run)
    ensures OnlyReview(s, t, id) && t.tasks == s.tasks
    ensures var freeze, pause := HoldOutcome(worker, answer), s.reviews[id].pause;
            && t.holds == (if ok && freeze.Held? then s.holds + {id} else s.holds)
            && t.revision == (if ok then s.revision + 1 else s.revision)
            && t.reviews[id].pause
               == if !ok then pause
                  else pause.(freeze := freeze, holdOwner := if freeze.Held? then Some(s.owner) else pause.holdOwner,
                              detail := if !freeze.UserOverride? then pause.detail
                                        else if worker.Missing? then Some("SESSION_NOT_LOCAL") else Some("SESSION_BUSY"))
  {
    var last := FinishFreeze(id, ok);
    var m := HoldTaskFinds(s, id, worker, answer);
    t := Step(m, last);
    TaskFinishes(s, id, worker, answer, ok, m);
    hide *;
    var looks := if worker.Running? then [HoldAnswered(id, answer)] else [];
    OneStep(m, last, [], t);
    RunJoins(s, [StartHold(id, worker)] + looks, m, [last], t);
    HoldRunParts(id, worker, answer, ok);
  }

  lemma HoldRunParts(id: string, worker: Worker, answer: Answer, ok: bool)
    ensures HoldRun(id, worker, answer, ok)
            == ([StartHold(id, worker)] + (if worker.Running? then [HoldAnswered(id, answer)] else [])) + [FinishFreeze(id, ok)]
  {
  }

  lemma {:induction false} RunJoins(s: State, first: seq<Action>, m: State, second: seq<Action>, t: State)
    requires ValidRun(s, first) && After(s, first) == m && ValidRun(m, second) && After(m, second) == t
    ensures ValidRun(s, first + second) && After(s, first + second) == t
    decreases |first|
  {
    hide Step, Enabled;
    if first == [] {
      assert first + second == second;
    } else {
      RunJoins(Step(s, first[0]), first[1..], m, second, t);
      assert (first + second)[0] == first[0] && (first + second)[1..] == first[1..] + second;
    }
  }

  /** The task that is to write what was found out. */
  function Found(s: State, worker: Worker, answer: Answer): HoldTask {
    var freeze := HoldOutcome(worker, answer);
    Finishing(freeze, if !freeze.UserOverride? then None
                      else if worker.Missing? then Some("SESSION_NOT_LOCAL") else Some("SESSION_BUSY"),
              if freeze.Held? then Some(s.owner) else None)
  }

  lemma HoldTaskFinds(s: State, id: string, worker: Worker, answer: Answer) returns (m: State)
    requires !s.closed && s.accepting && id in s.reviews && id !in s.tasks && id !in s.holds
    requires s.reviews[id].pause.freeze.HoldPending?
    ensures var run := [StartHold(id, worker)] + (if worker.Running? then [HoldAnswered(id, answer)] else []);
            ValidRun(s, run) && m == After(s, run)
    ensures m == s.(tasks := s.tasks[id := Found(s, worker, answer)],
                    holds := if HoldOutcome(worker, answer).Held? then s.holds + {id} else s.holds)
  {
    var a := StartHold(id, worker);
    m := Step(s, a);
    if worker.Running? {
      var u := Step(m, HoldAnswered(id, answer));
      OneStep(m, HoldAnswered(id, answer), [], u);
      OneStep(s, a, [HoldAnswered(id, answer)], u);
      m := u;
    } else {
      OneStep(s, a, [], m);
      assert [a] + [] == [a];
    }
  }

  lemma TaskFinishes(s: State, id: string, worker: Worker, answer: Answer, ok: bool, m: State)
    requires !s.closed && id in s.reviews && id !in s.tasks && id !in s.holds
    requires s.reviews[id].pause.freeze.HoldPending?
    requires m == s.(tasks := s.tasks[id := Found(s, worker, answer)],
                     holds := if HoldOutcome(worker, answer).Held? then s.holds + {id} else s.holds)
    ensures Enabled(m, FinishFreeze(id, ok))
    ensures var t := Step(m, FinishFreeze(id, ok));
            var freeze, pause := HoldOutcome(worker, answer), s.reviews[id].pause;
            && OnlyReview(s, t, id) && t.tasks == s.tasks
            && t.holds == (if ok && freeze.Held? then s.holds + {id} else s.holds)
            && t.revision == (if ok then s.revision + 1 else s.revision)
            && t.reviews[id].pause
               == if !ok then pause
                  else pause.(freeze := freeze, holdOwner := if freeze.Held? then Some(s.owner) else pause.holdOwner,
                              detail := if !freeze.UserOverride? then pause.detail
                                        else if worker.Missing? then Some("SESSION_NOT_LOCAL") else Some("SESSION_BUSY"))
  {
    hide PauseFrom, RecordPause, CompletePostflight, Resolve, Recover;
    var t := Step(m, FinishFreeze(id, ok));
    assert t.tasks == s.tasks;
    assert t.holds == if ok && HoldOutcome(worker, answer).Held? then s.holds + {id} else s.holds;
  }

  /** A hold task whose durable write fails ends, and gives back the hold it was granted. */
  lemma FailedFinishGivesBackItsHold(s: State, id: string)
    requires Enabled(s, FinishFreeze(id, false))
    ensures Step(s, FinishFreeze(id, false))
            == s.(tasks := s.tasks - {id}, holds := if s.tasks[id].freeze.Held? then s.holds - {id} else s.holds)
  {
  }

  /** Recording compares the receipt with the pause it answers: not its own is ignored, its own again a no-op or a drift. */
  lemma RecordsTheFirstOnly(review: Review, pause: Pause)
    ensures var own := pause.controlId == review.pause.controlId && pause.payloadHash == review.pause.payloadHash;
            RecordPause(review, pause)
            == if own && review.pause.freeze.Pending? then Ok(review.(pause := pause))
               else if own && pause.outcome != review.pause.outcome then Err("CONFIG_DRIFT")
               else Ok(review)
  {
  }

  /** A hold granted too late, to a closing process or for a review no longer waiting, is not kept. */
  lemma LateHoldIsNotKept(s: State, id: string)
    requires Enabled(s, HoldAnswered(id, Granted)) && (!s.accepting || !s.reviews[id].pause.freeze.HoldPending?)
    ensures Step(s, HoldAnswered(id, Granted)) == s.(tasks := s.tasks - {id})
  {
  }

  /** Only a review waiting for a hold starts a hold task. */
  lemma NoHoldUnlessPending(s: State, id: string, worker: Worker)
    requires Enabled(s, StartHold(id, worker))
    ensures s.reviews[id].pause.freeze.HoldPending? <==> id in Step(s, StartHold(id, worker)).tasks
    ensures !s.reviews[id].pause.freeze.HoldPending? ==> Step(s, StartHold(id, worker)) == s
  {
  }

  /** The released form of a pause. */
  function Released(pause: Pause): Pause { pause.(freeze := Stopped, holdOwner := None) }

  /** Postflight records its result once, and a held worker is released for good with it. */
  lemma PostflightReleases(s: State, id: string)
    requires Inv(s) && Enabled(s, Postflight(id))
    ensures Step(s, Postflight(id))
            == s.(revision := s.revision + 1,
                  reviews := s.reviews[id := s.reviews[id].(recorded := true, pause := Released(s.reviews[id].pause))])
  {
    assert ReviewOk(s, id);
  }

  /**
   A Preflight's route is recorded once, for a review that is frozen and has
   exactly that verdict, and releases the worker; an exact retry changes nothing,
   and everything else is refused.
   */
  lemma ResolutionIsRecordedOnce(s: State, id: string, marker: Resolution)
    requires Inv(s) && Enabled(s, Resolving(id, marker))
    ensures var review := s.reviews[id];
            var frozen := review.pause.freeze.Stopped?
                          || (review.pause.freeze.Held? && review.pause.holdOwner == Some(s.owner));
            && (Resolve(review, s.owner, marker).Ok? <==>
                  review.resolution == Some(marker)
                  || (review.resolution.None? && !review.postflight && frozen && review.verdict == Some(marker.verdict)))
            && (Resolve(review, s.owner, marker).Err? ==>
                  Resolve(review, s.owner, marker).error
                  == if review.resolution.Some? then "RESOLUTION_CONFLICT"
                     else if review.postflight || review.verdict.None? || !frozen then "NOT_READY"
                     else "VERDICT_MISMATCH")
            && Step(s, Resolving(id, marker))
               == if review.resolution.None? && !review.postflight && frozen && review.verdict == Some(marker.verdict) then
                    s.(revision := s.revision + 1,
                       reviews := s.reviews[id := review.(resolution := Some(marker), pause := Released(review.pause))])
                  else s
  {
  }

  /** The step that stopped a review: a hold task's answer, Postflight, an applied route, or a new owner. */
  predicate StopsLater(a: Action, id: string) {
    || (a.FinishFreeze? && a.reviewId == id && a.ok) || (a.Postflight? && a.reviewId == id)
    || (a.Resolving? && a.reviewId == id) || a.Restart?
  }

  lemma FirstStop(s: State, a: Action, id: string)
    requires Inv(s) && Enabled(s, a) && id in s.reviews && !s.reviews[id].pause.freeze.Stopped?
    requires id in Step(s, a).reviews && Step(s, a).reviews[id].pause.freeze.Stopped?
    ensures StopsLater(a, id)
            || (Step(s, a).reviews[id].pause.outcome.Some? && !Step(s, a).reviews[id].pause.outcome.value.activeTurn)
  {
    assert ReviewOk(s, id);
    hide Recover, FinishPause, CompletePostflight, Resolve, PauseSchema;
  }

  /**
   A receipt that saw an active turn never stops a review by itself.  Over any
   run, a stopped review whose receipt did see one was stopped by its hold task,
   by Postflight, by an applied route or by the recovery of a new owner.
   */
  lemma {:induction false} ActiveTurnIsStoppedLater(s: State, run: seq<Action>, id: string) returns (k: nat)
    requires Inv(s) && ValidRun(s, run) && id in s.reviews && !s.reviews[id].pause.freeze.Stopped?
    requires id in After(s, run).reviews
    requires var pause := After(s, run).reviews[id].pause;
             pause.freeze.Stopped? && pause.outcome.Some? && pause.outcome.value.activeTurn
    ensures k < |run| && ValidRun(s, run[..k]) && StopsLater(run[k], id)
    ensures var m := After(s, run[..k]);
            && id in m.reviews && !m.reviews[id].pause.freeze.Stopped?
            && Enabled(m, run[k]) && id in Step(m, run[k]).reviews && Step(m, run[k]).reviews[id].pause.freeze.Stopped?
    decreases |run|
  {
    hide Step, Enabled, Inv, StopsLater, Climbs;
    assert run != [];
    var t := Step(s, run[0]);
    StepKeeps(s, run[0]);
    StepClimbs(s, run[0]);
    if t.reviews[id].pause.freeze.Stopped? {
      k := 0;
      FirstStop(s, run[0], id);
      RunHolds(t, run[1..]);
      StoppedKeepsItsOutcome(t.reviews[id], After(s, run).reviews[id]);
    } else {
      k := ActiveTurnIsStoppedLater(t, run[1..], id);
      assert run[..k + 1][0] == run[0] && run[..k + 1][1..] == run[1..][..k];
      k := k + 1;
    }
  }

  lemma StoppedKeepsItsOutcome(before: Review, after: Review)
    requires Climbs(before, after) && before.pause.freeze.Stopped?
    ensures after.pause == before.pause
  {
  }

  // ---- The runtime's own fields ----------------------------------------------------------

  class AutoLabReviews {
    var reviews: map<string, Review>
    var owner: string
    var revision: nat
    var accepting: bool
    var closed: bool
    var tasks: map<string, HoldTask>
    var holds: set<string>
    ghost var owners: set<string>

    ghost function Value(): State
      reads this
    {
      State(reviews, owner, owners, revision, accepting, closed, tasks, holds)
    }

    ghost predicate Valid()
      reads this
    {
      Inv(Value())
    }

    constructor (reviews: map<string, Review>, owner: string)
      requires Initial(State(reviews, owner, {owner}, 0, true, false, map[], {}))
      ensures Valid() && Initial(Value()) && this.reviews == reviews && this.owner == owner
    {
      this.reviews, this.owner, this.owners, this.revision, this.accepting, this.closed := reviews, owner, {owner}, 0, true, false;
      this.tasks, this.holds := map[], {};
      new;
      InitialIsGood(Value());
    }

    /** `transition` of one review. */
    method WriteReview(id: string, review: Review)
      requires id in reviews
      modifies this`reviews, this`revision
      ensures Value() == Write(old(Value()), id, review)
    {
      if review != reviews[id] {
        reviews := reviews[id := review];
        revision := revision + 1;
      }
    }

    method HandleReviewControlStatus(status: Status, ok: bool) returns (refused: bool)
      requires Valid() && Enabled(Value(), Receipt(status, ok))
      modifies this
      ensures Valid() && Value() == Step(old(Value()), Receipt(status, ok))
      ensures refused ==> Value() == old(Value())
    {
      StepKeeps(Value(), Receipt(status, ok));
      hide PauseFrom, Inv;
      refused := false;
      var review := reviews[status.reviewId];
      var pause := PauseFrom(review, status);
      if pause.None? {
        return;
      }
      var next := RecordPause(review, pause.value);
      if next.Err? {
        return true;
      }
      if ok {
        WriteReview(status.reviewId, next.value);
      }
    }

    method AcquireReviewHold(id: string, worker: Worker)
      requires Valid() && Enabled(Value(), StartHold(id, worker))
      modifies this
      ensures Valid() && Value() == Step(old(Value()), StartHold(id, worker))
    {
      StepKeeps(Value(), StartHold(id, worker));
      hide Inv;
      if !reviews[id].pause.freeze.HoldPending? {
        return;
      }
      match worker
      case Missing => tasks := tasks[id := Finishing(UserOverride, Some("SESSION_NOT_LOCAL"), None)];
      case Idle => tasks := tasks[id := Finishing(Stopped, None, None)];
      case Running => tasks := tasks[id := Acquiring(owner)];
    }

    method HoldAcquired(id: string, answer: Answer)
      requires Valid() && Enabled(Value(), HoldAnswered(id, answer))
      modifies this
      ensures Valid() && Value() == Step(old(Value()), HoldAnswered(id, answer))
    {
      StepKeeps(Value(), HoldAnswered(id, answer));
      hide Inv;
      match answer
      case NotRequired => tasks := tasks[id := Finishing(Stopped, None, None)];
      case Overridden => tasks := tasks[id := Finishing(UserOverride, Some("SESSION_BUSY"), None)];
      case Granted =>
        if !accepting || !reviews[id].pause.freeze.HoldPending? || id in holds {
          tasks := tasks - {id};
        } else {
          holds := holds + {id};
          tasks := tasks[id := Finishing(Held, None, Some(tasks[id].epoch))];
        }
    }

    /** `finishReviewFreeze`; a failed write gives the hold back. */
    method FinishReviewFreeze(id: string, ok: bool)
      requires Valid() && Enabled(Value(), FinishFreeze(id, ok))
      modifies this
      ensures Valid() && Value() == Step(old(Value()), FinishFreeze(id, ok))
    {
      StepKeeps(Value(), FinishFreeze(id, ok));
      hide Inv;
      var task := tasks[id];
      if ok {
        WriteReview(id, FinishPause(reviews[id], task.freeze, task.detail, task.owner));
      } else if task.freeze.Held? {
        holds := holds - {id};
      }
      tasks := tasks - {id};
    }

    method SubmitPostflightResult(id: string)
      requires Valid() && Enabled(Value(), Postflight(id))
      modifies this
      ensures Valid() && Value() == Step(old(Value()), Postflight(id))
    {
      StepKeeps(Value(), Postflight(id));
      hide Inv;
      WriteReview(id, CompletePostflight(reviews[id]));
    }

    method RecordReviewResolution(id: string, marker: Resolution) returns (refused: bool)
      requires Valid() && Enabled(Value(), Resolving(id, marker))
      modifies this
      ensures Valid() && Value() == Step(old(Value()), Resolving(id, marker))
      ensures refused ==> Value() == old(Value())
    {
      StepKeeps(Value(), Resolving(id, marker));
      hide Inv;
      var resolved := Resolve(reviews[id], owner, marker);
      refused := resolved.Err?;
      if resolved.Ok? {
        WriteReview(id, resolved.value);
      }
    }

    /** Shutdown gives every hold back; the durable freezes stay as they are. */
    method CloseHolds()
      requires Valid() && Enabled(Value(), Shutdown)
      modifies this
      ensures Valid() && Value() == Step(old(Value()), Shutdown)
    {
      StepKeeps(Value(), Shutdown);
      hide Inv;
      closed, holds := true, {};
    }

    /** A new owner starts with nothing in memory and recovers the durable reviews one by one. */
    method AdoptOwner(token: string)
      requires Valid() && Enabled(Value(), Restart(token))
      modifies this
      ensures Valid() && Value() == Step(old(Value()), Restart(token))
    {
      StepKeeps(Value(), Restart(token));
      RestartRecovers(Value(), token);
      hide Inv, Step, Enabled, Recover;
      owner, owners, accepting, closed, tasks, holds := token, owners + {token}, true, false, map[], {};
      var changed := RecoverReviews();
    }

    /** `recoverReviewFreezeProjection`: a transition only when some review was wedged. */
    method RecoverReviews() returns (changed: bool)
      modifies this`reviews, this`revision
      ensures Value() == Recover(old(Value()))
    {
      changed := false;
      var recovered := reviews;
      var left := reviews.Keys;
      while left != {}
        invariant left <= reviews.Keys && recovered.Keys == reviews.Keys && Value() == old(Value())
        invariant forall id :: id in reviews ==>
                    recovered[id] == if id in left then reviews[id] else Unwedge(reviews[id], owner)
        invariant changed <==> exists id :: id in reviews && id !in left && Wedged(reviews[id], owner)
        decreases |left|
      {
        var id :| id in left;
        if Wedged(reviews[id], owner) {
          changed := true;
          recovered := recovered[id := reviews[id].(pause := reviews[id].pause.(freeze := Stopped, holdOwner := None))];
        }
        left := left - {id};
      }
      if changed {
        assert recovered == map id | id in reviews :: Unwedge(reviews[id], owner);
        reviews := recovered;
        revision := revision + 1;
      }
    }
  }
}
