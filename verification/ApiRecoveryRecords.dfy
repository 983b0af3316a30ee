/**
 The durable vocabulary of API recovery (dsh-autolab/src/api-recovery.ts and
 api-recovery-store.ts): failures, continuations, the four record phases, and
 the comparisons the runtime bases every decision on.
 */
module ApiRecoveryRecords {
  import opened Wrappers

  /** A JavaScript number as it can arrive in `providerRetryAfterMs`. */
  datatype Num = NotANumber | PosInfinity | NegInfinity | Finite(ms: real)

  const MAX_SAFE_INTEGER := 0x1F_FFFF_FFFF_FFFF

  /** The provider-neutral failure codes the runtime names; `Other` is any other text. */
  datatype Code =
    | Aborted
    | EmptyResponse | RateLimit | Server | Timeout | Transport
    | Auth | Forbidden | InvalidArgs | InvalidCredential | InvalidModelContext
    | InvalidModelInfo | InvalidModelMaxTokens | InvalidModelReasoning
    | InvalidPreparedCall | InvalidRequest | MissingCredential | NoAdapter
    | Permission | PermissionDenied | Quota | ContextWindowExceeded
    | Unauthorized | UnsupportedReasoningEffort
    | Other(text: string)

  datatype Failure = Failure(
    message: string,
    code: Code,
    status: Option<int>,
    retryAfter: Option<Num>,
    requestId: Option<string>)

  datatype Disposition = Automatic | ForOperator | Unknown | Ignore

  function Classify(failure: Failure): Disposition {
    match failure.code
    case Aborted => Ignore
    case EmptyResponse | RateLimit | Server | Timeout | Transport => Automatic
    case Other(_) => Unknown
    case _ => ForOperator
  }

  const MECHANICAL := {EmptyResponse, RateLimit, Server, Timeout, Transport}

  const FOR_OPERATOR := {
    Auth, Forbidden, InvalidArgs, InvalidCredential, InvalidModelContext, InvalidModelInfo, InvalidModelMaxTokens,
    InvalidModelReasoning, InvalidPreparedCall, InvalidRequest, MissingCredential, NoAdapter, Permission, PermissionDenied,
    Quota, ContextWindowExceeded, Unauthorized, UnsupportedReasoningEffort}

  /**
   The code alone decides: the two tables are recovered mechanically or left to
   the operator, an abort is nobody's failure, and what no table names is unknown.
   */
  lemma CodeTable(failure: Failure)
    ensures Classify(failure).Automatic? <==> failure.code in MECHANICAL
    ensures Classify(failure).ForOperator? <==> failure.code in FOR_OPERATOR
    ensures Classify(failure).Ignore? <==> failure.code == Aborted
    ensures Classify(failure).Unknown? <==> failure.code.Other?
  {
  }

  /** The provider's Retry-After when it is a finite positive number, else the configured delay. */
  function RetryDelay(failure: Failure, fallback: real): (delay: real)
    ensures failure.retryAfter.Some? && failure.retryAfter.value.Finite? && failure.retryAfter.value.ms > 0.0
            ==> delay == failure.retryAfter.value.ms
    ensures !(failure.retryAfter.Some? && failure.retryAfter.value.Finite? && failure.retryAfter.value.ms > 0.0)
            ==> delay == fallback
  {
    match failure.retryAfter
    case Some(Finite(ms)) => if ms > 0.0 then ms else fallback
    case _ => fallback
  }

  datatype Continuation =
    | GoalContinuation(goalId: nat, revision: nat, objectiveHash: string)
    | ReviewContinuation(reviewId: string, anchorHash: string)

  datatype Assignment = Assignment(
    labId: string,
    roleId: string,
    sessionId: string,
    assignmentId: string,
    packetHash: string,
    continuation: Continuation)

  /** Fields every phase shares. `fallbackUsed` is the source's `unknownFallbackUsed`. */
  datatype Base = Base(
    assignment: Assignment,
    turn: nat,
    step: nat,
    provider: string,
    failure: Failure,
    recordedAt: nat,
    fallbackUsed: bool)

  datatype Record =
    | Awaiting(base: Base)
    | Scheduled(base: Base, terminalSeq: nat, dueAt: real)
    | Recovering(base: Base, terminalSeq: nat, resumed: Continuation, resumedAt: nat)
    | Operator(base: Base, terminalSeq: nat)

  // ---- Comparisons ----------------------------------------------------

  /** `===` on numbers: every value equals itself except NaN. */
  predicate StrictlyEqual(left: Option<Num>, right: Option<Num>) {
    left == right && left != Some(NotANumber)
  }

  predicate SameFailure(left: Failure, right: Failure)
    ensures SameFailure(left, right) <==> left == right && right.retryAfter != Some(NotANumber)
  {
    && left.message == right.message
    && left.code == right.code
    && left.status == right.status
    && StrictlyEqual(left.retryAfter, right.retryAfter)
    && left.requestId == right.requestId
  }

  predicate SameContinuation(left: Continuation, right: Continuation)
    ensures SameContinuation(left, right) <==> left == right
  {
    match left
    case GoalContinuation(id, revision, hash) =>
      right.GoalContinuation? && id == right.goalId && revision == right.revision
      && hash == right.objectiveHash
    case ReviewContinuation(id, anchor) =>
      right.ReviewContinuation? && id == right.reviewId && anchor == right.anchorHash
  }

  predicate SameAssignmentIdentity(assignment: Assignment, record: Record) {
    var own := record.base.assignment;
    && assignment.labId == own.labId
    && assignment.roleId == own.roleId
    && assignment.sessionId == own.sessionId
    && assignment.assignmentId == own.assignmentId
    && assignment.packetHash == own.packetHash
  }

  predicate SameAssignment(assignment: Assignment, record: Record, expected: Continuation) {
    SameAssignmentIdentity(assignment, record)
    && SameContinuation(assignment.continuation, expected)
  }

  predicate SamePhase(left: Record, right: Record) {
    match left
    case Awaiting(_) => right.Awaiting?
    case Scheduled(_, _, _) => right.Scheduled?
    case Recovering(_, _, _, _) => right.Recovering?
    case Operator(_, _) => right.Operator?
  }

  predicate SameBase(left: Record, right: Record) {
    && SameAssignmentIdentity(left.base.assignment, right)
    && SameContinuation(left.base.assignment.continuation, right.base.assignment.continuation)
    && left.base.turn == right.base.turn
    && left.base.step == right.base.step
    && left.base.provider == right.base.provider
    && left.base.recordedAt == right.base.recordedAt
    && left.base.fallbackUsed == right.base.fallbackUsed
    && SameFailure(left.base.failure, right.base.failure)
  }

  /** The runtime's compare-before-act test over all four phases. */
  predicate SameRecord(left: Option<Record>, right: Record)
    ensures SameRecord(left, right) <==> left == Some(right) && right.base.failure.retryAfter != Some(NotANumber)
  {
    if left.None? || !SamePhase(left.value, right) || !SameBase(left.value, right) then
      false
    else if left.value.Awaiting? || right.Awaiting? then
      SamePhase(left.value, right)
    else if left.value.terminalSeq != right.terminalSeq then
      false
    else if left.value.Operator? || right.Operator? then
      SamePhase(left.value, right)
    else if left.value.Scheduled? || right.Scheduled? then
      left.value.Scheduled? && right.Scheduled? && left.value.dueAt == right.dueAt
    else
      SameContinuation(left.value.resumed, right.resumed) && left.value.resumedAt == right.resumedAt
  }

  // ---- The strict durable schema --------------------------------------

  datatype Phase = AwaitingTerminal | ScheduledPhase | RecoveringPhase | OperatorPhase

  /** A record as a plain object: which optional fields are present matters to a strict schema. */
  datatype Raw = Raw(
    base: Base,
    phase: Phase,
    terminalSeq: Option<nat>,
    dueAt: Option<real>,
    resumed: Option<Continuation>,
    resumedAt: Option<nat>)

  function ToRaw(record: Record): Raw {
    match record
    case Awaiting(base) => Raw(base, AwaitingTerminal, None, None, None, None)
    case Scheduled(base, seq', due) => Raw(base, ScheduledPhase, Some(seq'), Some(due), None, None)
    case Recovering(base, seq', resumed, at) =>
      Raw(base, RecoveringPhase, Some(seq'), None, Some(resumed), Some(at))
    case Operator(base, seq') => Raw(base, OperatorPhase, Some(seq'), None, None, None)
  }

  /** `.int()` and `.nonnegative()`: a whole number in the safe range. */
  predicate SafeWhole(x: real) {
    0.0 <= x <= MAX_SAFE_INTEGER as real && x.Floor as real == x
  }

  predicate ContinuationAccepted(continuation: Continuation) {
    match continuation
    case GoalContinuation(_, revision, _) => 0 < revision <= MAX_SAFE_INTEGER
    case ReviewContinuation(reviewId, _) => reviewId != ""
  }

  /** `failureSchema`: a Retry-After must be a finite positive number. */
  predicate FailureAccepted(failure: Failure) {
    && failure.code != Other("")
    && (failure.status.Some? ==> -MAX_SAFE_INTEGER <= failure.status.value <= MAX_SAFE_INTEGER)
    && (failure.retryAfter.Some? ==> failure.retryAfter.value.Finite? && failure.retryAfter.value.ms > 0.0)
    && failure.requestId != Some("")
  }

  /** Field validity the strict schema shares between the phases. */
  predicate BaseAccepted(base: Base) {
    && base.assignment.labId != "" && base.assignment.roleId != ""
    && base.assignment.sessionId != "" && base.assignment.assignmentId != ""
    && ContinuationAccepted(base.assignment.continuation)
    && 0 < base.turn <= MAX_SAFE_INTEGER && 0 < base.step <= MAX_SAFE_INTEGER && base.provider != ""
    && FailureAccepted(base.failure) && base.recordedAt <= MAX_SAFE_INTEGER
  }

  /** `z.discriminatedUnion` of four `.strict()` objects: a missing or an extra field is refused. */
  predicate SchemaAccepts(raw: Raw) {
    && BaseAccepted(raw.base)
    && (raw.terminalSeq.Some? ==> raw.terminalSeq.value <= MAX_SAFE_INTEGER)
    && match raw.phase
       case AwaitingTerminal =>
         raw.terminalSeq.None? && raw.dueAt.None? && raw.resumed.None? && raw.resumedAt.None?
       case ScheduledPhase =>
         raw.terminalSeq.Some? && raw.dueAt.Some? && raw.resumed.None? && raw.resumedAt.None?
         && SafeWhole(raw.dueAt.value)
       case RecoveringPhase =>
         raw.terminalSeq.Some? && raw.dueAt.None? && raw.resumed.Some? && raw.resumedAt.Some?
         && ContinuationAccepted(raw.resumed.value) && raw.resumedAt.value <= MAX_SAFE_INTEGER
       case OperatorPhase =>
         raw.terminalSeq.Some? && raw.dueAt.None? && raw.resumed.None? && raw.resumedAt.None?
  }

  /** The durable table takes the record: `put` and `remove` parse it before anything is queued. */
  predicate Accepts(record: Record)
    ensures Accepts(record) ==> BaseAccepted(record.base)
  {
    SchemaAccepts(ToRaw(record))
  }

  /** A deadline the schema takes is a safe non-negative integer. */
  lemma SafeWholeExactly(x: real)
    ensures SafeWhole(x) <==> x == x.Floor as real && 0 <= x.Floor < 0x20_0000_0000_0000
  {
  }

  /** The failures the schema takes: a code, a safe status, a finite positive Retry-After, and a request id if any. */
  lemma FailureExactly(failure: Failure)
    ensures FailureAccepted(failure) <==>
              && failure.code != Other("") && failure.requestId != Some("")
              && (match failure.status
                  case None => true
                  case Some(status) => -0x20_0000_0000_0000 < status < 0x20_0000_0000_0000)
              && match failure.retryAfter
                 case None => true
                 case Some(Finite(ms)) => ms > 0.0
                 case Some(_) => false
  {
  }

  /** The fields every phase shares: no empty name, positive turn and step, safe numbers, and a real target. */
  lemma BaseExactly(base: Base)
    ensures var a := base.assignment;
            BaseAccepted(base) <==>
              && "" !in {a.labId, a.roleId, a.sessionId, a.assignmentId, base.provider}
              && (match a.continuation
                  case GoalContinuation(_, revision, _) => 1 <= revision < 0x20_0000_0000_0000
                  case ReviewContinuation(id, _) => id != "")
              && 1 <= base.turn < 0x20_0000_0000_0000 && 1 <= base.step < 0x20_0000_0000_0000
              && FailureAccepted(base.failure) && base.recordedAt < 0x20_0000_0000_0000
  {
  }

  /** A record with its failure can be a candidate whenever it can be any later phase. */
  lemma AcceptedInAnyPhase(record: Record)
    ensures Accepts(record) ==> Accepts(Awaiting(record.base))
    ensures Accepts(Awaiting(record.base)) <==> BaseAccepted(record.base)
    ensures record.Scheduled? ==>
              (Accepts(record) <==>
                 BaseAccepted(record.base) && record.terminalSeq <= MAX_SAFE_INTEGER && SafeWhole(record.dueAt))
    ensures record.Operator? ==> (Accepts(record) <==> BaseAccepted(record.base) && record.terminalSeq <= MAX_SAFE_INTEGER)
  {
  }

  /** What `apiRecoveryRecordSchema.parse` returns; None stands for the exception. */
  function Parse(raw: Raw): Option<Record> {
    if !SchemaAccepts(raw) then None
    else match raw.phase
      case AwaitingTerminal => Some(Awaiting(raw.base))
      case ScheduledPhase => Some(Scheduled(raw.base, raw.terminalSeq.value, raw.dueAt.value))
      case RecoveringPhase => Some(Recovering(raw.base, raw.terminalSeq.value, raw.resumed.value, raw.resumedAt.value))
      case OperatorPhase => Some(Operator(raw.base, raw.terminalSeq.value))
  }

  /** Parsing undoes the plain-object form, and accepts nothing else. */
  lemma ParseInvertsToRaw(raw: Raw, record: Record)
    ensures Parse(raw) == Some(record) <==> SchemaAccepts(raw) && ToRaw(record) == raw
  {
  }

  /** `{ ...current, phase: 'operator', terminalSeq, recordedAt }` as the runtime spreads it. */
  function PromotionRaw(current: Record, terminalSeq: nat, now: nat): Raw {
    ToRaw(current).(base := current.base.(recordedAt := now), phase := OperatorPhase,
                    terminalSeq := Some(terminalSeq))
  }

  /** What the promotion is meant to store: the shared fields and the terminal position. */
  function PromotionRecord(current: Record, terminalSeq: nat, now: nat): Record {
    Operator(current.base.(recordedAt := now), terminalSeq)
  }

  /**
   The durable table takes the object the promotion spreads exactly when the
   spread left no phase field behind, which fails for both phases the runtime
   ever promotes, while it takes the intended record of everything it stored.
   */
  lemma PromotionRefusedByStrictSchema(current: Record, terminalSeq: nat, now: nat)
    requires terminalSeq <= MAX_SAFE_INTEGER && now <= MAX_SAFE_INTEGER
    ensures SchemaAccepts(PromotionRaw(current, terminalSeq, now))
            <==> BaseAccepted(current.base.(recordedAt := now)) && (current.Awaiting? || current.Operator?)
    ensures Accepts(current) ==> Accepts(PromotionRecord(current, terminalSeq, now))
    ensures current.Scheduled? || current.Recovering?
            ==> PromotionRaw(current, terminalSeq, now) != ToRaw(PromotionRecord(current, terminalSeq, now))
  {
  }

  /** The plain-object form is injective, so the canonical-text comparison of the store is equality. */
  lemma RawIsInjective(left: Record, right: Record)
    ensures ToRaw(left) == ToRaw(right) <==> left == right
  {
  }

  /**
   `sameRecord` decides equality on everything the durable table can hold: two
   accepted records are the same exactly when they are equal.  A NaN
   Retry-After, which the schema refuses, is the one value where the test is
   not even reflexive.
   */
  lemma SameRecordDecidesEquality(left: Record, right: Record)
    ensures Accepts(right) ==> (SameRecord(Some(left), right) <==> left == right)
    ensures SameRecord(Some(right), right) <==> right.base.failure.retryAfter != Some(NotANumber)
  {
  }
}
