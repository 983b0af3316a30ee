/**
 Freezing a Lane candidate (dsh-autolab/src/candidate.ts): one write-once
 capture intent and one write-once receipt per Assignment, a Git commit that is
 a function of the intent, and a ref.  Any number of calls may interleave, stop
 or be replayed while the worktree, the refs and the object store change.

 Only `freezeLaneCandidate` writes the Assignment's two files.
 */
module Candidate {
  import opened Wrappers

  type Sha = int

  datatype Reference = Reference(path: string, hash: int)

  /** The fields a call must share with the frozen intent. */
  datatype Identity = Identity(
    labId: string,
    sourceRevision: int,
    manifestHash: int,
    runtimeRevision: int,
    laneId: string,
    candidateId: string,
    coderRoleId: string,
    coderSessionId: string,
    assignmentId: string,
    assignmentHash: int,
    worktreeReceiptHash: int,
    worktreePath: string,
    baseSha: Sha,
    sourceReport: Option<Reference>)

  datatype Input = Input(identity: Identity, now: Option<int>)

  datatype Body = Body(identity: Identity, sourceHead: Sha, tree: Sha, capturedAt: int)

  datatype Intent = Intent(body: Body, captureHash: int)

  datatype Receipt = Receipt(body: Body, captureHash: int, gitRef: int, candidateSha: Sha, receiptHash: int)

  datatype Code =
    | InvalidInput | WorktreeMismatch | CaptureConflict | GitFailed | ReceiptCorrupt | IoFailed

  /** The digests, ref names and commit ids: any functions of what they are computed from. */
  datatype Hashes = Hashes(
    capture: Body -> int,
    receipt: (Body, int, int, Sha) -> int,
    ref: (string, string) -> int,
    commit: (Sha, Sha, int, int) -> Sha)

  const MAX_SAFE_INTEGER := 0x1F_FFFF_FFFF_FFFF

  predicate ValidInput(input: Input) {
    var i := input.identity;
    && i.labId != "" && i.laneId != "" && i.candidateId != "" && i.coderRoleId != "" && i.coderSessionId != ""
    && i.assignmentId != "" && 0 < i.sourceRevision <= MAX_SAFE_INTEGER && 0 <= i.runtimeRevision <= MAX_SAFE_INTEGER
    && (input.now.Some? ==> 0 <= input.now.value <= MAX_SAFE_INTEGER)
  }

  function NewIntent(h: Hashes, input: Input, head: Sha, tree: Sha, clock: int): Intent {
    var body := Body(input.identity, head, tree, if input.now.Some? then input.now.value else clock);
    Intent(body, h.capture(body))
  }

  /** `createCandidateCommit`: tree, parent, message and date fix the commit. */
  function CommitOf(h: Hashes, intent: Intent): Sha {
    h.commit(intent.body.tree, intent.body.identity.baseSha, intent.captureHash, intent.body.capturedAt)
  }

  function RefOf(h: Hashes, identity: Identity): int {
    h.ref(identity.labId, identity.assignmentId)
  }

  /** The receipt an intent leads to. */
  function ReceiptOf(h: Hashes, intent: Intent): Receipt {
    var gitRef, sha := RefOf(h, intent.body.identity), CommitOf(h, intent);
    Receipt(intent.body, intent.captureHash, gitRef, sha, h.receipt(intent.body, intent.captureHash, gitRef, sha))
  }

  /** The intent names what was captured: identity, head, tree and the given or current time. */
  predicate IsIntentOf(h: Hashes, intent: Intent, input: Input, head: Sha, tree: Sha, clock: int) {
    && intent.body.identity == input.identity && intent.body.sourceHead == head && intent.body.tree == tree
    && (input.now == Some(intent.body.capturedAt) || (input.now.None? && intent.body.capturedAt == clock))
    && intent.captureHash == h.capture(intent.body)
  }

  /**
   The receipt names the intent's commit: its tree, on the base commit, under the
   capture hash as message and the capture time as date; and the ref of its Lab
   and Assignment.
   */
  predicate IsReceiptOf(h: Hashes, receipt: Receipt, intent: Intent) {
    && receipt.body == intent.body && receipt.captureHash == intent.captureHash
    && receipt.candidateSha
       == h.commit(intent.body.tree, intent.body.identity.baseSha, intent.captureHash, intent.body.capturedAt)
    && receipt.gitRef == h.ref(intent.body.identity.labId, intent.body.identity.assignmentId)
    && receipt.receiptHash == h.receipt(receipt.body, receipt.captureHash, receipt.gitRef, receipt.candidateSha)
  }

  /** Both are unique, and what capturing makes. */
  lemma CaptureFields(h: Hashes, input: Input, head: Sha, tree: Sha, clock: int, intent: Intent, receipt: Receipt)
    ensures IsIntentOf(h, intent, input, head, tree, clock) <==> intent == NewIntent(h, input, head, tree, clock)
    ensures IsReceiptOf(h, receipt, intent) <==> receipt == ReceiptOf(h, intent)
  {
  }

  // ---- The machine -------------------------------------------------------------

  datatype Lane = Lane(labId: string, worktreePath: string, receiptHash: int, baseSha: Sha, head: Sha)

  /** What the environment answers at one step: the Lane, the worktree's tree, the clock, the report file. */
  datatype Answers = Answers(lane: Lane, tree: Sha, clock: int, reportIntact: bool)

  datatype Pc =
    | Begun
    | Verifying(receipt: Receipt)
    | Inspecting
    | Inspected(head: Sha)
    | Captured(intent: Intent)
    | IntentWritten(intent: Intent)
    | Committing(intent: Intent)
    | Referring(intent: Intent, sha: Sha)
    | Updating(intent: Intent, sha: Sha)
    | Receipting(receipt: Receipt)
    | ReceiptWritten(receipt: Receipt)
    | Returned(result: Result<Receipt, Code>)

  datatype Call = Call(input: Input, pc: Pc)

  /** The Assignment's two files, the refs, the trees of the stored commits, and every call ever made. */
  datatype State = State(
    intent: Option<Intent>,
    receipt: Option<Receipt>,
    refs: map<int, Sha>,
    trees: map<Sha, Sha>,
    calls: map<nat, Call>)

  datatype Action =
    | Invoke(id: nat, input: Input)
    | Advance(id: nat, answers: Answers)
    | Abort(id: nat)
    | Crash
    | Environment(refs: map<int, Sha>, trees: map<Sha, Sha>)

  predicate Enabled(s: State, a: Action) {
    match a
    case Invoke(id, _) => id !in s.calls
    case Advance(id, _) => id in s.calls && !s.calls[id].pc.Returned?
    case Abort(id) => id in s.calls && !s.calls[id].pc.Returned?
    case Crash => true
    case Environment(_, _) => true
  }

  predicate LaneFits(identity: Identity, lane: Lane) {
    && lane.labId == identity.labId && lane.worktreePath == identity.worktreePath
    && lane.receiptHash == identity.worktreeReceiptHash && lane.baseSha == identity.baseSha
  }

  /** The Lane of the call: its Lab, worktree, worktree receipt and base commit; the head may have moved. */
  predicate IsLaneOf(identity: Identity, lane: Lane) {
    lane == Lane(identity.labId, identity.worktreePath, identity.worktreeReceiptHash, identity.baseSha, lane.head)
  }

  lemma LaneFitsExactly(identity: Identity, lane: Lane)
    ensures LaneFits(identity, lane) <==> IsLaneOf(identity, lane)
  {
  }

  /** The input a call refuses before it looks at any file: an empty name, or a number out of range. */
  predicate Nameless(input: Input) {
    var i := input.identity;
    "" in {i.labId, i.laneId, i.candidateId, i.coderRoleId, i.coderSessionId, i.assignmentId}
  }

  predicate OutOfRange(input: Input) {
    var i := input.identity;
    || i.sourceRevision < 1 || i.sourceRevision > MAX_SAFE_INTEGER
    || i.runtimeRevision < 0 || i.runtimeRevision > MAX_SAFE_INTEGER
    || (input.now.Some? && (input.now.value < 0 || input.now.value > MAX_SAFE_INTEGER))
  }

  /** A call begins exactly with a named input in range, and is refused as invalid otherwise. */
  lemma InvalidInputIsRefused(h: Hashes, s: State, id: nat, input: Input)
    requires id !in s.calls
    ensures var pc := if Nameless(input) || OutOfRange(input) then Returned(Err(InvalidInput)) else Begun;
            Step(h, s, Invoke(id, input)) == s.(calls := s.calls[id := Call(input, pc)])
  {
  }

  /** A stored receipt is taken exactly for its own identity and with both of its hashes right. */
  lemma ReceiptIsChecked(h: Hashes, receipt: Receipt, identity: Identity)
    ensures var sealed := receipt.receiptHash
                          == h.receipt(receipt.body, receipt.captureHash, receipt.gitRef, receipt.candidateSha);
            CheckReceipt(h, receipt, identity)
            == if sealed && receipt.body.identity == identity && receipt.captureHash == h.capture(receipt.body) then None
               else if sealed && receipt.body.identity != identity then Some(CaptureConflict)
               else Some(ReceiptCorrupt)
  {
  }

  /** `assertReceiptInput` on a stored receipt. */
  function CheckReceipt(h: Hashes, receipt: Receipt, identity: Identity): Option<Code> {
    if receipt.receiptHash != h.receipt(receipt.body, receipt.captureHash, receipt.gitRef, receipt.candidateSha) then
      Some(ReceiptCorrupt)
    else if receipt.body.identity != identity then Some(CaptureConflict)
    else if receipt.captureHash != h.capture(receipt.body) then Some(ReceiptCorrupt)
    else None
  }

  /** `verifyCandidateObjects` */
  function VerifyObjects(refs: map<int, Sha>, trees: map<Sha, Sha>, receipt: Receipt, reportIntact: bool): Option<Code> {
    if receipt.gitRef !in refs then Some(GitFailed)
    else if refs[receipt.gitRef] != receipt.candidateSha then Some(ReceiptCorrupt)
    else if receipt.candidateSha !in trees then Some(GitFailed)
    else if trees[receipt.candidateSha] != receipt.body.tree then Some(ReceiptCorrupt)
    else if receipt.body.identity.sourceReport.Some? && !reportIntact then Some(ReceiptCorrupt)
    else None
  }

  /** The ref names the receipt's commit, the commit holds its tree, and a named report is intact. */
  predicate StillThere(refs: map<int, Sha>, trees: map<Sha, Sha>, receipt: Receipt, reportIntact: bool) {
    && (receipt.gitRef, receipt.candidateSha) in refs.Items
    && (receipt.candidateSha, receipt.body.tree) in trees.Items
    && (receipt.body.identity.sourceReport.Some? ==> reportIntact)
  }

  /** What Git cannot even resolve: a missing ref, or the commit it rightly names. */
  predicate Unresolved(refs: map<int, Sha>, trees: map<Sha, Sha>, receipt: Receipt) {
    receipt.gitRef !in refs
    || ((receipt.gitRef, receipt.candidateSha) in refs.Items && receipt.candidateSha !in trees)
  }

  /** The answer of a replay, in refs, trees and report. */
  function ReplayAnswer(refs: map<int, Sha>, trees: map<Sha, Sha>, receipt: Receipt, reportIntact: bool)
    : Result<Receipt, Code>
  {
    if StillThere(refs, trees, receipt, reportIntact) then Ok(receipt)
    else if Unresolved(refs, trees, receipt) then Err(GitFailed)
    else Err(ReceiptCorrupt)
  }

  lemma VerifiesExactly(refs: map<int, Sha>, trees: map<Sha, Sha>, receipt: Receipt, reportIntact: bool)
    ensures ReplayAnswer(refs, trees, receipt, reportIntact)
            == match VerifyObjects(refs, trees, receipt, reportIntact)
               case None => Ok(receipt)
               case Some(code) => Err(code)
  {
  }

  /** The call's next position, given what it reads now. */
  function Next(h: Hashes, s: State, call: Call, w: Answers): Pc {
    var identity := call.input.identity;
    match call.pc
    case Begun =>
      (match s.receipt
       case None => Inspecting
       case Some(r) =>
         match CheckReceipt(h, r, identity)
         case Some(code) => Returned(Err(code))
         case None => Verifying(r))
    case Verifying(r) =>
      (match VerifyObjects(s.refs, s.trees, r, w.reportIntact)
       case Some(code) => Returned(Err(code))
       case None => Returned(Ok(r)))
    case Inspecting =>
      if !LaneFits(identity, w.lane) then Returned(Err(WorktreeMismatch))
      else if identity.sourceReport.Some? && !w.reportIntact then Returned(Err(ReceiptCorrupt))
      else Inspected(w.lane.head)
    case Inspected(head) =>
      (match s.intent
       case None => Captured(NewIntent(h, call.input, head, w.tree, w.clock))
       case Some(i) =>
         if i.captureHash != h.capture(i.body) then Returned(Err(ReceiptCorrupt))
         else if i.body.identity != identity then Returned(Err(CaptureConflict))
         else Committing(i))
    case Captured(i) => IntentWritten(i)
    case IntentWritten(i) => if s.intent == Some(i) then Committing(i) else Returned(Err(CaptureConflict))
    case Committing(i) => Referring(i, CommitOf(h, i))
    case Referring(i, sha) =>
      var name := RefOf(h, i.body.identity);
      if name !in s.refs then Updating(i, sha)
      else if s.refs[name] == sha then Receipting(ReceiptOf(h, i))
      else Returned(Err(CaptureConflict))
    case Updating(i, sha) =>
      var name := RefOf(h, i.body.identity);
      if name !in s.refs || s.refs[name] == sha then Receipting(ReceiptOf(h, i)) else Returned(Err(GitFailed))
    case Receipting(r) => ReceiptWritten(r)
    case ReceiptWritten(r) => if s.receipt == Some(r) then Returned(Ok(r)) else Returned(Err(CaptureConflict))
    case Returned(result) => Returned(result)
  }

  /** What the call writes: files only where there is none, commits and an absent ref. */
  function Written(h: Hashes, s: State, pc: Pc): State {
    match pc
    case Captured(i) => if s.intent.None? then s.(intent := Some(i)) else s
    case Receipting(r) => if s.receipt.None? then s.(receipt := Some(r)) else s
    case Committing(i) =>
      if CommitOf(h, i) in s.trees then s else s.(trees := s.trees[CommitOf(h, i) := i.body.tree])
    case Updating(i, sha) =>
      var name := RefOf(h, i.body.identity);
      if name in s.refs then s else s.(refs := s.refs[name := sha])
    case _ => s
  }

  function Moved(s: State, id: nat, pc: Pc): State
    requires id in s.calls
  {
    s.(calls := s.calls[id := s.calls[id].(pc := pc)])
  }

  function Step(h: Hashes, s: State, a: Action): State
    requires Enabled(s, a)
  {
    match a
    case Invoke(id, input) =>
      s.(calls := s.calls[id := Call(input, if ValidInput(input) then Begun else Returned(Err(InvalidInput)))])
    case Advance(id, w) =>
      Moved(s, id, Next(h, s, s.calls[id], w)).(intent := Written(h, s, s.calls[id].pc).intent,
                                               receipt := Written(h, s, s.calls[id].pc).receipt,
                                               refs := Written(h, s, s.calls[id].pc).refs,
                                               trees := Written(h, s, s.calls[id].pc).trees)
    case Abort(id) => Moved(s, id, Returned(Err(IoFailed)))
    case Crash =>
      s.(calls := map id | id in s.calls ::
                    if s.calls[id].pc.Returned? then s.calls[id] else s.calls[id].(pc := Returned(Err(IoFailed))))
    case Environment(refs, trees) => s.(refs := refs, trees := trees)
  }

  predicate Initial(s: State) { s.intent.None? && s.receipt.None? && s.calls == map[] }

  predicate ValidRun(h: Hashes, s: State, run: seq<Action>)
    decreases |run|
  {
    run == [] || (Enabled(s, run[0]) && ValidRun(h, Step(h, s, run[0]), run[1..]))
  }

  function After(h: Hashes, s: State, run: seq<Action>): State
    requires ValidRun(h, s, run)
    decreases |run|
  {
    if run == [] then s else After(h, Step(h, s, run[0]), run[1..])
  }

  // ---- The invariant ----------------------------------------------------------------

  /** `i` is the frozen intent and the call's own. */
  predicate Adopted(h: Hashes, s: State, call: Call, i: Intent) {
    s.intent == Some(i) && i.body.identity == call.input.identity && i.captureHash == h.capture(i.body)
  }

  predicate CallOk(h: Hashes, s: State, call: Call) {
    match call.pc
    case Verifying(r) => s.receipt == Some(r) && r.body.identity == call.input.identity
    case Captured(i) => i.body.identity == call.input.identity && i.captureHash == h.capture(i.body)
    case IntentWritten(i) =>
      s.intent.Some? && i.body.identity == call.input.identity && i.captureHash == h.capture(i.body)
    case Committing(i) => Adopted(h, s, call, i)
    case Referring(i, sha) => Adopted(h, s, call, i) && sha == CommitOf(h, i)
    case Updating(i, sha) => Adopted(h, s, call, i) && sha == CommitOf(h, i)
    case Receipting(r) => s.intent.Some? && Adopted(h, s, call, s.intent.value) && r == ReceiptOf(h, s.intent.value)
    case ReceiptWritten(r) =>
      s.intent.Some? && Adopted(h, s, call, s.intent.value) && r == ReceiptOf(h, s.intent.value) && s.receipt.Some?
    case Returned(Ok(r)) => s.receipt == Some(r) && r.body.identity == call.input.identity
    case _ => true
  }

  predicate Inv(h: Hashes, s: State) {
    && (s.intent.Some? ==> s.intent.value.captureHash == h.capture(s.intent.value.body))
    && (s.receipt.Some? ==> s.intent.Some? && s.receipt.value == ReceiptOf(h, s.intent.value))
    && forall id :: id in s.calls ==> CallOk(h, s, s.calls[id])
  }

  /** Neither file, once written, is ever written again. */
  lemma FilesAreWriteOnce(h: Hashes, s: State, a: Action)
    requires Enabled(s, a)
    ensures s.intent.Some? ==> Step(h, s, a).intent == s.intent
    ensures s.receipt.Some? ==> Step(h, s, a).receipt == s.receipt
  {
  }

  /** Growing files keep what every other call knows. */
  lemma CallOkSurvives(h: Hashes, s: State, t: State, call: Call)
    requires CallOk(h, s, call)
    requires s.intent.Some? ==> t.intent == s.intent
    requires s.receipt.Some? ==> t.receipt == s.receipt
    ensures CallOk(h, t, call)
  {
  }

  lemma AdvanceKeepsCall(h: Hashes, s: State, id: nat, w: Answers)
    requires Inv(h, s) && Enabled(s, Advance(id, w))
    ensures var t := Step(h, s, Advance(id, w));
            && CallOk(h, t, t.calls[id])
            && (t.intent.Some? ==> t.intent.value.captureHash == h.capture(t.intent.value.body))
            && (t.receipt.Some? ==> t.intent.Some? && t.receipt.value == ReceiptOf(h, t.intent.value))
  {
    assert CallOk(h, s, s.calls[id]);
  }

  lemma StepKeeps(h: Hashes, s: State, a: Action)
    requires Inv(h, s) && Enabled(s, a)
    ensures Inv(h, Step(h, s, a))
  {
    hide CallOk, ReceiptOf;
    var t := Step(h, s, a);
    FilesAreWriteOnce(h, s, a);
    if a.Advance? {
      AdvanceKeepsCall(h, s, a.id, a.answers);
    }
    forall id | id in t.calls ensures CallOk(h, t, t.calls[id]) {
      if id in s.calls && t.calls[id] == s.calls[id] {
        CallOkSurvives(h, s, t, s.calls[id]);
      } else if !a.Advance? {
        NewCallsAreOk(h, t, t.calls[id]);
      }
    }
  }

  lemma NewCallsAreOk(h: Hashes, s: State, call: Call)
    requires call.pc.Begun? || (call.pc.Returned? && call.pc.result.Err?)
    ensures CallOk(h, s, call)
  {
  }

  lemma {:induction false} RunKeeps(h: Hashes, s: State, run: seq<Action>)
    requires Inv(h, s) && ValidRun(h, s, run)
    ensures Inv(h, After(h, s, run))
    ensures s.intent.Some? ==> After(h, s, run).intent == s.intent
    ensures s.receipt.Some? ==> After(h, s, run).receipt == s.receipt
    decreases |run|
  {
    hide Step, Enabled, Inv;
    if run != [] {
      StepKeeps(h, s, run[0]);
      FilesAreWriteOnce(h, s, run[0]);
      RunKeeps(h, Step(h, s, run[0]), run[1..]);
    }
  }

  // ---- The theorems -----------------------------------------------------------------

  predicate Succeeded(s: State, id: nat) {
    id in s.calls && s.calls[id].pc.Returned? && s.calls[id].pc.result.Ok?
  }

  /**
   One candidate per Assignment: over any interleaving of calls, crashes,
   replays, worktree edits and ref or object changes, every successful call
   returned the same receipt, the one the first frozen intent leads to, and
   had that intent's identity.
   */
  lemma UniqueCandidate(h: Hashes, s: State, run: seq<Action>, left: nat, right: nat)
    requires Initial(s) && ValidRun(h, s, run)
    requires Succeeded(After(h, s, run), left) && Succeeded(After(h, s, run), right)
    ensures var t := After(h, s, run);
            && t.intent.Some? && t.receipt == Some(ReceiptOf(h, t.intent.value))
            && t.calls[left].pc.result == t.calls[right].pc.result == Ok(t.receipt.value)
            && t.calls[left].input.identity == t.intent.value.body.identity == t.calls[right].input.identity
  {
    RunKeeps(h, s, run);
    var t := After(h, s, run);
    assert CallOk(h, t, t.calls[left]) && CallOk(h, t, t.calls[right]);
  }

  /** Whatever happens after the intent is frozen, later trees included, leaves intent and receipt as they are. */
  lemma FirstIntentDecides(h: Hashes, s: State, before: seq<Action>, after: seq<Action>, id: nat)
    requires Initial(s) && ValidRun(h, s, before) && After(h, s, before).intent.Some?
    requires ValidRun(h, After(h, s, before), after)
    requires Succeeded(After(h, After(h, s, before), after), id)
    ensures After(h, After(h, s, before), after).calls[id].pc.result
            == Ok(ReceiptOf(h, After(h, s, before).intent.value))
  {
    RunKeeps(h, s, before);
    var m := After(h, s, before);
    RunKeeps(h, m, after);
    var t := After(h, m, after);
    assert CallOk(h, t, t.calls[id]);
  }

  /** A call of another identity changes neither file nor ref nor object, and never succeeds. */
  lemma OtherIdentityIsInert(h: Hashes, s: State, run: seq<Action>, id: nat, w: Answers)
    requires Initial(s) && ValidRun(h, s, run) && Enabled(After(h, s, run), Advance(id, w))
    requires var t := After(h, s, run);
             t.intent.Some? && t.calls[id].input.identity != t.intent.value.body.identity
    ensures var t := After(h, s, run);
            var u := Step(h, t, Advance(id, w));
            && u == Moved(t, id, u.calls[id].pc)
            && !Succeeded(u, id)
  {
    RunKeeps(h, s, run);
    var t := After(h, s, run);
    assert CallOk(h, t, t.calls[id]);
  }

  /**
   A replay of a finished capture returns its receipt if and only if the ref
   still names its commit, the commit its tree, and a named report is intact;
   what Git cannot resolve is a Git failure, everything else a corrupt receipt.
   */
  lemma ReplayReturnsReceipt(h: Hashes, s: State, run: seq<Action>, id: nat, w: Answers)
    requires Initial(s) && ValidRun(h, s, run)
    requires var t := After(h, s, run);
             && t.receipt.Some? && id in t.calls && t.calls[id].pc.Begun?
             && t.calls[id].input.identity == t.receipt.value.body.identity
    ensures var t := After(h, s, run);
            var u := Step(h, t, Advance(id, w));
            Enabled(u, Advance(id, w))
            && Step(h, u, Advance(id, w)).calls[id].pc
               == Returned(ReplayAnswer(t.refs, t.trees, t.receipt.value, w.reportIntact))
            && (Succeeded(Step(h, u, Advance(id, w)), id) <==>
                  StillThere(t.refs, t.trees, t.receipt.value, w.reportIntact))
  {
    RunKeeps(h, s, run);
    var receipt := After(h, s, run).receipt.value;
    VerifiesExactly(After(h, s, run).refs, After(h, s, run).trees, receipt, w.reportIntact);
    hide VerifyObjects, StillThere, Unresolved;
  }

  function Undisturbed(id: nat, w: Answers, n: nat): seq<Action> {
    if n == 0 then [] else [Advance(id, w)] + Undisturbed(id, w, n - 1)
  }

  /** The next `n` steps of the call, with nothing in between, return the receipt. */
  predicate Completes(h: Hashes, s: State, id: nat, w: Answers, n: nat, receipt: Receipt) {
    && ValidRun(h, s, Undisturbed(id, w, n))
    && id in After(h, s, Undisturbed(id, w, n)).calls
    && After(h, s, Undisturbed(id, w, n)).calls[id].pc == Returned(Ok(receipt))
  }

  lemma OneMore(h: Hashes, s: State, id: nat, w: Answers, n: nat, receipt: Receipt)
    requires Enabled(s, Advance(id, w)) && Completes(h, Step(h, s, Advance(id, w)), id, w, n, receipt)
    ensures Completes(h, s, id, w, n + 1, receipt)
  {
  }

  lemma ReceiptingCompletes(h: Hashes, s: State, id: nat, w: Answers, receipt: Receipt)
    requires id in s.calls && s.calls[id].pc == Receipting(receipt) && s.receipt.None?
    ensures Completes(h, s, id, w, 2, receipt)
  {
    var t := Step(h, s, Advance(id, w));
    assert t.calls[id].pc == ReceiptWritten(receipt) && t.receipt == Some(receipt);
    var u := Step(h, t, Advance(id, w));
    assert Completes(h, u, id, w, 0, receipt);
    OneMore(h, t, id, w, 0, receipt);
    OneMore(h, s, id, w, 1, receipt);
  }

  predicate RefIsFreeOrOwn(h: Hashes, s: State, i: Intent) {
    RefOf(h, i.body.identity) in s.refs ==> s.refs[RefOf(h, i.body.identity)] == CommitOf(h, i)
  }

  lemma CommittingCompletes(h: Hashes, s: State, id: nat, w: Answers, i: Intent)
    requires id in s.calls && s.calls[id].pc == Committing(i) && s.receipt.None? && RefIsFreeOrOwn(h, s, i)
    ensures Completes(h, s, id, w, if RefOf(h, i.body.identity) in s.refs then 4 else 5, ReceiptOf(h, i))
  {
    hide ReceiptOf, RefOf, CommitOf, Completes;
    var t := Step(h, s, Advance(id, w));
    assert t.calls[id].pc == Referring(i, CommitOf(h, i)) && t.refs == s.refs && t.receipt.None?;
    var u := Step(h, t, Advance(id, w));
    if RefOf(h, i.body.identity) in s.refs {
      ReceiptingCompletes(h, u, id, w, ReceiptOf(h, i));
      OneMore(h, t, id, w, 2, ReceiptOf(h, i));
      OneMore(h, s, id, w, 3, ReceiptOf(h, i));
      return;
    }
    assert u.calls[id].pc == Updating(i, CommitOf(h, i)) && u.refs == s.refs && u.receipt.None?;
    var v := Step(h, u, Advance(id, w));
    ReceiptingCompletes(h, v, id, w, ReceiptOf(h, i));
    OneMore(h, u, id, w, 2, ReceiptOf(h, i));
    OneMore(h, t, id, w, 3, ReceiptOf(h, i));
    OneMore(h, s, id, w, 4, ReceiptOf(h, i));
  }

  /**
   A capture that stopped after its intent was frozen is completed, with that
   intent's receipt, by a later call of its identity, whatever the worktree
   holds by then, provided the ref is still free or names the intent's commit.
   */
  lemma StoppedCaptureIsCompleted(h: Hashes, s: State, run: seq<Action>, id: nat, w: Answers)
    requires Initial(s) && ValidRun(h, s, run)
    requires var t := After(h, s, run);
             && t.intent.Some? && t.receipt.None? && id in t.calls && t.calls[id].pc.Begun?
             && t.calls[id].input.identity == t.intent.value.body.identity
             && LaneFits(t.calls[id].input.identity, w.lane)
             && (t.calls[id].input.identity.sourceReport.Some? ==> w.reportIntact)
             && RefIsFreeOrOwn(h, t, t.intent.value)
    ensures var t := After(h, s, run);
            Completes(h, t, id, w, if RefOf(h, t.intent.value.body.identity) in t.refs then 7 else 8,
                      ReceiptOf(h, t.intent.value))
  {
    RunKeeps(h, s, run);
    hide ReceiptOf, RefOf, CommitOf, Completes, CallOk;
    var t := After(h, s, run);
    var i := t.intent.value;
    var u := Step(h, t, Advance(id, w));
    assert u.calls[id] == t.calls[id].(pc := Inspecting) && u.(calls := t.calls) == t;
    var v := Step(h, u, Advance(id, w));
    assert v.calls[id] == t.calls[id].(pc := Inspected(w.lane.head)) && v.(calls := t.calls) == t;
    var x := Step(h, v, Advance(id, w));
    assert x.calls[id].pc == Committing(i) && x.(calls := t.calls) == t;
    CommittingCompletes(h, x, id, w, i);
    var n := if RefOf(h, i.body.identity) in t.refs then 4 else 5;
    OneMore(h, v, id, w, n, ReceiptOf(h, i));
    OneMore(h, u, id, w, n + 1, ReceiptOf(h, i));
    OneMore(h, t, id, w, n + 2, ReceiptOf(h, i));
  }

  /**
   A fresh capture, undisturbed, freezes the worktree as it is: the intent names
   the Lane's head and tree, and the call returns the receipt of that intent.
   */
  lemma FreshCaptureSucceeds(h: Hashes, s: State, id: nat, w: Answers)
    requires s.intent.None? && s.receipt.None? && id in s.calls && s.calls[id].pc.Begun?
    requires var input := s.calls[id].input;
             && LaneFits(input.identity, w.lane) && (input.identity.sourceReport.Some? ==> w.reportIntact)
             && h.ref(input.identity.labId, input.identity.assignmentId) !in s.refs
    ensures var intent := NewIntent(h, s.calls[id].input, w.lane.head, w.tree, w.clock);
            Completes(h, s, id, w, 10, ReceiptOf(h, intent))
  {
    var intent := NewIntent(h, s.calls[id].input, w.lane.head, w.tree, w.clock);
    assert RefOf(h, intent.body.identity) !in s.refs;
    hide ReceiptOf, RefOf, CommitOf, Completes, CallOk, NewIntent;
    var s1 := Step(h, s, Advance(id, w));
    assert s1.calls[id] == s.calls[id].(pc := Inspecting) && s1.(calls := s.calls) == s;
    var s2 := Step(h, s1, Advance(id, w));
    assert s2.calls[id] == s.calls[id].(pc := Inspected(w.lane.head)) && s2.(calls := s.calls) == s;
    var s3 := Step(h, s2, Advance(id, w));
    assert s3.calls[id].pc == Captured(intent) && s3.(calls := s.calls) == s;
    var s4 := Step(h, s3, Advance(id, w));
    assert s4.calls[id].pc == IntentWritten(intent) && s4.(calls := s.calls, intent := None) == s && s4.intent == Some(intent);
    var s5 := Step(h, s4, Advance(id, w));
    assert s5.calls[id].pc == Committing(intent) && s5.refs == s.refs && s5.receipt.None?;
    CommittingCompletes(h, s5, id, w, intent);
    OneMore(h, s4, id, w, 5, ReceiptOf(h, intent));
    OneMore(h, s3, id, w, 6, ReceiptOf(h, intent));
    OneMore(h, s2, id, w, 7, ReceiptOf(h, intent));
    OneMore(h, s1, id, w, 8, ReceiptOf(h, intent));
    OneMore(h, s, id, w, 9, ReceiptOf(h, intent));
  }

  /** A call whose Lane, report, or frozen intent does not fit is refused without a trace. */
  lemma UnfitCallIsRefused(h: Hashes, s: State, run: seq<Action>, id: nat, w: Answers)
    requires Initial(s) && ValidRun(h, s, run) && Enabled(After(h, s, run), Advance(id, w))
    ensures var t := After(h, s, run);
            var call, u := t.calls[id], Step(h, t, Advance(id, w));
            && (call.pc.Inspecting? ==>
                  u == Moved(t, id, if !IsLaneOf(call.input.identity, w.lane) then Returned(Err(WorktreeMismatch))
                                    else if call.input.identity.sourceReport.Some? && !w.reportIntact then
                                      Returned(Err(ReceiptCorrupt))
                                    else Inspected(w.lane.head)))
            && (call.pc.Inspected? && t.intent.Some? && t.intent.value.body.identity != call.input.identity ==>
                  u == Moved(t, id, Returned(Err(CaptureConflict))))
            && (call.pc.Begun? && t.receipt.Some? && t.receipt.value.body.identity != call.input.identity ==>
                  u == Moved(t, id, Returned(Err(CaptureConflict))))
  {
    RunKeeps(h, s, run);
  }

  /** The commit is stored with the intent's tree, unless the object store has it already. */
  lemma CommitIsStored(h: Hashes, s: State, id: nat, w: Answers)
    requires Enabled(s, Advance(id, w)) && s.calls[id].pc.Committing?
    ensures var intent, u := s.calls[id].pc.intent, Step(h, s, Advance(id, w));
            var sha := ReceiptOf(h, intent).candidateSha;
            && u == Moved(s, id, Referring(intent, sha)).(trees := u.trees)
            && u.trees == if sha in s.trees then s.trees else s.trees[sha := intent.body.tree]
  {
  }

  /** A crash ends every open call and loses nothing that was written. */
  lemma CrashKeepsFiles(h: Hashes, s: State)
    ensures var t := Step(h, s, Crash);
            && t == s.(calls := t.calls) && t.calls.Keys == s.calls.Keys
            && forall id :: id in s.calls ==>
                 && t.calls[id].input == s.calls[id].input
                 && t.calls[id].pc == if s.calls[id].pc.Returned? then s.calls[id].pc else Returned(Err(IoFailed))
  {
  }

  /**
   A ref of the Assignment that names another commit is a conflict, before and at
   its creation; one that names this commit already is as good as created.
   */
  lemma TakenRefIsNotMoved(h: Hashes, s: State, run: seq<Action>, id: nat, w: Answers)
    requires Initial(s) && ValidRun(h, s, run) && Enabled(After(h, s, run), Advance(id, w))
    requires After(h, s, run).calls[id].pc.Referring? || After(h, s, run).calls[id].pc.Updating?
    ensures var t := After(h, s, run);
            var pc, u := t.calls[id].pc, Step(h, t, Advance(id, w));
            var name := h.ref(pc.intent.body.identity.labId, pc.intent.body.identity.assignmentId);
            && (name in t.refs ==> u.refs == t.refs)
            && (name in t.refs && t.refs[name] != pc.sha ==>
                  u == Moved(t, id, Returned(Err(if pc.Referring? then CaptureConflict else GitFailed))))
            && (name in t.refs && t.refs[name] == pc.sha ==>
                  u == Moved(t, id, Receipting(ReceiptOf(h, pc.intent))))
            && (name !in t.refs ==>
                  if pc.Updating? then
                    u == Moved(t, id, Receipting(ReceiptOf(h, pc.intent))).(refs := t.refs[name := pc.sha])
                  else u == Moved(t, id, Updating(pc.intent, pc.sha)))
  {
    RunKeeps(h, s, run);
  }

  // ---- One call over the mutable files, refs and objects --------------------------------

  class CandidateFiles {
    const h: Hashes
    var intent: Option<Intent>
    var receipt: Option<Receipt>
    var refs: map<int, Sha>
    var trees: map<Sha, Sha>

    ghost predicate Valid()
      reads this
    {
      && (intent.Some? ==> intent.value.captureHash == h.capture(intent.value.body))
      && (receipt.Some? ==> intent.Some? && receipt.value == ReceiptOf(h, intent.value))
    }

    constructor (h: Hashes, refs: map<int, Sha>, trees: map<Sha, Sha>)
      ensures Valid() && this.h == h && intent.None? && receipt.None? && this.refs == refs && this.trees == trees
    {
      this.h, this.intent, this.receipt, this.refs, this.trees := h, None, None, refs, trees;
    }

    /** `freezeCanonical` on the intent: the first writer wins, everyone compares. */
    method FreezeIntent(mine: Intent) returns (code: Option<Code>)
      modifies this`intent
      ensures intent == if old(intent).Some? then old(intent) else Some(mine)
      ensures code == if intent == Some(mine) then None else Some(CaptureConflict)
    {
      if intent.None? {
        intent := Some(mine);
      }
      code := if intent != Some(mine) then Some(CaptureConflict) else None;
    }

    method FreezeReceipt(mine: Receipt) returns (code: Option<Code>)
      modifies this`receipt
      ensures receipt == if old(receipt).Some? then old(receipt) else Some(mine)
      ensures code == if receipt == Some(mine) then None else Some(CaptureConflict)
    {
      if receipt.None? {
        receipt := Some(mine);
      }
      code := if receipt != Some(mine) then Some(CaptureConflict) else None;
    }

    /** A ref is created only where none is, and never moved. */
    method CreateOrVerifyRef(name: int, sha: Sha) returns (code: Option<Code>)
      modifies this`refs
      ensures refs == if name in old(refs) then old(refs) else old(refs)[name := sha]
      ensures code == if refs[name] == sha then None else Some(CaptureConflict)
    {
      if name in refs {
        if refs[name] != sha {
          return Some(CaptureConflict);
        }
        return None;
      }
      refs := refs[name := sha];
      code := None;
    }

    /**
     `freezeLaneCandidate` run alone; `stopped` reports an I/O or Git failure or
     a crash, which may fall between any two steps and right after each write.
     */
    method FreezeLaneCandidate(input: Input, w: Answers) returns (r: Result<Receipt, Code>, stopped: bool)
      requires Valid()
      modifies this
      ensures Valid()
      ensures old(intent).Some? ==> intent == old(intent)
      ensures old(receipt).Some? ==> receipt == old(receipt)
      ensures stopped ==> r.Err?
      ensures r.Ok? ==> intent.Some? && receipt == Some(r.value) && r.value.body.identity == input.identity
      ensures old(intent).Some? && old(intent).value.body.identity != input.identity ==>
                r.Err? && receipt == old(receipt) && refs == old(refs) && trees == old(trees)
      ensures !stopped && ValidInput(input) && old(receipt).None? && LaneFits(input.identity, w.lane)
              && (input.identity.sourceReport.Some? ==> w.reportIntact)
              && (old(intent).Some? ==> old(intent).value.body.identity == input.identity)
              && h.ref(input.identity.labId, input.identity.assignmentId) !in old(refs) ==>
                r.Ok? && intent.value.body.tree == (if old(intent).Some? then old(intent).value.body.tree else w.tree)
      ensures !stopped && !ValidInput(input) ==> r == Err(InvalidInput) && intent == old(intent)
      ensures !stopped && ValidInput(input) && old(receipt).Some? ==>
                r == if old(receipt).value.body.identity != input.identity then Err(CaptureConflict)
                     else ReplayAnswer(old(refs), old(trees), old(receipt).value, w.reportIntact)
      ensures !stopped && ValidInput(input) && old(receipt).None? && !LaneFits(input.identity, w.lane) ==>
                r == Err(WorktreeMismatch) && intent == old(intent)
      ensures !stopped && ValidInput(input) && old(receipt).None? && LaneFits(input.identity, w.lane)
              && input.identity.sourceReport.Some? && !w.reportIntact ==>
                r == Err(ReceiptCorrupt) && intent == old(intent)
      ensures r.Ok? && old(receipt).None? ==> IsReceiptOf(h, r.value, intent.value)
      ensures old(intent).None? && intent.Some? ==> IsIntentOf(h, intent.value, input, w.lane.head, w.tree, w.clock)
    {
      r, stopped := Err(IoFailed), *;
      if stopped {
        return;
      }
      if !ValidInput(input) {
        return Err(InvalidInput), false;
      }
      if receipt.Some? {
        r, stopped := Replay(input, w);
        return;
      }
      stopped := *;
      if stopped {
        return;
      }
      if !LaneFits(input.identity, w.lane) {
        return Err(WorktreeMismatch), false;
      }
      stopped := *;
      if stopped {
        return;
      }
      if input.identity.sourceReport.Some? && !w.reportIntact {
        return Err(ReceiptCorrupt), false;
      }
      var mine: Option<Intent>;
      mine, r, stopped := CaptureIntent(input, w);
      if mine.Some? {
        r, stopped := FinishCapture(mine.value);
      }
    }

    /** The branch of an existing receipt. */
    method Replay(input: Input, w: Answers) returns (r: Result<Receipt, Code>, stopped: bool)
      requires Valid() && receipt.Some?
      ensures stopped ==> r.Err?
      ensures r.Ok? ==> r.value == receipt.value && receipt.value.body.identity == input.identity
      ensures !stopped ==>
                r == if receipt.value.body.identity != input.identity then Err(CaptureConflict)
                     else ReplayAnswer(refs, trees, receipt.value, w.reportIntact)
    {
      r, stopped := Err(IoFailed), false;
      var refused := CheckReceipt(h, receipt.value, input.identity);
      if refused.Some? {
        return Err(refused.value), false;
      }
      stopped := *;
      if stopped {
        return;
      }
      VerifiesExactly(refs, trees, receipt.value, w.reportIntact);
      refused := VerifyObjects(refs, trees, receipt.value, w.reportIntact);
      if refused.Some? {
        return Err(refused.value), false;
      }
      r := Ok(receipt.value);
    }

    /** Adopting the frozen intent, or snapshotting the worktree and freezing a new one. */
    method CaptureIntent(input: Input, w: Answers)
      returns (mine: Option<Intent>, r: Result<Receipt, Code>, stopped: bool)
      requires Valid()
      modifies this`intent
      ensures Valid()
      ensures old(intent).Some? ==> intent == old(intent)
      ensures mine.Some? ==> intent == mine && mine.value.body.identity == input.identity && !stopped
      ensures mine.None? ==> r.Err?
      ensures old(intent).None? && intent.Some? ==> IsIntentOf(h, intent.value, input, w.lane.head, w.tree, w.clock)
      ensures !stopped && (old(intent).Some? ==> old(intent).value.body.identity == input.identity) ==> mine.Some?
      ensures !stopped && old(intent).Some? && old(intent).value.body.identity != input.identity ==>
                mine.None? && r == Err(CaptureConflict)
    {
      mine, r, stopped := None, Err(IoFailed), *;
      if stopped {
        return;
      }
      if intent.Some? {
        if intent.value.body.identity != input.identity {
          return None, Err(CaptureConflict), false;
        }
        return intent, r, false;
      }
      stopped := *;
      if stopped {
        return;
      }
      var fresh' := NewIntent(h, input, w.lane.head, w.tree, w.clock);
      var conflict := FreezeIntent(fresh');
      stopped := *;
      if stopped {
        return;
      }
      if conflict.Some? {
        return None, Err(CaptureConflict), false;
      }
      mine := Some(fresh');
    }

    /** Commit, ref and receipt of the frozen intent. */
    method FinishCapture(mine: Intent) returns (r: Result<Receipt, Code>, stopped: bool)
      requires Valid() && intent == Some(mine) && receipt.None?
      modifies this`receipt, this`refs, this`trees
      ensures Valid()
      ensures stopped ==> r.Err?
      ensures r.Ok? ==> receipt == Some(r.value) && r.value == ReceiptOf(h, mine)
      ensures receipt.None? || receipt == Some(ReceiptOf(h, mine))
      ensures var sha, name := CommitOf(h, mine), RefOf(h, mine.body.identity);
              && (trees == old(trees) || (sha !in old(trees) && trees == old(trees)[sha := mine.body.tree]))
              && (refs == old(refs) || (name !in old(refs) && refs == old(refs)[name := sha]))
              && (receipt.Some? ==> name in refs && refs[name] == sha)
              && (!stopped ==>
                    r == if name in old(refs) && old(refs)[name] != sha then Err(CaptureConflict)
                         else Ok(ReceiptOf(h, mine)))
    {
      r, stopped := Err(IoFailed), *;
      if stopped {
        return;
      }
      var sha, name := CommitOf(h, mine), RefOf(h, mine.body.identity);
      if sha !in trees {
        trees := trees[sha := mine.body.tree];
      }
      stopped := *;
      if stopped {
        return;
      }
      var conflict := CreateOrVerifyRef(name, sha);
      stopped := *;
      if stopped {
        return;
      }
      if conflict.Some? {
        return Err(CaptureConflict), false;
      }
      conflict := FreezeReceipt(ReceiptOf(h, mine));
      stopped := *;
      if stopped {
        return;
      }
      if conflict.Some? {
        return Err(CaptureConflict), false;
      }
      r := Ok(ReceiptOf(h, mine));
    }
  }
}
