/**
 Activating an approved Coder (dsh-autolab/src/approved-coder-activation.ts): a
 durable staging of the Goal install, the native mutation, and the durable
 apply; and the projection of later native revisions onto the role
 (`projectRoleGoalRevision`, dsh-autolab/lib/index.js).
 */
module CoderActivation {
  import opened Wrappers

  datatype GoalRef = GoalRef(id: string, revision: nat)

  datatype InstallStatus = PendingInstall | Activating | Applied

  /** `goal` is the pair `goalId`, `goalRevision`, which the schema wants together. */
  datatype Install = Install(installId: string, assignmentId: string, objectiveHash: int, maxGoalRounds: nat,
                             status: InstallStatus, goal: Option<GoalRef>)

  datatype Phase = Declared | Starting | Working | Reviewing | Pausing | PausedRole | BlockedRole

  datatype Packet = Packet(path: string, hash: int)

  datatype Role = Role(sessionId: string, phase: Phase, binding: Option<string>, packet: Option<Packet>,
                       install: Option<Install>, blocker: Option<string>, rest: string)

  datatype Intent = Intent(installId: string, assignmentId: string, objectiveHash: int, maxGoalRounds: nat,
                           expected: Option<GoalRef>)

  datatype Plan = Plan(reviewId: string, coderRoleId: string, sessionId: string, packet: Packet, intent: Intent)

  datatype InstallOutcome = NewlyApplied | AlreadyApplied | AlreadyComplete

  datatype InstallResult = InstallResult(outcome: InstallOutcome, goal: GoalRef, objectiveHash: int)

  datatype Code = IdentityMismatch | ActivationConflict | GoalAlreadyComplete | InvalidIntent | SchemaInvalid

  // ---- Compiling a plan ---------------------------------------------------------

  datatype CompileInput = CompileInput(reviewId: string, coderRoleId: string, sessionId: string, assignmentId: string,
                                       packet: Packet, body: string, maxGoalRounds: int, expected: Option<GoalRef>,
                                       installId: Option<string>)

  /** `objective` digests the text the identity, the packet and the body make; it may be any function. */
  function Compile(objective: (string, string, Packet, string) -> int, input: CompileInput): Result<Plan, Code> {
    var installId := if input.installId.Some? then input.installId.value else input.assignmentId + ":install:1";
    if input.assignmentId != "coder:" + input.reviewId then Err(IdentityMismatch)
    else if installId == "" || input.packet.path == "" || input.maxGoalRounds <= 0
            || (input.expected.Some? && (input.expected.value.id == "" || input.expected.value.revision == 0)) then
      Err(InvalidIntent)
    else
      Ok(Plan(input.reviewId, input.coderRoleId, input.sessionId, input.packet,
              Intent(installId, input.assignmentId,
                     objective(installId, input.assignmentId, input.packet, input.body), input.maxGoalRounds,
                     input.expected)))
  }

  // ---- Staging and applying ---------------------------------------------------------

  predicate SameIdentity(install: Option<Install>, plan: Plan) {
    && install.Some? && install.value.installId == plan.intent.installId
    && install.value.assignmentId == plan.intent.assignmentId
    && install.value.objectiveHash == plan.intent.objectiveHash
    && install.value.maxGoalRounds == plan.intent.maxGoalRounds
  }

  /** `sameGoalRef`: null is nobody's ref. */
  predicate SameGoalRef(install: Install, goal: Option<GoalRef>) {
    goal.Some? && install.goal == goal
  }

  /** `roleStateSchema` */
  predicate RoleSchema(role: Role) {
    && role.sessionId != ""
    && (role.phase != Starting ==> role.binding.Some? && role.packet.Some?)
    && (role.install.Some? ==> role.install.value.maxGoalRounds > 0
                               && (role.install.value.status.Applied? ==> role.install.value.goal.Some?))
  }

  function Checked(role: Role): Result<Role, Code> {
    if RoleSchema(role) then Ok(role) else Err(SchemaInvalid)
  }

  function Stage(role: Role, plan: Plan): Result<Role, Code> {
    if role.sessionId != plan.sessionId then Err(IdentityMismatch)
    else if SameIdentity(role.install, plan) && role.packet != Some(plan.packet) then Err(ActivationConflict)
    else if SameIdentity(role.install, plan) && role.install.value.status.Applied? then Ok(role)
    else if role.install.Some? && !SameIdentity(role.install, plan)
            && (!role.install.value.status.Applied? || !SameGoalRef(role.install.value, plan.intent.expected)) then
      Err(ActivationConflict)
    else
      Checked(role.(packet := Some(plan.packet),
                    install := Some(Install(plan.intent.installId, plan.intent.assignmentId, plan.intent.objectiveHash,
                                            plan.intent.maxGoalRounds, Activating, plan.intent.expected))))
  }

  function Apply(role: Role, plan: Plan, result: InstallResult): Result<Role, Code> {
    if role.sessionId != plan.sessionId then Err(IdentityMismatch)
    else if role.packet != Some(plan.packet) then Err(ActivationConflict)
    else if !SameIdentity(role.install, plan) then Err(ActivationConflict)
    else if result.objectiveHash != plan.intent.objectiveHash then Err(IdentityMismatch)
    else if result.outcome.AlreadyComplete? then Err(GoalAlreadyComplete)
    else
      Checked(role.(blocker := None, phase := Working,
                    install := Some(Install(plan.intent.installId, plan.intent.assignmentId, plan.intent.objectiveHash,
                                            plan.intent.maxGoalRounds, Applied, Some(result.goal)))))
  }

  // ---- Native revisions ------------------------------------------------------------

  datatype Edge = Edge(sessionId: string, goal: GoalRef, objectiveHash: int)

  predicate Matches(role: Role, edge: Edge) {
    && role.install.Some? && role.sessionId == edge.sessionId && role.install.value.status.Applied?
    && role.install.value.goal.Some? && role.install.value.goal.value.id == edge.goal.id
    && role.install.value.objectiveHash == edge.objectiveHash
    && edge.goal.revision > role.install.value.goal.value.revision
  }

  function AtRevision(role: Role, edge: Edge): Role
    requires Matches(role, edge)
  {
    role.(install := Some(role.install.value.(goal := Some(edge.goal))))
  }

  /** Exactly one role matches, and it is `id`. */
  predicate OnlyMatch(roles: map<string, Role>, edge: Edge, id: string) {
    id in roles && Matches(roles[id], edge) && forall k :: k in roles && k != id ==> !Matches(roles[k], edge)
  }

  /** `projectRoleGoalRevision`: the loop over the roles, and the write to the only match. */
  method ProjectRoleGoalRevision(roles: map<string, Role>, edge: Edge) returns (r: Option<(string, map<string, Role>)>)
    ensures r.Some? <==> exists id :: OnlyMatch(roles, edge, id)
    ensures r.Some? ==> OnlyMatch(roles, edge, r.value.0)
                        && r.value.1 == roles[r.value.0 := AtRevision(roles[r.value.0], edge)]
  {
    var matches: seq<string> := [];
    var left := roles.Keys;
    while left != {}
      invariant left <= roles.Keys
      invariant forall i :: 0 <= i < |matches| ==>
                  matches[i] in roles && matches[i] !in left && Matches(roles[matches[i]], edge)
      invariant forall i, j :: 0 <= i < j < |matches| ==> matches[i] != matches[j]
      invariant forall k :: k in roles && k !in left && Matches(roles[k], edge) ==> k in matches
      decreases |left|
    {
      var id :| id in left;
      left := left - {id};
      if Matches(roles[id], edge) {
        matches := matches + [id];
      }
    }
    if |matches| != 1 {
      if |matches| > 1 {
        assert matches[0] != matches[1];
      }
      return None;
    }
    assert OnlyMatch(roles, edge, matches[0]);
    r := Some((matches[0], roles[matches[0] := AtRevision(roles[matches[0]], edge)]));
  }

  // ---- Refusals and replays ----------------------------------------------------------

  /**
   Staging is refused exactly for another Session, for the same install under
   another packet, for another install that is not applied at the plan's
   expected Goal ref, or for a role the schema cannot hold.
   */
  lemma StageRefusals(role: Role, plan: Plan)
    requires RoleSchema(role) && plan.intent.maxGoalRounds > 0
    ensures Stage(role, plan).Err? <==>
              || role.sessionId != plan.sessionId
              || (SameIdentity(role.install, plan) && role.packet != Some(plan.packet))
              || (role.install.Some? && !SameIdentity(role.install, plan)
                  && !(role.install.value.status.Applied? && plan.intent.expected.Some?
                       && role.install.value.goal == plan.intent.expected))
    ensures Stage(role, plan).Ok? ==> RoleSchema(Stage(role, plan).value)
  {
  }

  /** Apply succeeds exactly for the staged identity and packet, a matching unfinished Goal, and a bound role. */
  lemma ApplyRequirements(role: Role, plan: Plan, result: InstallResult)
    requires RoleSchema(role)
    ensures Apply(role, plan, result).Ok? <==>
              && role.sessionId == plan.sessionId && role.packet == Some(plan.packet) && SameIdentity(role.install, plan)
              && result.objectiveHash == plan.intent.objectiveHash && !result.outcome.AlreadyComplete?
              && role.binding.Some?
  {
  }

  /** An install is the plan's exactly when all it fixes is the plan's; status and Goal ref may differ. */
  lemma SameIdentityExactly(install: Option<Install>, plan: Plan)
    ensures SameIdentity(install, plan) <==>
              install.Some?
              && install.value == Install(plan.intent.installId, plan.intent.assignmentId, plan.intent.objectiveHash,
                                          plan.intent.maxGoalRounds, install.value.status, install.value.goal)
  {
  }

  /** What a durable role may be: of a Session, bound unless it is starting, with rounds, and with a Goal once applied. */
  lemma RoleSchemaExactly(role: Role)
    ensures RoleSchema(role) <==>
              && role.sessionId != "" && (role.phase == Starting || (role.binding.Some? && role.packet.Some?))
              && match role.install
                 case None => true
                 case Some(Install(_, _, _, rounds, status, goal)) => rounds >= 1 && (status.Applied? ==> goal.Some?)
  {
  }

  /**
   Staging refuses in this order: another Session; the same install under another
   packet, or another install not applied at the plan's expected Goal ref; and
   what the schema does not take.
   */
  lemma StageCodes(role: Role, plan: Plan)
    requires Stage(role, plan).Err?
    ensures var code := Stage(role, plan).error;
            var same := SameIdentity(role.install, plan);
            if role.sessionId != plan.sessionId then code == IdentityMismatch
            else if (same && role.packet != Some(plan.packet))
                    || (role.install.Some? && !same
                        && !(role.install.value.status.Applied? && plan.intent.expected.Some?
                             && role.install.value.goal == plan.intent.expected))
            then code == ActivationConflict
            else code == SchemaInvalid && !(same && role.install.value.status.Applied?)
  {
  }

  /** An edge is about a role exactly if it reports, for the Goal the role's applied install records, a later revision. */
  lemma MatchesExactly(role: Role, edge: Edge)
    ensures Matches(role, edge) <==>
              role.sessionId == edge.sessionId
              && match role.install
                 case Some(Install(_, _, hash, _, Applied, Some(GoalRef(id, revision)))) =>
                   hash == edge.objectiveHash && id == edge.goal.id && revision < edge.goal.revision
                 case _ => false
  {
  }

  /** The install of the plan, at `status` and Goal ref. */
  predicate Installed(role: Role, plan: Plan, status: InstallStatus, goal: Option<GoalRef>) {
    && role.packet == Some(plan.packet) && role.install.Some?
    && role.install.value == Install(plan.intent.installId, plan.intent.assignmentId, plan.intent.objectiveHash,
                                     plan.intent.maxGoalRounds, status, goal)
  }

  /** Staging writes the packet and an activating install at the expected Goal ref, and nothing else; or nothing at all. */
  lemma StagesExactly(role: Role, plan: Plan)
    requires Stage(role, plan).Ok?
    ensures var staged := Stage(role, plan).value;
            if SameIdentity(role.install, plan) && role.install.value.status.Applied? then staged == role
            else Installed(staged, plan, Activating, plan.intent.expected)
                 && staged == role.(packet := staged.packet, install := staged.install)
  {
  }

  /** Applying records the native Goal, sets the role to work and clears its blocker, and changes nothing else. */
  lemma AppliesExactly(role: Role, plan: Plan, result: InstallResult)
    requires Apply(role, plan, result).Ok?
    ensures var applied := Apply(role, plan, result).value;
            && Installed(applied, plan, Applied, Some(result.goal))
            && applied.phase == Working && applied.blocker.None?
            && applied == role.(install := applied.install, phase := applied.phase, blocker := applied.blocker)
  {
  }

  /** Each refusal of an apply has its own code, and the first that applies is given. */
  lemma ApplyRefusals(role: Role, plan: Plan, result: InstallResult)
    requires Apply(role, plan, result).Err?
    ensures var code := Apply(role, plan, result).error;
            if role.sessionId != plan.sessionId then code == IdentityMismatch
            else if role.packet != Some(plan.packet) || !SameIdentity(role.install, plan) then code == ActivationConflict
            else if result.objectiveHash != plan.intent.objectiveHash then code == IdentityMismatch
            else if result.outcome.AlreadyComplete? then code == GoalAlreadyComplete
            else code == SchemaInvalid
  {
  }

  /** A plan compiles exactly from the review's own Assignment, a named packet and install, some rounds and a real Goal ref. */
  lemma CompilesExactly(objective: (string, string, Packet, string) -> int, input: CompileInput)
    ensures var plan := Compile(objective, input);
            var installId := if input.installId.Some? then input.installId.value else input.assignmentId + ":install:1";
            && (plan.Ok? <==>
                  && input.assignmentId == "coder:" + input.reviewId && installId != "" && input.packet.path != ""
                  && input.maxGoalRounds > 0
                  && (input.expected.Some? ==> input.expected.value.id != "" && input.expected.value.revision > 0))
            && (plan.Ok? ==>
                  && plan.value.reviewId == input.reviewId && plan.value.coderRoleId == input.coderRoleId
                  && plan.value.sessionId == input.sessionId && plan.value.packet == input.packet
                  && plan.value.intent.installId == installId && plan.value.intent.assignmentId == input.assignmentId
                  && plan.value.intent.objectiveHash == objective(installId, input.assignmentId, input.packet, input.body)
                  && plan.value.intent.maxGoalRounds == input.maxGoalRounds && plan.value.intent.expected == input.expected)
            && (plan.Err? ==>
                  plan.error == if input.assignmentId != "coder:" + input.reviewId then IdentityMismatch else InvalidIntent)
  {
  }

  /** Two plans for one activation; only what they expect of the Goal before may differ. */
  predicate SamePlan(left: Plan, right: Plan) {
    left.sessionId == right.sessionId && left.packet == right.packet
    && left.intent == right.intent.(expected := left.intent.expected)
  }

  /** A recompiled plan is the same activation whatever Goal ref it expects now. */
  lemma RecompiledPlanIsTheSame(objective: (string, string, Packet, string) -> int, input: CompileInput,
                                expected: Option<GoalRef>)
    requires Compile(objective, input).Ok? && Compile(objective, input.(expected := expected)).Ok?
    ensures SamePlan(Compile(objective, input).value, Compile(objective, input.(expected := expected)).value)
    ensures Compile(objective, input).value.intent.assignmentId == "coder:" + input.reviewId
  {
  }

  /** One later event in a role's life: a native revision, or a replay of the activation. */
  datatype Move = Revision(edge: Edge) | Restage(plan: Plan) | Reapply(plan: Plan, result: InstallResult)

  /** A refused move leaves the role as it is. */
  function Moved(role: Role, move: Move): Role {
    match move
    case Revision(edge) => if Matches(role, edge) then AtRevision(role, edge) else role
    case Restage(plan) => if Stage(role, plan).Ok? then Stage(role, plan).value else role
    case Reapply(plan, result) => if Apply(role, plan, result).Ok? then Apply(role, plan, result).value else role
  }

  function MovedAll(role: Role, moves: seq<Move>): Role {
    if moves == [] then role else Moved(MovedAll(role, moves[..|moves| - 1]), moves[|moves| - 1])
  }

  /** A plan of another install that expects exactly the Goal ref the role records. */
  predicate Succeeds(role: Role, next: Plan) {
    && role.sessionId == next.sessionId && role.install.Some? && !SameIdentity(role.install, next)
    && next.intent.expected.Some? && role.install.value.goal == next.intent.expected
  }

  /** No later activation took the role over: none was staged that expects the Goal it then records. */
  predicate NoSuccessor(role: Role, plan: Plan, moves: seq<Move>)
    decreases |moves|
  {
    moves == [] ||
    (var n := |moves| - 1;
     && NoSuccessor(role, plan, moves[..n])
     && (moves[n].Restage? ==> !Succeeds(MovedAll(role, moves[..n]), moves[n].plan)))
  }

  /** The role carries the plan's applied install. */
  predicate IsApplied(role: Role, plan: Plan) {
    && role.sessionId == plan.sessionId && role.packet == Some(plan.packet) && SameIdentity(role.install, plan)
    && role.install.value.status.Applied? && role.install.value.goal.Some?
  }

  lemma {:induction false} StaysApplied(role: Role, plan: Plan, moves: seq<Move>)
    requires IsApplied(role, plan) && NoSuccessor(role, plan, moves)
    ensures IsApplied(MovedAll(role, moves), plan)
  {
    if moves != [] {
      StaysApplied(role, plan, moves[..|moves| - 1]);
    }
  }

  /**
   Once applied, an activation is never clobbered by its own replays: after any
   native revisions, restagings and reapplications, in any order and with any
   results, staging the plan again, compiled against any Goal ref, returns the
   role unchanged.
   */
  lemma StagingAfterApplyIsANoOp(role: Role, plan: Plan, result: InstallResult, moves: seq<Move>, again: Plan)
    requires Apply(role, plan, result).Ok? && SamePlan(plan, again)
    requires NoSuccessor(Apply(role, plan, result).value, plan, moves)
    ensures var later := MovedAll(Apply(role, plan, result).value, moves); Stage(later, again) == Ok(later)
  {
    StaysApplied(Apply(role, plan, result).value, plan, moves);
  }

  /** Staging is idempotent. */
  lemma StageIsIdempotent(role: Role, plan: Plan)
    requires Stage(role, plan).Ok?
    ensures Stage(Stage(role, plan).value, plan) == Stage(role, plan)
  {
  }

  /** A staged activation can be applied, and the applied one is not staged again. */
  lemma StageThenApply(role: Role, plan: Plan, result: InstallResult)
    requires RoleSchema(role) && role.binding.Some? && Stage(role, plan).Ok?
    requires result.objectiveHash == plan.intent.objectiveHash && !result.outcome.AlreadyComplete?
    ensures var staged := Stage(role, plan).value;
            && Apply(staged, plan, result).Ok?
            && Apply(staged, plan, result).value.install.value.goal == Some(result.goal)
            && Stage(Apply(staged, plan, result).value, plan) == Apply(staged, plan, result)
  {
  }

  /**
   Taken alone, apply trusts its result: on an applied role it lowers the
   recorded revision exactly when the result it is replayed with is older.
   */
  lemma ReapplyLowersExactlyWhenOlder(role: Role, plan: Plan, result: InstallResult)
    requires RoleSchema(role) && IsApplied(role, plan) && result.goal.id == role.install.value.goal.value.id
    requires result.objectiveHash == plan.intent.objectiveHash && !result.outcome.AlreadyComplete? && role.binding.Some?
    ensures var again := Apply(role, plan, result);
            && again.Ok?
            && (again.value.install.value.goal.value.revision < role.install.value.goal.value.revision
                <==> result.goal.revision < role.install.value.goal.value.revision)
  {
  }

  lemma ReapplyCanLower() returns (role: Role, plan: Plan, result: InstallResult)
    ensures RoleSchema(role) && IsApplied(role, plan) && Apply(role, plan, result).Ok?
    ensures Apply(role, plan, result).value.install.value.goal.value.id == role.install.value.goal.value.id
    ensures Apply(role, plan, result).value.install.value.goal.value.revision < role.install.value.goal.value.revision
  {
    var packet := Packet("/p", 1);
    plan := Plan("r", "coder", "s", packet, Intent("coder:r:install:1", "coder:r", 7, 3, None));
    role := Role("s", Working, Some("b"), Some(packet),
                 Some(Install("coder:r:install:1", "coder:r", 7, 3, Applied, Some(GoalRef("g", 5)))), None, "");
    result := InstallResult(NewlyApplied, GoalRef("g", 1), 7);
  }

  // ---- The whole activation, as the Controller runs it -------------------------------------

  datatype Native = Native(revision: nat, objectiveHash: int)

  /** Staged at a RuntimeState revision; `result` once the native Goal was installed. */
  datatype Call = Call(plan: Plan, staged: nat, result: Option<InstallResult>)

  datatype State = State(revision: nat, roles: map<string, Role>, goals: map<string, Native>, calls: map<nat, Call>)

  datatype Action =
    | Prepare(id: nat, plan: Plan)
    | InstallGoal(id: nat, goalId: string, outcome: InstallOutcome)
    | Commit(id: nat)
    | Drop(id: nat)
    | CreateGoal(goalId: string, objectiveHash: int)
    | ReviseGoal(goalId: string)
    | Track(edge: Edge, roleId: string)
    | Other(roles: map<string, Role>)

  /**
   The native Goal answers an install with its current revision; an edge reports
   a revision the Goal has had.  Other transitions leave the installs alone.
   */
  predicate Enabled(s: State, a: Action) {
    match a
    case Prepare(id, plan) => id !in s.calls && plan.coderRoleId in s.roles && Stage(s.roles[plan.coderRoleId], plan).Ok?
    case InstallGoal(id, goalId, _) =>
      && id in s.calls && s.calls[id].result.None? && goalId in s.goals
      && s.goals[goalId].objectiveHash == s.calls[id].plan.intent.objectiveHash
    case Commit(id) => id in s.calls && s.calls[id].result.Some?
    case Drop(id) => id in s.calls
    case CreateGoal(goalId, _) => goalId !in s.goals
    case ReviseGoal(goalId) => goalId in s.goals
    case Track(edge, roleId) =>
      && edge.goal.id in s.goals && edge.goal.revision <= s.goals[edge.goal.id].revision
      && OnlyMatch(s.roles, edge, roleId)
    case Other(roles) =>
      roles.Keys == s.roles.Keys && forall id :: id in roles ==> roles[id].install == s.roles[id].install
  }

  function Step(s: State, a: Action): State
    requires Enabled(s, a)
  {
    match a
    case Prepare(id, plan) =>
      s.(roles := s.roles[plan.coderRoleId := Stage(s.roles[plan.coderRoleId], plan).value],
         revision := s.revision + 1, calls := s.calls[id := Call(plan, s.revision + 1, None)])
    case InstallGoal(id, goalId, outcome) =>
      s.(calls := s.calls[id := s.calls[id].(result :=
           Some(InstallResult(outcome, GoalRef(goalId, s.goals[goalId].revision), s.goals[goalId].objectiveHash)))])
    case Commit(id) =>
      var call := s.calls[id];
      var done := s.(calls := s.calls - {id});
      if s.revision == call.staged && call.plan.coderRoleId in s.roles
         && Apply(s.roles[call.plan.coderRoleId], call.plan, call.result.value).Ok? then
        done.(roles := s.roles[call.plan.coderRoleId :=
                          Apply(s.roles[call.plan.coderRoleId], call.plan, call.result.value).value],
              revision := s.revision + 1)
      else done
    case Drop(id) => s.(calls := s.calls - {id})
    case CreateGoal(goalId, hash) => s.(goals := s.goals[goalId := Native(1, hash)])
    case ReviseGoal(goalId) => s.(goals := s.goals[goalId := s.goals[goalId].(revision := s.goals[goalId].revision + 1)])
    case Track(edge, roleId) =>
      s.(roles := s.roles[roleId := AtRevision(s.roles[roleId], edge)], revision := s.revision + 1)
    case Other(roles) => s.(roles := roles, revision := s.revision + 1)
  }

  /** The Goal ref of an applied install. */
  function AppliedRef(role: Role): Option<GoalRef> {
    if role.install.Some? && role.install.value.status.Applied? then role.install.value.goal else None
  }

  predicate Backed(s: State, goal: GoalRef) {
    goal.id in s.goals && goal.revision <= s.goals[goal.id].revision
  }

  predicate RoleBacked(s: State, role: Role) {
    AppliedRef(role).Some? ==> Backed(s, AppliedRef(role).value)
  }

  /** A result still usable is at least as new as what the role records. */
  predicate CallOk(s: State, call: Call) {
    && call.staged <= s.revision
    && (call.result.Some? ==> Backed(s, call.result.value.goal))
    && (call.result.Some? && call.staged == s.revision && call.plan.coderRoleId in s.roles ==>
          var recorded := AppliedRef(s.roles[call.plan.coderRoleId]);
          recorded.Some? && recorded.value.id == call.result.value.goal.id ==>
            recorded.value.revision <= call.result.value.goal.revision)
  }

  predicate Inv(s: State) {
    && (forall id :: id in s.roles ==> RoleBacked(s, s.roles[id]))
    && (forall id :: id in s.calls ==> CallOk(s, s.calls[id]))
  }

  predicate Initial(s: State) {
    s.calls == map[] && forall id :: id in s.roles ==> s.roles[id].install.None?
  }

  predicate ValidRun(s: State, run: seq<Action>)
    decreases |run|
  {
    run == [] || (Enabled(s, run[0]) && ValidRun(Step(s, run[0]), run[1..]))
  }

  function After(s: State, run: seq<Action>): State
    requires ValidRun(s, run)
    decreases |run|
  {
    if run == [] then s else After(Step(s, run[0]), run[1..])
  }

  lemma StepKeeps(s: State, a: Action)
    requires Inv(s) && Enabled(s, a)
    ensures Inv(Step(s, a))
  {
  }

  lemma {:induction false} RunKeeps(s: State, run: seq<Action>)
    requires Inv(s) && ValidRun(s, run)
    ensures Inv(After(s, run))
    decreases |run|
  {
    hide Step, Enabled, Inv;
    if run != [] {
      StepKeeps(s, run[0]);
      RunKeeps(Step(s, run[0]), run[1..]);
    }
  }

  /**
   In the whole protocol the hazard does not arise: the commit is fenced by the
   revision at which the plan was staged, so no step ever lowers the revision
   recorded for a Goal, and a projection strictly raises it.
   */
  lemma RecordedRevisionNeverDrops(s: State, run: seq<Action>, a: Action, roleId: string)
    requires Initial(s) && ValidRun(s, run) && Enabled(After(s, run), a)
    requires roleId in After(s, run).roles && roleId in Step(After(s, run), a).roles
    ensures var before, after := AppliedRef(After(s, run).roles[roleId]), AppliedRef(Step(After(s, run), a).roles[roleId]);
            && (before.Some? && after.Some? && before.value.id == after.value.id ==>
                  before.value.revision <= after.value.revision)
            && (a.Track? && a.roleId == roleId ==>
                  before.Some? && after.Some? && before.value.id == after.value.id
                  && before.value.revision < after.value.revision)
  {
    RunKeeps(s, run);
    var t := After(s, run);
    assert RoleBacked(t, t.roles[roleId]);
    if a.Commit? {
      assert CallOk(t, t.calls[a.id]);
    }
  }

  /**
   The activation undisturbed: prepared, installed and committed, the role works
   on the plan's Goal at the revision the native Goal answered.
   */
  lemma ActivationRuns(s: State, id: nat, plan: Plan, goalId: string, outcome: InstallOutcome) returns (t: State)
    requires Enabled(s, Prepare(id, plan)) && goalId in s.goals && !outcome.AlreadyComplete?
    requires s.goals[goalId].objectiveHash == plan.intent.objectiveHash
    requires RoleSchema(s.roles[plan.coderRoleId]) && s.roles[plan.coderRoleId].binding.Some?
    ensures var run := [Prepare(id, plan), InstallGoal(id, goalId, outcome), Commit(id)];
            ValidRun(s, run) && t == After(s, run)
    ensures t.roles.Keys == s.roles.Keys && t.goals == s.goals && t.calls == s.calls && t.revision == s.revision + 2
    ensures forall k :: k in s.roles && k != plan.coderRoleId ==> t.roles[k] == s.roles[k]
    ensures var role := t.roles[plan.coderRoleId];
            && Installed(role, plan, Applied, Some(GoalRef(goalId, s.goals[goalId].revision)))
            && role.phase == Working && role.blocker.None?
  {
    var staged := Step(s, Prepare(id, plan));
    var installed := Step(staged, InstallGoal(id, goalId, outcome));
    var result := installed.calls[id].result.value;
    StageThenApply(s.roles[plan.coderRoleId], plan, result);
    AppliesExactly(staged.roles[plan.coderRoleId], plan, result);
    hide Stage, Apply, RoleSchema;
    t := Step(installed, Commit(id));
    assert t.calls == s.calls;
    OneStep(installed, Commit(id), [], t);
    OneStep(staged, InstallGoal(id, goalId, outcome), [Commit(id)], t);
    OneStep(s, Prepare(id, plan), [InstallGoal(id, goalId, outcome), Commit(id)], t);
    assert [Commit(id)] + [] == [Commit(id)];
    assert [InstallGoal(id, goalId, outcome)] + [Commit(id)] == [InstallGoal(id, goalId, outcome), Commit(id)];
    assert [Prepare(id, plan)] + [InstallGoal(id, goalId, outcome), Commit(id)]
           == [Prepare(id, plan), InstallGoal(id, goalId, outcome), Commit(id)];
  }

  lemma OneStep(s: State, a: Action, rest: seq<Action>, t: State)
    requires Enabled(s, a) && ValidRun(Step(s, a), rest) && After(Step(s, a), rest) == t
    ensures ValidRun(s, [a] + rest) && After(s, [a] + rest) == t
  {
    hide Step, Enabled;
    assert ([a] + rest)[1..] == rest;
  }

  /** Every transition of the roles raises the RuntimeState's revision, and nothing else does. */
  lemma WritesRaiseTheRevision(s: State, a: Action)
    requires Enabled(s, a)
    ensures var t := Step(s, a);
            && (a.Prepare? || a.Track? || a.Other? || t.roles != s.roles ==> t.revision == s.revision + 1)
            && (a.InstallGoal? || a.Drop? || a.CreateGoal? || a.ReviseGoal? ==> t.revision == s.revision)
            && (a.Commit? ==> s.revision <= t.revision <= s.revision + 1)
  {
  }

  /** A native revision projected onto its role replaces its Goal ref only. */
  lemma TrackingMovesOnlyTheRef(s: State, edge: Edge, roleId: string)
    requires Enabled(s, Track(edge, roleId))
    ensures var t := Step(s, Track(edge, roleId));
            && t == s.(roles := s.roles[roleId := t.roles[roleId]], revision := s.revision + 1)
            && t.roles[roleId] == s.roles[roleId].(install := Some(s.roles[roleId].install.value.(goal := Some(edge.goal))))
  {
  }

  /** A commit whose staged revision another transition has passed changes no role. */
  lemma OvertakenCommitChangesNothing(s: State, id: nat)
    requires Enabled(s, Commit(id)) && s.revision != s.calls[id].staged
    ensures Step(s, Commit(id)) == s.(calls := s.calls - {id})
  {
  }

  /** Every recorded Goal ref is one the native Goal has had. */
  lemma RecordedGoalsExist(s: State, run: seq<Action>, roleId: string)
    requires Initial(s) && ValidRun(s, run) && roleId in After(s, run).roles
    requires AppliedRef(After(s, run).roles[roleId]).Some?
    ensures Backed(After(s, run), AppliedRef(After(s, run).roles[roleId]).value)
  {
    RunKeeps(s, run);
    assert RoleBacked(After(s, run), After(s, run).roles[roleId]);
  }
}
