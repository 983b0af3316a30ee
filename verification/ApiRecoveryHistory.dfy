/**
 Two failures of one unknown code, told as whole histories: the continuation in
 between, the turns before and after it, and exactly when the second failure is
 scheduled once more.
 */
module ApiRecoveryHistory {
  import opened Wrappers
  import opened ApiRecoveryRecords
  import opened ApiRecoveryMachine
  import opened ApiRecoveryInvariants
  import opened ApiRecoverySafety
  import opened ApiRecoveryFallback

  // ---- Facts about the fallback -----------------------------------------------

  lemma OnlyRecoveringCarries(w: World, assignment: Assignment, prior: Option<Record>, failure: Failure)
    ensures CarryUnknownFallback(w, assignment, prior, failure) ==> prior.Some? && prior.value.Recovering?
  {
  }

  lemma UnknownTerminal(s: State, step: nat, provider: string, failure: Failure, eventSeq: nat)
    requires s.host.world.status.Running? && s.host.world.assignment.Some? && Classify(failure).Unknown?
    ensures var terminal := TurnTerminal(s, step, provider, failure, eventSeq);
            var spent := CarryUnknownFallback(s.host.world, s.host.world.assignment.value, CurrentRecord(s), failure);
            && terminal.base.turn == s.host.world.status.turn && terminal.base.failure == failure
            && (terminal.Operator? <==> spent) && (terminal.Scheduled? <==> !spent)
  {
    hide CarryUnknownFallback;
  }

  lemma ReachesOne(s: State, run: seq<Action>, t: State, u: State)
    requires Reaches(s, run, t) && Reaches(s, run, u)
    ensures t == u
  {
    hide Step, Enabled;
  }

  // ---- The edge after a continuation -------------------------------------------

  /**
   When the record is continued, the log already holds the end of a later turn,
   and settling the recovery by it takes the spent record out of the table.
   */
  predicate Outlived(s: State)
    requires s.host.store.Some? && Acting(s.host.store.value)
  {
    var w := s.host.world;
    var later := FindLater(w.log, s.host.store.value.base.turn);
    later.Some? && (Closes(w, ResumedRecord(s), later.value) || Accepts(SettledTerminal(w, ResumedRecord(s), later.value)))
  }

  /** The world a continuation leaves. */
  function ContinuedWorld(s: State): World
    requires s.host.store.Some?
  {
    ResumedWorld(Own(s), s.host.world).(saved := |s.host.world.log|, goalSaved := ResumedWorld(Own(s), s.host.world).goal)
  }

  /**
   The idle edge that follows a continuation, with the settling it may start.
   With nothing to settle, a review is claimed again and the claim loses to the
   turn that starts.
   */
  function IdleEdgeRun(w: World, current: Record, id: nat): seq<Action>
    requires w.agent.Some? && current.Recovering?
  {
    [DoAgentReady(w.agent.value)]
    + match FindLater(w.log, current.base.turn)
      case None => if current.resumed.GoalContinuation? then [] else [DoReject(id)] + []
      case Some(later) => SettleRun(w, current, later, id)
  }

  /** A due record's continuation and the idle edge after it. */
  function RecoveryRun(s: State): seq<Action>
    requires s.host.world.agent.Some? && s.host.store.Some? && Acting(s.host.store.value)
  {
    ContinuationRun(s) + IdleEdgeRun(ContinuedWorld(s), ResumedRecord(s), s.host.nextId + 4)
  }

  /** The recovering record is stored and its target is as it says; nothing is under way. */
  predicate Recovered(s: State) {
    var w := s.host.world;
    && s.started && !s.inFlight && s.pending.None? && s.host.queue == []
    && s.host.store.Some? && s.host.store.value.Recovering?
    && w.agent.Some? && w.status.Idle?
    && var resumed := s.host.store.value.resumed;
       if resumed.GoalContinuation? then ExactArmedGoal(w.goal, resumed)
       else AssignmentAndContinuationMatch(w, s.host.store.value, resumed) && w.reviewRoute
  }

  lemma MoveReject(s: State, id: nat)
    requires id in s.host.tasks && s.host.tasks[id].pc.Claiming?
    ensures Moves(s, DoReject(id), ClaimRejected(s, id))
  {
  }

  /** With no later turn end the edge leaves the record: an armed goal at once, a review by its lost claim. */
  lemma NothingToSettle(s: State) returns (t: State)
    requires Inv(s) && Recovered(s) && FindLater(s.host.world.log, s.host.store.value.base.turn).None?
    ensures Reaches(s, IdleEdgeRun(s.host.world, s.host.store.value, s.host.nextId), t)
    ensures t == s.(host := s.host.(nextId := t.host.nextId))
  {
    var w, current := s.host.world, s.host.store.value;
    var caller, id := w.agent.value, s.host.nextId;
    assert Accepts(current) && id !in s.host.tasks;
    var s1 := AgentReady(s, caller);
    MoveAgentReady(s, caller);
    if current.resumed.GoalContinuation? {
      assert s1 == s;
      t := s;
      ReachesNothing(t);
      Prepend(s, DoAgentReady(caller), t, [], t);
    } else {
      assert s1 == Spawn(s.(inFlight := true), Claiming(current, caller, current.resumed, None), Blocked);
      t := ClaimRejected(s1, id);
      assert t.host.tasks == s.host.tasks;
      MoveReject(s1, id);
      hide Step, Enabled, Inv, Moves, Reaches;
      ReachesNothing(t);
      PrependTwo(s, DoAgentReady(caller), s1, DoReject(id), t, [], t);
    }
  }

  lemma IdleEdgeHandled(s: State) returns (t: State)
    requires Inv(s) && Recovered(s)
    ensures var w, current := s.host.world, s.host.store.value;
            && Reaches(s, IdleEdgeRun(w, current, s.host.nextId), t) && Inv(t)
            && t.started && t.pending.None? && t.host.queue == []
            && t.host.store == (match FindLater(w.log, current.base.turn)
                                case None => Some(current)
                                case Some(later) => SettledStore(w, current, later))
            && t.host.world == w.(saved := t.host.world.saved, goalSaved := t.host.world.goalSaved)
  {
    var w, current := s.host.world, s.host.store.value;
    assert Accepts(current) && forall id :: id in s.host.tasks ==> id < s.host.nextId;
    var later := FindLater(w.log, current.base.turn);
    if later.None? {
      hide Step, Enabled, Inv, Moves, Reaches, Accepts;
      t := NothingToSettle(s);
    } else {
      hide Step, Enabled, Inv, Moves, Reaches, Accepts, SettleRun, SettledStore;
      var s1 := AgentReady(s, w.agent.value);
      MoveAgentReady(s, w.agent.value);
      assert s1 == Spawn(s, SettleFlush(later.value, current), Blocked);
      t := SettleHandled(s, current, later.value);
      Prepend(s, DoAgentReady(w.agent.value), s1, SettleRun(w, current, later.value, s.host.nextId), t);
    }
    ReachKeeps(s, IdleEdgeRun(w, current, s.host.nextId), t);
  }

  /** A continued record is a spent fallback for its unknown code. */
  lemma ContinuedIsSpent(s: State)
    requires Inv(s) && ReadyToContinue(s) && Classify(s.host.store.value.base.failure).Unknown?
    ensures Recovered(Continued(s)) && Continued(s).host.world == ContinuedWorld(s)
    ensures var spent := ResumedRecord(s);
            && spent.base == s.host.store.value.base.(fallbackUsed := true) && spent.base.failure.code.Other?
            && Continued(s).host.store == Some(spent)
  {
  }

  /** While goal and assignment stay as the continuation left them, the spent record carries its fallback. */
  lemma SpentCarries(s: State, w: World, failure: Failure)
    requires ReadyToContinue(s) && Classify(s.host.store.value.base.failure).Unknown?
    requires failure.code == s.host.store.value.base.failure.code
    requires w.goal == ContinuedWorld(s).goal && w.assignment == s.host.world.assignment && w.assignment.Some?
    ensures CarryUnknownFallback(w, w.assignment.value, Some(ResumedRecord(s)), failure)
  {
  }

  /** The idle edge leaves the spent record exactly when no later turn outlived it. */
  lemma TableAfterIdleEdge(s: State, w: World, store: Option<Record>)
    requires s.host.store.Some? && Acting(s.host.store.value)
    requires w == s.host.world.(goal := w.goal, saved := w.saved, goalSaved := w.goalSaved)
    requires store == (match FindLater(w.log, s.host.store.value.base.turn)
                       case None => Some(ResumedRecord(s))
                       case Some(later) => SettledStore(w, ResumedRecord(s), later))
    ensures if Outlived(s) then store.None? || !store.value.Recovering? else store == Some(ResumedRecord(s))
  {
    hide Accepts, RetryDelay, Classify, FindLater;
  }

  // ---- Turns run undisturbed -----------------------------------------------------

  /**
   A turn from its start to the handling of its end, `wait` after whatever came
   before.  A reported turn fails and its terminal request error is seen; any
   other just ends.
   */
  datatype Turn =
    | Reported(number: nat, wait: nat, eventSeq: nat, failure: Failure, step: nat, provider: string)
    | Unreported(number: nat, wait: nat, eventSeq: nat, reason: Reason)
  {
    function Event(): TurnEnd {
      TurnEnd(number, eventSeq, if Reported? then Failed(failure) else reason)
    }
  }

  /** An idle agent with its assignment, nothing under way in the store. */
  predicate Quiet(s: State) {
    var w := s.host.world;
    && s.started && s.host.queue == [] && w.status.Idle? && w.agent.Some?
    && w.assignment.Some? && w.assignment.value.sessionId == w.sessionId
    && (CurrentRecord(s).Some? && CurrentRecord(s).value.Awaiting? ==> CurrentRecord(s).value.base.turn <= w.lastTurn)
  }

  predicate Follows(w: World, turn: Turn) {
    && w.lastTurn < turn.number
    && (w.log != [] ==> w.log[|w.log| - 1].eventSeq < turn.eventSeq)
    && (turn.Reported? ==> !Classify(turn.failure).Ignore?)
  }

  function Begun(s: State, turn: Turn): State {
    var w := s.host.world;
    WithWorld(s, w.(now := w.now + turn.wait, status := Running(turn.number, NotCalled), lastTurn := turn.number))
  }

  function Over(s: State, turn: Turn): State {
    var w := s.host.world;
    WithWorld(s, w.(now := w.now + turn.wait, lastTurn := turn.number, log := w.log + [turn.Event()]))
  }

  /** The end settles a recovery of an earlier turn. */
  predicate Ends(s: State, turn: Turn) {
    CurrentRecord(s).Some? && CurrentRecord(s).value.Recovering? && turn.number > CurrentRecord(s).value.base.turn
  }

  function EndRun(s: State, turn: Turn): seq<Action> {
    [TurnEnds(turn.eventSeq, turn.Event().reason)] + ([DoSessionEvent(turn.Event())] +
    (if Ends(s, turn) then SettleRun(Over(s, turn).host.world, CurrentRecord(s).value, turn.Event(), s.host.nextId) else []))
  }

  function TurnRun(s: State, turn: Turn): seq<Action>
    requires Quiet(s)
  {
    [Tick(turn.wait)] + ([TurnStarts(turn.number)] +
    (if turn.Reported? then FailingTurn(Begun(s, turn), turn.step, turn.provider, turn.failure, turn.eventSeq)
     else EndRun(s, turn)))
  }

  predicate Played(s: State, turn: Turn, t: State) {
    Quiet(s) && Follows(s.host.world, turn) && Reaches(s, TurnRun(s, turn), t)
  }

  /** The terminal record of a reported turn, were the schema to take it. */
  function ReportedTerminal(s: State, turn: Turn): Record
    requires turn.Reported? && s.host.world.assignment.Some?
  {
    TurnTerminal(Begun(s, turn), turn.step, turn.provider, turn.failure, turn.eventSeq)
  }

  lemma MoveTick(s: State, wait: nat)
    ensures Moves(s, Tick(wait), WithWorld(s, s.host.world.(now := s.host.world.now + wait)))
  {
  }

  lemma TurnBegins(s: State, turn: Turn) returns (m: State)
    requires Inv(s) && Quiet(s) && Follows(s.host.world, turn)
    ensures Moves(s, Tick(turn.wait), m) && Moves(m, TurnStarts(turn.number), Begun(s, turn)) && Inv(Begun(s, turn))
  {
    hide Inv, Moves, Step, Enabled;
    m := WithWorld(s, s.host.world.(now := s.host.world.now + turn.wait));
    MoveTick(s, turn.wait);
    MoveTurnStarts(m, turn.number);
    MoveKeeps(s, Tick(turn.wait), m);
    MoveKeeps(m, TurnStarts(turn.number), Begun(s, turn));
  }

  /** What a turn leaves of the records: a report replaces or masks them, an end settles a recovery or changes nothing. */
  predicate LeftBy(s: State, turn: Turn, t: State)
    requires Quiet(s)
  {
    var w := s.host.world;
    && t.started && t.host.queue == []
    && t.host.world == Over(s, turn).host.world.(saved := t.host.world.saved, goalSaved := t.host.world.goalSaved)
    && if turn.Reported? then
         && CurrentRecord(t).Some? && !CurrentRecord(t).value.Recovering?
         && CurrentRecord(t).value.base.turn == turn.number
         && (Accepts(ReportedTerminal(s, turn)) ==> t.host.store == Some(ReportedTerminal(s, turn)))
       else if Ends(s, turn) then
         t.pending.None? && t.host.store == SettledStore(Over(s, turn).host.world, CurrentRecord(s).value, turn.Event())
       else t.pending == s.pending && t.host.store == s.host.store
  }

  lemma ReportIsPlayed(s: State, turn: Turn) returns (t: State)
    requires Inv(s) && Quiet(s) && Follows(s.host.world, turn) && turn.Reported?
    ensures Played(s, turn, t) && Inv(t) && LeftBy(s, turn, t)
  {
    var v := Begun(s, turn);
    var m := TurnBegins(s, turn);
    assert ReadyToFail(v, turn.failure, turn.eventSeq);
    hide Step, Enabled, Inv, Moves, Reaches, FailingTurn, Classify, CarryUnknownFallback, RetryDelay;
    t := FailingTurnOutcome(v, turn.step, turn.provider, turn.failure, turn.eventSeq);
    TerminalNeedsCandidateHere(v, turn.step, turn.provider, turn.failure, turn.eventSeq);
    PrependTwo(s, Tick(turn.wait), m, TurnStarts(turn.number), v,
               FailingTurn(v, turn.step, turn.provider, turn.failure, turn.eventSeq), t);
  }

  lemma EndIsPlayed(s: State, turn: Turn) returns (t: State)
    requires Inv(s) && Quiet(s) && Follows(s.host.world, turn) && turn.Unreported?
    ensures Played(s, turn, t) && Inv(t) && LeftBy(s, turn, t)
  {
    var v, o := Begun(s, turn), Over(s, turn);
    var m := TurnBegins(s, turn);
    MoveTurnEnds(v, turn.eventSeq, turn.reason);
    MoveSessionEvent(o, turn.Event());
    EndArrives(s, turn);
    hide Step, Enabled, Inv, Moves, Reaches, SessionEvent, SettleRun, SettledStore;
    var rest := [];
    var s1 := SessionEvent(o, turn.Event());
    if Ends(s, turn) {
      t := SettleHandled(o, CurrentRecord(s).value, turn.Event());
      rest := SettleRun(o.host.world, CurrentRecord(s).value, turn.Event(), s.host.nextId);
    } else {
      t := s1;
      ReachesNothing(t);
    }
    PrependTwo(v, TurnEnds(turn.eventSeq, turn.reason), o, DoSessionEvent(turn.Event()), s1, rest, t);
    PrependTwo(s, Tick(turn.wait), m, TurnStarts(turn.number), v, EndRun(s, turn), t);
    ReachKeeps(s, TurnRun(s, turn), t);
  }

  /** An unreported end concerns a recovery only. */
  lemma EndArrives(s: State, turn: Turn)
    requires Inv(s) && Quiet(s) && Follows(s.host.world, turn)
    ensures var o := Over(s, turn);
            SessionEvent(o, turn.Event())
            == if Ends(s, turn) then Spawn(o, SettleFlush(turn.Event(), CurrentRecord(s).value), Blocked) else o
    ensures Ends(s, turn) ==>
              s.pending.None? && s.host.store == CurrentRecord(s) && Accepts(CurrentRecord(s).value)
    ensures forall id :: id in s.host.tasks ==> id < s.host.nextId
  {
  }

  /** From every quiet state every next turn can be run undisturbed, and leaves a quiet state. */
  lemma TurnIsPlayed(s: State, turn: Turn) returns (t: State)
    requires Inv(s) && Quiet(s) && Follows(s.host.world, turn)
    ensures Played(s, turn, t) && Inv(t) && LeftBy(s, turn, t) && Quiet(t)
  {
    hide Inv, Reaches, TurnRun;
    if turn.Reported? {
      t := ReportIsPlayed(s, turn);
    } else {
      t := EndIsPlayed(s, turn);
    }
    StaysQuiet(s, turn, t);
  }

  lemma StaysQuiet(s: State, turn: Turn, t: State)
    requires Quiet(s) && Follows(s.host.world, turn) && LeftBy(s, turn, t)
    ensures Quiet(t)
  {
    hide Accepts, RetryDelay, Classify;
  }

  lemma PlayedLeaves(s: State, turn: Turn, t: State)
    requires Inv(s) && Played(s, turn, t)
    ensures Inv(t) && LeftBy(s, turn, t) && Quiet(t)
  {
    hide Inv, Reaches, TurnRun, LeftBy, Quiet, Follows;
    var u := TurnIsPlayed(s, turn);
    ReachesOne(s, TurnRun(s, turn), t, u);
  }

  // ---- Histories of turns ----------------------------------------------------------

  predicate History(states: seq<State>, turns: seq<Turn>) {
    && |states| == |turns| + 1
    && forall i :: 0 <= i < |turns| ==> Played(states[i], turns[i], states[i + 1])
  }

  predicate Shows(s: State, spent: Record) { s.pending.None? && s.host.store == Some(spent) }

  predicate Lost(s: State) { CurrentRecord(s).Some? ==> !CurrentRecord(s).value.Recovering? }

  /**
   The turn leaves the spent record alone: it left no candidate, and its end
   settles nothing, as it failed with what the schema refuses.
   */
  predicate Leaves(s: State, spent: Record, turn: Turn)
    requires spent.Recovering?
  {
    turn.Unreported? && !Settles(Over(s, turn).host.world, spent, turn.Event())
  }

  predicate LeftAlone(states: seq<State>, spent: Record, turns: seq<Turn>)
    requires spent.Recovering? && |states| == |turns| + 1
  {
    forall i :: 0 <= i < |turns| ==> Leaves(states[i], spent, turns[i])
  }

  lemma TurnShows(s: State, spent: Record, turn: Turn, t: State)
    requires Inv(s) && Played(s, turn, t) && spent.Recovering? && spent.base.turn <= s.host.world.lastTurn
    requires Shows(s, spent) || Lost(s)
    ensures Shows(t, spent) || Lost(t)
    ensures Shows(t, spent) <==> Shows(s, spent) && Leaves(s, spent, turn)
  {
    PlayedLeaves(s, turn, t);
    hide Inv, Accepts, RetryDelay, Classify, TurnRun, Reaches;
  }

  /** Over any history the spent record stays in sight exactly while every turn leaves it alone. */
  lemma {:induction false} HistoryShows(states: seq<State>, turns: seq<Turn>, spent: Record)
    requires History(states, turns) && Inv(states[0]) && Quiet(states[0])
    requires spent.Recovering? && spent.base.turn <= states[0].host.world.lastTurn
    requires Shows(states[0], spent) || Lost(states[0])
    ensures var t := states[|turns|];
            && Inv(t) && Quiet(t) && (Shows(t, spent) || Lost(t))
            && spent.base.turn <= t.host.world.lastTurn
            && t.host.world.goal == states[0].host.world.goal && t.host.world.assignment == states[0].host.world.assignment
            && (Shows(t, spent) <==>
                  Shows(states[0], spent) && LeftAlone(states, spent, turns))
    decreases |turns|
  {
    if turns != [] {
      var k := |turns| - 1;
      ShorterHistory(states, turns, spent);
      hide *;
      HistoryShows(states[..k + 1], turns[..k], spent);
      TurnShows(states[k], spent, turns[k], states[k + 1]);
      PlayedFrame(states[k], turns[k], states[k + 1]);
    }
  }

  lemma ShorterHistory(states: seq<State>, turns: seq<Turn>, spent: Record)
    requires History(states, turns) && turns != [] && spent.Recovering?
    ensures var k := |turns| - 1;
            && History(states[..k + 1], turns[..k]) && |states| == k + 2 && Played(states[k], turns[k], states[k + 1])
            && (LeftAlone(states, spent, turns) <==>
                  LeftAlone(states[..k + 1], spent, turns[..k]) && Leaves(states[k], spent, turns[k]))
  {
    hide Played, Leaves;
  }

  lemma PlayedFrame(s: State, turn: Turn, t: State)
    requires Inv(s) && Played(s, turn, t)
    ensures Inv(t) && Quiet(t)
    ensures t.host.world.goal == s.host.world.goal && t.host.world.assignment == s.host.world.assignment
    ensures s.host.world.lastTurn <= t.host.world.lastTurn
  {
    PlayedLeaves(s, turn, t);
    hide Inv, Reaches, TurnRun;
  }

  // ---- The second failure, exactly ----------------------------------------------------

  /** The recovery ran, and the spent record is in sight unless a turn that ended before outlived it. */
  lemma RecoveryRuns(s: State) returns (u: State)
    requires Inv(s) && ReadyToContinue(s) && Classify(s.host.store.value.base.failure).Unknown?
    requires s.host.world.assignment.value.sessionId == s.host.world.sessionId
    ensures Reaches(s, RecoveryRun(s), u) && Inv(u) && Quiet(u)
    ensures Shows(u, ResumedRecord(s)) || Lost(u)
    ensures Shows(u, ResumedRecord(s)) <==> !Outlived(s)
    ensures u.host.world == ContinuedWorld(s).(saved := u.host.world.saved, goalSaved := u.host.world.goalSaved)
  {
    u := EdgeReaches(s);
    TableAfterIdleEdge(s, ContinuedWorld(s), u.host.store);
    SettledIsNotAwaiting(ContinuedWorld(s), ResumedRecord(s));
    hide Inv, Reaches, RecoveryRun, Accepts, Outlived, SettledStore, FindLater, ResumedRecord, Classify;
  }

  lemma EdgeReaches(s: State) returns (u: State)
    requires Inv(s) && ReadyToContinue(s) && Classify(s.host.store.value.base.failure).Unknown?
    ensures Reaches(s, RecoveryRun(s), u) && Inv(u)
    ensures u.started && u.pending.None? && u.host.queue == []
    ensures u.host.store == (match FindLater(ContinuedWorld(s).log, ResumedRecord(s).base.turn)
                             case None => Some(ResumedRecord(s))
                             case Some(later) => SettledStore(ContinuedWorld(s), ResumedRecord(s), later))
    ensures u.host.world == ContinuedWorld(s).(saved := u.host.world.saved, goalSaved := u.host.world.goalSaved)
  {
    var t := DueRecordIsContinued(s);
    ContinuedIsSpent(s);
    hide Inv, Reaches, ContinuationRun, IdleEdgeRun, Recovered, SettledStore, FindLater, ResumedRecord, ReadyToContinue,
      ContinuedWorld, Classify;
    u := IdleEdgeHandled(t);
    Append(s, ContinuationRun(s), t, IdleEdgeRun(ContinuedWorld(s), ResumedRecord(s), s.host.nextId + 4), u);
  }

  lemma SettledIsNotAwaiting(w: World, current: Record)
    requires current.Recovering?
    ensures forall event :: var store := SettledStore(w, current, event); store.Some? ==> !store.value.Awaiting?
  {
    hide Accepts, RetryDelay, Classify;
  }

  /** No turn took the spent record: none outlived its continuation, and every turn after it left it alone. */
  predicate Untaken(s: State, states: seq<State>, turns: seq<Turn>)
    requires s.host.store.Some? && Acting(s.host.store.value) && |states| == |turns| + 1
  {
    !Outlived(s) && LeftAlone(states, ResumedRecord(s), turns)
  }

  /**
   Read off the turn, the clock and the target: with the agent there and the
   assignment still the record's, a turn leaves the record alone exactly if it
   failed unreported, was not aborted, and the schema refuses what settling
   would store; so in particular when it refuses the failure itself.
   */
  lemma LeavesPlainly(s: State, spent: Record, turn: Turn)
    requires Quiet(s) && spent.Recovering? && SameAssignmentIdentity(s.host.world.assignment.value, spent)
    ensures Leaves(s, spent, turn) <==>
              && turn.Unreported? && turn.reason.Failed? && !Classify(turn.reason.failure).Ignore?
              && !Accepts(SettledTerminal(Over(s, turn).host.world, spent, turn.Event()))
    ensures turn.Unreported? && turn.reason.Failed? && !Classify(turn.reason.failure).Ignore? ==>
              !FailureAccepted(turn.reason.failure) ==> Leaves(s, spent, turn)
  {
    if turn.Unreported? && turn.reason.Failed? && !Classify(turn.reason.failure).Ignore? {
      assert Accepts(SettledTerminal(Over(s, turn).host.world, spent, turn.Event())) ==>
          BaseAccepted(SettledTerminal(Over(s, turn).host.world, spent, turn.Event()).base);
    }
  }

  /** Over any history after the continuation, the record is in sight exactly while it is untaken. */
  lemma UntakenShows(s: State, states: seq<State>, turns: seq<Turn>)
    requires Inv(s) && ReadyToContinue(s) && Classify(s.host.store.value.base.failure).Unknown?
    requires s.host.world.assignment.value.sessionId == s.host.world.sessionId
    requires s.host.store.value.base.turn <= s.host.world.lastTurn
    requires History(states, turns) && Reaches(s, RecoveryRun(s), states[0])
    ensures var t := states[|turns|];
            && Inv(t) && Quiet(t) && (Shows(t, ResumedRecord(s)) || Lost(t))
            && ResumedRecord(s).base.turn <= t.host.world.lastTurn
            && t.host.world.goal == ContinuedWorld(s).goal && t.host.world.assignment == s.host.world.assignment
            && (Shows(t, ResumedRecord(s)) <==> Untaken(s, states, turns))
  {
    assert ResumedRecord(s).base.turn == s.host.store.value.base.turn && s.host.world.agent.Some?;
    hide Inv, Reaches, RecoveryRun, Outlived, History, Quiet, Shows, Lost, Leaves, ReadyToContinue, ResumedRecord;
    var u := RecoveryRuns(s);
    ReachesOne(s, RecoveryRun(s), states[0], u);
    HistoryShows(states, turns, ResumedRecord(s));
  }

  /**
   The second failure, exactly.  A record of an unknown code is continued, goal
   or review, and the idle edge after it is handled; any turns run undisturbed,
   ending in any way; then one reports a failure of the same code.  That failure
   becomes an operator incident if and only if none of the turns before took the
   spent record: no turn that ended before the continuation outlived it, no turn
   after it reported a failure of its own, and no end settled the record.
   Otherwise it is scheduled once more, on the very same goal and assignment.
   */
  lemma SecondFailureExactly(s: State, states: seq<State>, turns: seq<Turn>, second: Turn, z: State)
    requires Inv(s) && ReadyToContinue(s) && Classify(s.host.store.value.base.failure).Unknown?
    requires s.host.world.assignment.value.sessionId == s.host.world.sessionId
    requires s.host.store.value.base.turn <= s.host.world.lastTurn
    requires History(states, turns) && Reaches(s, RecoveryRun(s), states[0])
    requires second.Reported? && second.failure.code == s.host.store.value.base.failure.code
    requires Played(states[|turns|], second, z)
    ensures z.host.world.goal == ContinuedWorld(s).goal && z.host.world.assignment == s.host.world.assignment
    ensures states[|turns|].host.world.assignment.Some?
    ensures var terminal := ReportedTerminal(states[|turns|], second);
            && terminal.base.turn == second.number && (Accepts(terminal) ==> z.host.store == Some(terminal))
            && (terminal.Operator? <==> Untaken(s, states, turns))
            && (terminal.Scheduled? <==> !Untaken(s, states, turns))
  {
    var last := states[|turns|];
    UntakenShows(s, states, turns);
    PlayedLeaves(last, second, z);
    PlayedFrame(last, second, z);
    SecondTerminal(s, last, second);
  }

  lemma SecondTerminal(s: State, last: State, second: Turn)
    requires ReadyToContinue(s) && Classify(s.host.store.value.base.failure).Unknown?
    requires second.Reported? && second.failure.code == s.host.store.value.base.failure.code
    requires Shows(last, ResumedRecord(s)) || Lost(last)
    requires last.host.world.goal == ContinuedWorld(s).goal && last.host.world.assignment == s.host.world.assignment
    requires last.host.world.assignment.Some?
    ensures var terminal := ReportedTerminal(last, second);
            && terminal.base.turn == second.number
            && (terminal.Operator? <==> Shows(last, ResumedRecord(s)))
            && (terminal.Scheduled? <==> !Shows(last, ResumedRecord(s)))
  {
    var v := Begun(last, second);
    assert Classify(second.failure).Unknown?;
    SpentCarries(s, v.host.world, second.failure);
    OnlyRecoveringCarries(v.host.world, v.host.world.assignment.value, CurrentRecord(v), second.failure);
    UnknownTerminal(v, second.step, second.provider, second.failure, second.eventSeq);
    hide CarryUnknownFallback, TurnTerminal, ReadyToContinue, Classify;
  }

  /**
   A second failure that is never reported, only seen in its turn's end, is not
   scheduled in either case: an untaken record is settled as an operator
   incident, or stays when the schema refuses that, and otherwise nothing changes.
   */
  lemma UnreportedSecondFailure(s: State, states: seq<State>, turns: seq<Turn>, second: Turn, z: State)
    requires Inv(s) && ReadyToContinue(s) && Classify(s.host.store.value.base.failure).Unknown?
    requires s.host.world.assignment.value.sessionId == s.host.world.sessionId
    requires s.host.store.value.base.turn <= s.host.world.lastTurn
    requires History(states, turns) && Reaches(s, RecoveryRun(s), states[0])
    requires second.Unreported? && second.reason.Failed?
    requires second.reason.failure.code == s.host.store.value.base.failure.code
    requires Played(states[|turns|], second, z)
    ensures if Untaken(s, states, turns) then
              z.host.store.Some? && (z.host.store.value.Operator? || z.host.store == Some(ResumedRecord(s)))
            else z.pending == states[|turns|].pending && z.host.store == states[|turns|].host.store
  {
    var last := states[|turns|];
    UntakenShows(s, states, turns);
    PlayedLeaves(last, second, z);
    if Untaken(s, states, turns) {
      SameCodeSettles(s, Over(last, second).host.world, second.Event());
    }
    hide Inv, Reaches, RecoveryRun, Outlived, History, Untaken, ReadyToContinue, ResumedRecord, Accepts, SettledStore;
  }

  lemma SameCodeSettles(s: State, w: World, event: TurnEnd)
    requires ReadyToContinue(s) && Classify(s.host.store.value.base.failure).Unknown?
    requires w.agent.Some? && w.assignment == s.host.world.assignment
    requires event.reason.Failed? && event.reason.failure.code == s.host.store.value.base.failure.code
    ensures var store := SettledStore(w, ResumedRecord(s), event);
            store.Some? && (store.value.Operator? || store == Some(ResumedRecord(s)))
  {
    hide Accepts, RetryDelay;
  }

  // ---- The bound over every run ----------------------------------------------------

  /**
   From the first failure to the second.  A turn fails with an unknown code and
   is scheduled; whatever happens then, the record is still stored when it is
   continued.  After that, in every run without adapter update or crash, with
   the target unchanged, in which no turn before takes the spent record, a later
   turn failing with the same code is never scheduled: not in the table and not
   in any queued write, under every interleaving and every failing write.
   */
  lemma SecondFailureIsNotScheduled(s0: State, step: nat, provider: string, failure: Failure, eventSeq: nat, t1: State,
                                    between: seq<Action>, s: State, t: State, turn: nat, rest: seq<Action>)
    requires Inv(s0) && ReadyToFail(s0, failure, eventSeq) && Classify(failure).Unknown?
    requires Reaches(s0, FailingTurn(s0, step, provider, failure, eventSeq), t1)
    requires t1.host.store == Some(TurnTerminal(s0, step, provider, failure, eventSeq)) && t1.host.store.value.Scheduled?
    requires Reaches(t1, between, s) && s.host.store == t1.host.store && ReadyToContinue(s)
    requires s.host.world.lastTurn < turn && s0.host.world.status.turn < turn
    requires forall e :: e in s.host.world.log ==> e.turn < turn
    requires Reaches(s, ContinuationRun(s), t)
    requires ValidRun(t, rest) && AllowedRun(Fallback(ResumedRecord(s), turn), t, rest)
    ensures var h := After(t, rest).host;
            && (h.store.Some? && h.store.value.base.turn == turn && !h.store.value.Awaiting? ==> h.store.value.Operator?)
            && (forall i :: 0 <= i < |h.queue| && h.queue[i].Put? && h.queue[i].record.base.turn == turn ==>
                  !h.queue[i].record.Scheduled?)
  {
    hide Step, Enabled, Inv, Reaches, FailingTurn, ContinuationRun, AllowedRun, Classify, ResumedRecord, ReadyToContinue,
      CandidateBase, TurnTerminal, Settled, FindLater, Continued, Accepts, ReadyToFail, CarryUnknownFallback, Allowed;
    assert s.host.store.Some? && s.host.store.value.Scheduled?;
    assert s.host.world.agent.Some? by { AgentWhenContinuing(s); }
    RunningWhenFailing(s0, failure, eventSeq);
    UnknownTerminal(s0, step, provider, failure, eventSeq);
    ReachKeeps(s0, FailingTurn(s0, step, provider, failure, eventSeq), t1);
    ReachKeeps(t1, between, s);
    var u := DueRecordIsContinued(s);
    ReachesOne(s, ContinuationRun(s), t, u);
    ContinuedIsSpent(s);
    ContinuedIsSettled(s, turn);
    UnknownFallbackBound(Fallback(ResumedRecord(s), turn), t, rest);
  }

  lemma AgentWhenContinuing(s: State)
    requires ReadyToContinue(s)
    ensures s.host.world.agent.Some?
  {
  }

  lemma ContinuedIsSettled(s: State, turn: nat)
    requires ReadyToContinue(s) && Classify(s.host.store.value.base.failure).Unknown?
    requires s.host.store.value.base.turn < turn && s.host.world.lastTurn < turn
    requires forall e :: e in s.host.world.log ==> e.turn < turn
    ensures var f := Fallback(ResumedRecord(s), turn); f.Proper() && Settled(f, Continued(s))
  {
  }

  // ---- The families in which the second failure is scheduled --------------------------

  /**
   The first failing family: no continuation in between.  When a further turn
   starts while the first failure is still only scheduled and fails with the
   same unknown code, both failures become scheduled (when the schema takes
   them), with goal and assignment unchanged, no adapter update, no failed
   write and no crash.
   */
  lemma UserTurnBeforeContinuationIsScheduledAgain(s: State, step: nat, provider: string, failure: Failure,
                                                    seq1: nat, seq2: nat, later: nat)
    returns (t: State, u: State, v: State)
    requires Inv(s) && ReadyToFail(s, failure, seq1) && Classify(failure).Unknown?
    requires CurrentRecord(s).Some? ==> !CurrentRecord(s).value.Recovering?
    requires Accepts(TurnTerminal(s, step, provider, failure, seq1))
    requires seq1 < seq2 && s.host.world.lastTurn < later
    ensures Reaches(s, FailingTurn(s, step, provider, failure, seq1), t)
    ensures Moves(t, TurnStarts(later), u)
    ensures u.host.world.status.Running? && u.host.world.assignment.Some?
    ensures Reaches(u, FailingTurn(u, step, provider, failure, seq2), v)
    ensures t.host.store == Some(TurnTerminal(s, step, provider, failure, seq1)) && t.host.store.value.Scheduled?
    ensures var second := TurnTerminal(u, step, provider, failure, seq2);
            second.Scheduled? && second.base.turn == later && (Accepts(second) ==> v.host.store == Some(second))
    ensures v.host.world.goal == s.host.world.goal && v.host.world.assignment == s.host.world.assignment
  {
    hide Step, Enabled, Inv, Reaches, FailingTurn, Accepts, Classify, RetryDelay;
    t := FailingTurnOutcome(s, step, provider, failure, seq1);
    UnknownTerminal(s, step, provider, failure, seq1);
    OnlyRecoveringCarries(s.host.world, s.host.world.assignment.value, CurrentRecord(s), failure);
    TerminalNeedsCandidateHere(s, step, provider, failure, seq1);
    MoveTurnStarts(t, later);
    u := WithWorld(t, t.host.world.(status := Running(later, NotCalled), lastTurn := later));
    MoveKeeps(t, TurnStarts(later), u);
    UnknownTerminal(u, step, provider, failure, seq2);
    OnlyRecoveringCarries(u.host.world, u.host.world.assignment.value, CurrentRecord(u), failure);
    v := FailingTurnOutcome(u, step, provider, failure, seq2);
  }

  /**
   The third and fourth: a turn runs after the continuation.  If it completes,
   or is aborted, its end settles the spent record; if it reports a failure of
   its own, of any code and whatever the schema makes of it, its candidate
   replaces or masks the record.  The next failure of the first code is
   scheduled again, with no turn end outliving the continuation, goal and
   assignment unchanged, no adapter update, no failed write and no crash.
   */
  lemma TurnAfterContinuationIsScheduledAgain(s: State, mid: Turn, second: Turn)
    returns (u: State, m: State, z: State)
    requires Inv(s) && ReadyToContinue(s) && Classify(s.host.store.value.base.failure).Unknown?
    requires s.host.world.assignment.value.sessionId == s.host.world.sessionId
    requires s.host.store.value.base.turn <= s.host.world.lastTurn
    requires Follows(s.host.world, mid) && mid.number < second.number && mid.eventSeq < second.eventSeq
    requires mid.Reported? || mid.reason.Completed? || Classify(mid.reason.failure).Ignore?
    requires second.Reported? && second.failure.code == s.host.store.value.base.failure.code
    ensures Reaches(s, RecoveryRun(s), u) && Played(u, mid, m) && Played(m, second, z) && m.host.world.assignment.Some?
    ensures var terminal := ReportedTerminal(m, second);
            terminal.Scheduled? && terminal.base.turn == second.number
            && (Accepts(terminal) ==> z.host.store == Some(terminal))
    ensures z.host.world.goal == ContinuedWorld(s).goal && z.host.world.assignment == s.host.world.assignment
  {
    u := RecoveryRuns(s);
    AfterTheEdge(s, u, mid);
    m := TurnIsPlayed(u, mid);
    AfterTheTurn(s, u, mid, m, second);
    z := TurnIsPlayed(m, second);
    hide *;
    MidIsNotLeft(u, ResumedRecord(s), mid);
    var states, turns := [u, m], [mid];
    OneTurn(u, mid, m);
    SecondFailureExactly(s, states, turns, second, z);
    NotUntaken(s, states, turns);
  }

  lemma AfterTheEdge(s: State, u: State, mid: Turn)
    requires Follows(s.host.world, mid) && s.host.store.Some?
    requires u.host.world == ContinuedWorld(s).(saved := u.host.world.saved, goalSaved := u.host.world.goalSaved)
    ensures Follows(u.host.world, mid)
  {
  }

  lemma AfterTheTurn(s: State, u: State, mid: Turn, m: State, second: Turn)
    requires Quiet(u) && LeftBy(u, mid, m)
    requires mid.number < second.number && mid.eventSeq < second.eventSeq
    requires s.host.store.Some? && Classify(s.host.store.value.base.failure).Unknown?
    requires second.Reported? && second.failure.code == s.host.store.value.base.failure.code
    ensures Follows(m.host.world, second)
  {
  }

  lemma MidIsNotLeft(u: State, spent: Record, mid: Turn)
    requires spent.Recovering?
    requires mid.Reported? || mid.reason.Completed? || Classify(mid.reason.failure).Ignore?
    ensures !Leaves(u, spent, mid)
  {
  }

  lemma OneTurn(u: State, mid: Turn, m: State)
    requires Played(u, mid, m)
    ensures History([u, m], [mid])
  {
  }

  lemma NotUntaken(s: State, states: seq<State>, turns: seq<Turn>)
    requires s.host.store.Some? && Acting(s.host.store.value) && |states| == |turns| + 1 && turns != []
    requires !Leaves(states[0], ResumedRecord(s), turns[0])
    ensures !Untaken(s, states, turns)
  {
  }

  const ODD := Failure("m", Other("odd"), None, None, None)

  /** Turn 1 failed with an odd code and is scheduled, due at once, on an idle agent; `later` ended since. */
  function Example(own: Continuation, later: seq<TurnEnd>): State {
    var record := Scheduled(Base(Assignment("l", "r", "s", "a", "p", own), 1, 1, "v", ODD, 0, false), 0, 0.0);
    var goal := Goal(0, 1, Active, false, "h", 0, 9);
    State(true, None, false, None,
          Host(Some(record), [], map[], 0, [], 0,
               World("s", 0, Some(0), 1, Idle, 1 + |later|, [TurnEnd(1, 0, Failed(ODD))] + later, 1 + |later|, goal, goal,
                     Some(record.base.assignment), true, true, 10.0)))
  }

  lemma ExampleIsDue(own: Continuation, later: seq<TurnEnd>)
    requires own == GoalContinuation(0, 1, "h") || own == ReviewContinuation("r", "h")
    ensures Inv(Example(own, later)) && ReadyToContinue(Example(own, later))
  {
    var s := Example(own, later);
    assert Owners(s) == {};
    assert Durable(s.host.world) == s.host.world.log && Origin(s.host.store.value) == s.host.world.log[0];
  }

  /**
   These families are not empty: a state with no turn end after its record's,
   for a goal or for a review, a completed or failing turn, and the second failure.
   */
  lemma TurnAfterContinuationExists(review: bool, reported: bool) returns (s: State, mid: Turn, second: Turn)
    ensures Inv(s) && ReadyToContinue(s) && Classify(s.host.store.value.base.failure).Unknown?
    ensures Own(s).ReviewContinuation? <==> review
    ensures s.host.world.assignment.value.sessionId == s.host.world.sessionId
    ensures s.host.store.value.base.turn <= s.host.world.lastTurn && !Outlived(s)
    ensures Follows(s.host.world, mid) && mid.number < second.number && mid.eventSeq < second.eventSeq
    ensures if reported then mid.Reported? && Classify(mid.failure).Automatic? else mid.Unreported? && mid.reason.Completed?
    ensures second.Reported? && second.failure.code == s.host.store.value.base.failure.code
  {
    var own := if review then ReviewContinuation("r", "h") else GoalContinuation(0, 1, "h");
    s := Example(own, []);
    ExampleIsDue(own, []);
    hide Inv, ReadyToContinue, Closes, SettledTerminal, Accepts;
    mid := if reported then Reported(2, 0, 1, Failure("m", RateLimit, None, None, None), 1, "v")
           else Unreported(2, 0, 1, Completed);
    second := Reported(3, 0, 2, ODD, 1, "v");
  }

  /**
   The second failing family exists: a turn that ended normally between the
   first failure and its continuation outlives the continuation.
   */
  lemma OutlivedContinuationExists() returns (s: State)
    ensures Inv(s) && ReadyToContinue(s) && Classify(s.host.store.value.base.failure).Unknown?
    ensures s.host.world.assignment.value.sessionId == s.host.world.sessionId
    ensures FindLater(s.host.world.log, s.host.store.value.base.turn) == Some(TurnEnd(2, 1, Completed)) && Outlived(s)
  {
    var own, later := GoalContinuation(0, 1, "h"), TurnEnd(2, 1, Completed);
    s := Example(own, [later]);
    ExampleIsDue(own, [later]);
    assert s.host.world.log[|s.host.world.log| - 1] == later;
  }

  /**
   Straight through the awaiting record: from a spent fallback with target and
   assignment unchanged, the next turn failing with the same code always ends
   as an operator incident, when the schema takes it.
   */
  lemma SpentFallbackGoesToOperator(f: Fallback, s: State, step: nat, provider: string, failure: Failure, eventSeq: nat)
    returns (u: State, t: State)
    requires f.Proper() && Inv(s) && Settled(f, s) && Unchanged(f, s.host.world) && s.started
    requires failure.code == f.Code()
    requires s.host.world.log != [] ==> s.host.world.log[|s.host.world.log| - 1].eventSeq < eventSeq
    ensures Moves(s, TurnStarts(f.turn), u) && u.host.world.status.Running? && u.host.world.assignment.Some?
    ensures Reaches(u, FailingTurn(u, step, provider, failure, eventSeq), t)
    ensures var terminal := TurnTerminal(u, step, provider, failure, eventSeq);
            terminal.Operator? && terminal.base.turn == f.turn && (Accepts(terminal) ==> t.host.store == Some(terminal))
  {
    hide Step, Enabled, Inv, Reaches, FailingTurn, Accepts;
    MoveTurnStarts(s, f.turn);
    u := WithWorld(s, s.host.world.(status := Running(f.turn, NotCalled), lastTurn := f.turn));
    MoveKeeps(s, TurnStarts(f.turn), u);
    UnknownTerminal(u, step, provider, failure, eventSeq);
    t := FailingTurnOutcome(u, step, provider, failure, eventSeq);
  }

  /** A spent fallback with everything unchanged exists, so the bound is about something. */
  lemma SpentFallbackExists() returns (f: Fallback, s: State)
    ensures f.Proper() && Inv(s) && Settled(f, s) && Unchanged(f, s.host.world) && s.started
    ensures ValidRun(s, [TurnStarts(f.turn)]) && AllowedRun(f, s, [TurnStarts(f.turn)])
  {
    var failure := Failure("m", Other("odd"), None, None, None);
    var own, resumed := GoalContinuation(0, 1, "h"), GoalContinuation(0, 2, "h");
    var assignment := Assignment("l", "r", "s", "a", "p", own);
    var spent := Recovering(Base(assignment, 1, 1, "v", failure, 0, true), 0, resumed, 0);
    var goal := Goal(0, 2, Active, true, "h", 0, 9);
    var w := World("s", 0, Some(0), 1, Idle, 1, [TurnEnd(1, 0, Failed(failure))], 1, goal, goal, Some(assignment), true,
                   true, 10.0);
    f := Fallback(spent, 2);
    s := State(true, None, false, None, Host(Some(spent), [], map[], 0, [], 0, w));
    assert Owners(s) == {};
    assert Durable(w) == w.log && Origin(spent) == w.log[0];
    assert After(s, []) == s;
  }
}
