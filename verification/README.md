# DSH AutoLab: durable recovery, freezes and activation

AutoLab runs long research sessions whose agents, goals, reviews and experiment
attempts must survive provider failures, restarts and crashes. This project
models the parts that carry that promise and proves what they keep over whole
runs. `dafny verify dfyconfig.toml` checks it.

- **API recovery** (`ApiRecovery*.dfy`, `RecoveryStore.dfy`, `KeyedQueue.dfy`).
  One Session's slice of `ApiRecoveryRuntime` is a state machine with one step
  per stretch between two awaits; the class `ApiRecoveryRuntime` performs the
  same stretches on the source's maps, and `Execute` says that whole histories
  of the object are machine runs, Session by Session. The environment starts and
  ends turns, moves goals and assignments, fails writes and flushes, and crashes
  at any point. The store and the promise chain under it are separate machines. What every
  edge answers is told situation by situation in `ApiRecoveryAnswers.dfy`.
- **Attempt edges** (`AttemptRuntime.dfy`). One target's serialized edges and
  one-shot timers, with every other writer of the Lab's RuntimeState as the
  environment, and the class `AttemptRuntimeConsumer` over its own maps.
- **Revision commits** (`Artifacts.dfy`) and **Lane candidates**
  (`Candidate.dfy`). File protocols in which every step may fail or be the
  last. A digest is an arbitrary function, so nothing rests on collision
  freedom.
- **Configuration transcript** (`Dialogue.dfy`), **review freeze**
  (`ReviewFreeze.dfy`) and **Coder activation** (`CoderActivation.dfy`).

What the environment is trusted for: turn numbers and event seqs increase, and
a turn ends once, after its terminal request-error hook has answered;
maintenance excludes turns, and the agent is not replaced inside it;
`goals.resume` is a compare-and-set that raises the revision by one and arms
the goal, and no one else arms a goal without raising its revision; goals are
numbered in creation order; a store or table operation that fails has no
effect; owner tokens are fresh; only AutoLab writes its own artifact files.

Results that are not what one would first expect:

- `promoteOperator` spreads the old record, and the strict operator schema
  refuses every such object. A mechanical failure whose rounds ran out therefore
  never becomes an operator incident (`OnlyHopelessFailuresReachTheOperator`);
  its record stalls, every pass changing nothing (`ClaimedExactlyWhenAvailable`).
- The unknown-failure fallback bounds two failures of one code only while nothing
  takes the spent record from between them, although target and assignment stay
  the same. It is not yet there while the first failure is only scheduled
  (`UserTurnBeforeContinuationIsScheduledAgain`); a turn that ended before the
  continuation settles it at the next idle edge (`OutlivedContinuationExists`);
  and after the continuation a turn that completes or is aborted settles it,
  while one that reports any failure of its own replaces it, or masks it by a
  candidate the schema refuses (`TurnAfterContinuationIsScheduledAgain`).
  `SecondFailureExactly` is the exact condition over every sequence of
  undisturbed turns after the continuation of a goal or a review, and
  `SecondFailureIsNotScheduled` the bound over every interleaving.
- A failure with a zero, negative or infinite Retry-After, an empty code or an
  empty request id is refused by the durable schema and stays in memory only
  (`RefusedFailureStaysInMemory`); a fractional Retry-After leaves a candidate
  whose deadline is refused (`FailingTurnOutcome`).
- `sameRecord` is not reflexive on a NaN Retry-After, which the schema refuses.
- `freezeDraftRevision` reads the draft twice: a new revision freezes the second
  reading, an existing one is compared with the first.
- A revision number frozen under other hashes is refused with HASH_MISMATCH by
  the reader; the REVISION_EXISTS comparison of hashes behind it never fires.
- A transcript append that stops inside a record makes the log unreadable, and
  every later append is refused.
- `applyApprovedCoderGoal` alone would lower a recorded Goal revision when it is
  replayed with an older result; the revision fence of its caller excludes it.

## Model

| member | source | states |
|---|---|---|
| ApiRecoveryRecords.RetryDelay | dsh-autolab/src/api-recovery.ts:950-956 | a finite positive Retry-After is obeyed to the fraction of a millisecond; every other value, and none, yields the configured delay |
| ApiRecoveryRecords.CodeTable | dsh-autolab/src/api-recovery.ts:20-57 | the code alone decides: two tables are recovered mechanically or left to the operator, an abort is ignored, every other code is unknown |
| ApiRecoveryRecords.SameFailure | dsh-autolab/src/api-recovery.ts:1002-1008 | decides equality of failures, except that a NaN Retry-After equals nothing |
| ApiRecoveryRecords.SameContinuation | dsh-autolab/src/api-recovery.ts:1062-1076 | decides equality of continuations |
| ApiRecoveryRecords.SameRecord | dsh-autolab/src/api-recovery.ts:1026-1060 | decides equality over all four phases, except for a NaN Retry-After |
| ApiRecoveryRecords.SameRecordDecidesEquality | dsh-autolab/src/api-recovery.ts:1026-1076 | on every record the durable schema accepts the test is equality; NaN is the one value on which it is not reflexive |
| ApiRecoveryRecords.ParseInvertsToRaw | dsh-autolab/src/api-recovery-store.ts:54-74 | parsing a plain object yields a record exactly when the strict schema accepts it, and then it is the object of that record |
| ApiRecoveryRecords.RawIsInjective | dsh-autolab/src/api-recovery-store.ts:105-112 | two records have one plain-object form only if they are equal, so comparing canonical texts compares records |
| ApiRecoveryRecords.AcceptedInAnyPhase | dsh-autolab/src/api-recovery-store.ts:12-74 | what the strict schema takes as a candidate it takes as an operator record, and as a scheduled one exactly if the deadline is a safe whole number |
| ApiRecoveryRecords.FailureExactly | dsh-autolab/src/api-recovery-store.ts:10-18 | the failures the schema takes: a code, a safe status, a finite positive Retry-After, a request id if any |
| ApiRecoveryRecords.BaseExactly | dsh-autolab/src/api-recovery-store.ts:39-52 | the shared fields it takes: no empty name, positive turn and step, safe numbers, a real target |
| ApiRecoveryRecords.PromotionRefusedByStrictSchema | dsh-autolab/src/api-recovery.ts:812-826 | the object spread by `promoteOperator` is accepted exactly for phases without extra fields, so for neither phase the runtime promotes, although the record it means is accepted |
| ApiRecoverySafety.RecordProvenance | dsh-autolab/src/api-recovery.ts:303-349 | in every reachable state a stored scheduled, recovering or operator record is backed by a durable `turn/end` error event with its turn, failure and position |
| ApiRecoverySafety.StoredRecordsFitSchema | dsh-autolab/src/api-recovery-store.ts:12-102 | in every reachable state the stored record and every queued write are ones the strict schema accepts |
| ApiRecoverySafety.ExactTargets | dsh-autolab/src/api-recovery.ts:558-683 | every continuation ever applied met the acting record in the store, the matching assignment, the live agent and the exact active, disarmed goal, and never a scheduled record before its due time |
| ApiRecoverySafety.OneContinuationInFlight | dsh-autolab/src/api-recovery.ts:612-683 | two activations that own the in-flight mark are the same one, and the mark is set |
| ApiRecoverySafety.NoTurnDuringContinuation | dsh-autolab/src/api-recovery.ts:627-683 | between a continuation and its settled write no turn starts and no request error arrives |
| ApiRecoverySafety.GoalRevisionsConsumedOnce | dsh-autolab/src/api-recovery.ts:685-704 | the surviving resumes consumed strictly increasing goal revisions, all below the live goal |
| ApiRecoverySafety.ScheduledRecordResumesOnce | dsh-autolab/src/api-recovery.ts:529-556 | across failed writes, restarts and crashes one scheduled record has at most one surviving `goals.resume` |
| ApiRecoverySafety.DueRecordIsContinued | dsh-autolab/src/api-recovery.ts:612-704 | a due record on its exact target is continued once: a goal is resumed at the next revision, a review's judge is woken; the recovering record names exactly that continuation, with its fallback spent for an unknown code, log and goal are durable, the agent is idle and nothing else changed |
| ApiRecoverySafety.ClaimIsContinued | dsh-autolab/src/api-recovery.ts:627-704 | a claim nothing stands against, whatever edge made it, continues its record once: exactly one effect, the recovering record of exactly that continuation, a checkpoint, an idle agent |
| ApiRecoverySafety.NextPassAdoptsLandedResume | dsh-autolab/src/api-recovery.ts:732-752 | when the resume landed but the recovering write did not, the next pass stores the recovering record at the landed revision and does not touch the goal |
| ApiRecoverySafety.LandedResumeIsFinal | dsh-autolab/src/api-recovery.ts:529-610 | while every change of the goal leaves it armed, it stays armed and no run resumes a goal again, through any record, restart or crash that keeps the goal |
| ApiRecoverySafety.ArmedGoalIsNotTouched | dsh-autolab/src/api-recovery.ts:706-717 | no single step of the runtime touches an armed goal |
| ApiRecoverySafety.ShapeGuardsHold | dsh-autolab/src/api-recovery.ts:503-527 | the armed timer can always fire, and every suspended activation holds the phase its resumption needs |
| ApiRecoverySafety.RunKeeps | dsh-autolab/src/api-recovery.ts:196-918 | every run keeps provenance, exact effects, the single in-flight owner and the order of consumed revisions |
| ApiRecoveryAnswers.DueEdgeContinues | dsh-autolab/src/api-recovery.ts:512-556 | a due record on its exact target, with a round or a route left, runs to its recovering record from its timer, from an idle edge and from an adapter update alike |
| ApiRecoveryAnswers.LandedEdgeAdopts | dsh-autolab/src/api-recovery.ts:732-752 | from the same edges a resume that already landed is recorded at the landed revision and not repeated |
| ApiRecoveryAnswers.DriftedEdgeRemoves | dsh-autolab/src/api-recovery.ts:529-556 | from the same edges a due record whose target drifted is removed with its timer, exactly it |
| ApiRecoveryAnswers.ExhaustedEdgeStalls | dsh-autolab/src/api-recovery.ts:612-625 | with no round or route left the edge changes nothing |
| ApiRecoveryAnswers.EarlyEdgeArms | dsh-autolab/src/api-recovery.ts:503-522 | an early edge arms the record, an early callback arms it anew, unless timers are unavailable |
| ApiRecoveryAnswers.BusyEdgeWaits | dsh-autolab/src/api-recovery.ts:529-545 | a due record waits while a continuation is in flight or the agent is busy or gone |
| ApiRecoveryAnswers.CreatedOrStartedArms | dsh-autolab/src/api-recovery.ts:351-394 | a scheduled record is armed when its agent appears and when the runtime starts |
| ApiRecoveryAnswers.WaitingRecoveryIsRetried | dsh-autolab/src/api-recovery.ts:558-610 | a recovering record whose goal is disarmed again at the resumed ref, whose original ref a crash brought back, or whose review is still assigned, is continued once more, a goal to the next revision; from every idle edge, its agent's creation and a start |
| ApiRecoveryAnswers.ArmedRecoveryIsLeft | dsh-autolab/src/api-recovery.ts:577-585 | an armed goal at the resumed ref is left alone |
| ApiRecoveryAnswers.LostRecoveryIsRemoved | dsh-autolab/src/api-recovery.ts:558-610 | in every other situation of an idle agent the recovering record is removed, exactly it |
| ApiRecoveryAnswers.ExhaustedRecoveryStalls | dsh-autolab/src/api-recovery.ts:612-625 | a waiting recovery without a round or route left stays as it is |
| ApiRecoveryAnswers.BusyRecoveryWaits | dsh-autolab/src/api-recovery.ts:558-566 | a recovery waits while a continuation is in flight or the agent is busy |
| ApiRecoveryAnswers.AdapterUpdateReschedules | dsh-autolab/src/api-recovery.ts:436-460 | an adapter update reschedules an operator record on its exact target to now, stores that, and continues it |
| ApiRecoveryAnswers.DriftedOperatorIsRemoved | dsh-autolab/src/api-recovery.ts:436-460 | an operator record whose target drifted is removed by the update |
| ApiRecoveryAnswers.OperatorRecordStays | dsh-autolab/src/api-recovery.ts:436-501 | every other edge, and an update without room or with a busy agent, leaves an operator record to the operator |
| ApiRecoveryAnswers.MissedEndIsHandled | dsh-autolab/src/api-recovery.ts:462-480 | a candidate whose turn has ended is handled by the last such end at any edge, as if it were delivered now |
| ApiRecoveryAnswers.MissedEndSettles | dsh-autolab/src/api-recovery.ts:484-493 | a recovering record is settled at any edge by the last end of a later turn |
| ApiRecoveryAnswers.CandidateWaits | dsh-autolab/src/api-recovery.ts:462-480 | until its turn has ended a candidate waits |
| ApiRecoveryAnswers.OtherEndsAreIgnored | dsh-autolab/src/api-recovery.ts:303-313 | a turn end that is neither the candidate's nor later than the recovery's is ignored |
| ApiRecoveryAnswers.OtherEndDropsCandidate | dsh-autolab/src/api-recovery.ts:316-322 | a candidate whose turn ended in another way is dropped from pending map, table and timer |
| ApiRecoveryAnswers.FailedFlushWaits | dsh-autolab/src/api-recovery.ts:314-316 | a failed flush ends its activation and nothing else |
| ApiRecoveryAnswers.SupersededFlushOnlySaves | dsh-autolab/src/api-recovery.ts:316-318 | a flush that comes back to another record or a stopped runtime only made the log durable |
| ApiRecoveryAnswers.RequestErrorWithoutCandidate | dsh-autolab/src/api-recovery.ts:258-270 | a retried error, an abort, and an error without agent or assignment leave no candidate; the hook is answered |
| ApiRecoveryAnswers.StoppedIsInert | dsh-autolab/src/api-recovery.ts:246-252 | a stopped runtime answers no edge |
| ApiRecoveryAnswers.StartAndDisposeOnce | dsh-autolab/src/api-recovery.ts:214-252 | starting twice is starting once; disposing forgets the timer only |
| ApiRecoveryAnswers.NothingToDo | dsh-autolab/src/api-recovery.ts:351-400 | without a record no edge does anything |
| ApiRecoveryAnswers.StartWithoutAgentWaits | dsh-autolab/src/api-recovery.ts:351-379 | a start without an agent arms scheduled records only |
| ApiRecoveryAnswers.RefusedRecordsAreNotQueued | dsh-autolab/src/api-recovery-store.ts:97-106 | a put or remove of a record the schema refuses queues nothing |
| ApiRecoveryAnswers.StoreAnswersItsActivation | dsh-autolab/src/api-recovery-store.ts:97-126 | the head of the store queue takes effect or not, and its activation learns which |
| ApiRecoveryAnswers.FailedPublicationChangesNothing | dsh-autolab/src/api-recovery.ts:323-348 | a failed publication changes nothing |
| ApiRecoveryAnswers.RemoveWithoutEffect | dsh-autolab/src/api-recovery.ts:799-810 | a remove that failed or met another record keeps the timer; the mark goes with its owner |
| ApiRecoveryAnswers.FailedWriteReleases | dsh-autolab/src/api-recovery.ts:655-673 | a failed recovering write leaves maintenance and gives the mark back, and the old record stays |
| ApiRecoveryAnswers.CheckpointReleases | dsh-autolab/src/api-recovery.ts:655-661 | the checkpoint ends the continuation, durable or not |
| ApiRecoveryAnswers.ClaimEndsWithoutEffect | dsh-autolab/src/api-recovery.ts:662-683 | a refused claim, a stopped runtime and a throwing judge end the claim and keep the record |
| ApiRecoveryAnswers.ThrowingResumeLeavesGoal | dsh-autolab/src/api-recovery.ts:685-694 | a goal whose resume throws is left as it was, and the record with it |
| ApiRecoveryAnswers.StaleClaimCloses | dsh-autolab/src/api-recovery.ts:629-640 | inside maintenance a record, agent, target or route that is no longer exactly there closes the record |
| ApiRecoveryAnswers.StaleReviewCloses | dsh-autolab/src/api-recovery.ts:696-704 | a judge that answers stale closes the record |
| ApiRecoveryAnswers.ClosingRemovesItsRecord | dsh-autolab/src/api-recovery.ts:662-666 | closing removes exactly its record, if it is still the stored one, and gives the mark back |
| ApiRecoveryPromotion.OnlyHopelessFailuresReachTheOperator | dsh-autolab/src/api-recovery.ts:316-348 | in every reachable state a stored operator incident has an operator code, or an unknown code with its fallback spent: no mechanical failure is ever promoted |
| ApiRecoveryPromotion.ClaimedExactlyWhenAvailable | dsh-autolab/src/api-recovery.ts:612-625 | a due record on its exact target is claimed exactly when rounds or a review route are left; otherwise the refused promotion changes nothing, pass after pass |
| ApiRecoveryPromotion.StalledRecordExists | dsh-autolab/src/api-recovery.ts:612-625 | a due rate limit on its exact target whose goal has no round left |
| ApiRecoveryPromotion.RunSorted | dsh-autolab/src/api-recovery.ts:196-918 | every run keeps operator records hopeless and candidates free of aborts |
| ApiRecoveryFallback.UnknownFallbackBound | dsh-autolab/src/api-recovery.ts:271-348 | from a settled spent fallback of a goal or a review, in every run without adapter update or crash, with the target unchanged, in which no turn before takes the record away, a later failure of the same unknown code is never scheduled, whichever way its terminal arrives and however the turns before end |
| ApiRecoveryFallback.CarriesExactly | dsh-autolab/src/api-recovery.ts:763-786 | a candidate inherits a spent fallback exactly from a current recovering record that spent it on the same unknown code, for the same assignment and the unmoved target |
| ApiRecoveryFallback.FailingTurnOutcome | dsh-autolab/src/api-recovery.ts:258-349 | a turn failing undisturbed, whatever candidate was pending before, is stored scheduled and armed, with its exact due time, if and only if the schema takes that record and the code is mechanical, or unknown with the fallback unspent at its request error; the whole outcome is given, with the operator incident, the candidate left over by a refused deadline, and the unchanged table |
| ApiRecoveryFallback.RefusedFailureStaysInMemory | dsh-autolab/src/api-recovery-store.ts:12-30 | a failure the schema refuses, such as one with a Retry-After of zero, leaves the table as it was and stays in the pending map |
| ApiRecoveryFallback.RefusedFailureExists | dsh-autolab/src/api-recovery-store.ts:12-18 | a rate limit with a Retry-After of zero is a failure of that kind |
| ApiRecoveryFallback.SettledFailureOutcome | dsh-autolab/src/api-recovery.ts:849-913 | the same equivalence for a failure settled straight from the recovering record, armed when scheduled, with the removals and with the record left in place when the schema refuses its successor |
| ApiRecoveryHistory.SecondFailureIsNotScheduled | dsh-autolab/src/api-recovery.ts:763-786 | from the first failure to the second: scheduled, continued after whatever happened in between, followed by any run in which the target stays and no turn takes the spent record, a later failure of the code is scheduled neither in the table nor in a queued write |
| ApiRecoveryHistory.SecondFailureExactly | dsh-autolab/src/api-recovery.ts:763-786 | after a continuation and any sequence of turns run undisturbed, ending in any way, a reported failure of the same code becomes an operator incident if and only if no turn took the spent record: none outlived the continuation, none reported a failure, and no end settled the record; otherwise it is scheduled again |
| ApiRecoveryHistory.UnreportedSecondFailure | dsh-autolab/src/api-recovery.ts:849-913 | the same failure seen only in its turn end is never scheduled: an operator incident from an untaken record, nothing otherwise |
| ApiRecoveryHistory.LeavesPlainly | dsh-autolab/src/api-recovery.ts:849-913 | a turn leaves the spent record alone exactly if it failed unreported, was not aborted, and the schema refuses what settling would store |
| ApiRecoveryHistory.HistoryShows | dsh-autolab/src/api-recovery.ts:303-349 | over any history of undisturbed turns the spent record is the current one exactly while every turn left it alone, and once lost it never returns |
| ApiRecoveryHistory.TurnIsPlayed | dsh-autolab/src/api-recovery.ts:303-349 | from every quiet state any next turn can run undisturbed, and what it leaves of pending map, table, log and clock |
| ApiRecoveryHistory.TurnAfterContinuationIsScheduledAgain | dsh-autolab/src/api-recovery.ts:310-312 | a turn after the continuation that completes, is aborted or reports any failure makes the next failure of the first code scheduled again, on the same goal and assignment |
| ApiRecoveryHistory.TurnAfterContinuationExists | dsh-autolab/src/api-recovery.ts:303-349 | states in which it happens, for a goal and for a review, with a completed and with a reported turn |
| ApiRecoveryHistory.OutlivedContinuationExists | dsh-autolab/src/api-recovery.ts:486-493 | a state in which a turn that ended normally before the continuation outlives it |
| ApiRecoveryHistory.SpentFallbackGoesToOperator | dsh-autolab/src/api-recovery.ts:763-786 | from a settled spent fallback the next turn failing with the same code ends as an operator incident, stored whenever the schema takes it |
| ApiRecoveryHistory.SpentFallbackExists | dsh-autolab/src/api-recovery.ts:646-655 | a state with a spent fallback and everything unchanged exists and has an allowed step |
| ApiRecoveryHistory.UserTurnBeforeContinuationIsScheduledAgain | dsh-autolab/src/api-recovery.ts:763-786 | without the continuation in between the bound fails: a user turn started while the first failure is only scheduled is itself scheduled, whenever the schema takes it |
| ApiRecoveryRuntimeClass.ApiRecoveryRuntime.Start | dsh-autolab/src/api-recovery.ts:214-244 | starts and reconciles every Session, moving each slice as the machine does |
| ApiRecoveryRuntimeClass.ApiRecoveryRuntime.ReconcileAll | dsh-autolab/src/api-recovery.ts:351-379 | the loop over pending and stored records reconciles every Session once |
| ApiRecoveryRuntimeClass.ApiRecoveryRuntime.Reconcile | dsh-autolab/src/api-recovery.ts:351-379 | one Session of the reconciliation |
| ApiRecoveryRuntimeClass.ApiRecoveryRuntime.Dispose | dsh-autolab/src/api-recovery.ts:246-256 | clears every timer and stops |
| ApiRecoveryRuntimeClass.ApiRecoveryRuntime.HandleRequestError | dsh-autolab/src/api-recovery.ts:258-301 | records the candidate in memory and queues its write, or answers the hook |
| ApiRecoveryRuntimeClass.ApiRecoveryRuntime.HandleSessionEvent | dsh-autolab/src/api-recovery.ts:303-349 | picks the settling or the terminal path for a turn end |
| ApiRecoveryRuntimeClass.ApiRecoveryRuntime.FindLastTurn | dsh-autolab/src/api-recovery.ts:462-470 | the backward search returns the last terminal of the turn |
| ApiRecoveryRuntimeClass.ApiRecoveryRuntime.FindLastLater | dsh-autolab/src/api-recovery.ts:486-493 | the backward search returns the last terminal of a later turn |
| ApiRecoveryRuntimeClass.ApiRecoveryRuntime.ReconcileAwaiting | dsh-autolab/src/api-recovery.ts:462-470 | finishes a candidate whose terminal is already in the log |
| ApiRecoveryRuntimeClass.ApiRecoveryRuntime.Arm | dsh-autolab/src/api-recovery.ts:503-527 | replaces the Session timer by one for this record |
| ApiRecoveryRuntimeClass.ApiRecoveryRuntime.RemoveCurrent | dsh-autolab/src/api-recovery.ts:799-810 | removes pending and stored forms of exactly this record |
| ApiRecoveryRuntimeClass.ApiRecoveryRuntime.HandleAgentCreated | dsh-autolab/src/api-recovery.ts:381-400 | reconciles the Session of an appearing agent |
| ApiRecoveryRuntimeClass.ApiRecoveryRuntime.HandleAgentReady | dsh-autolab/src/api-recovery.ts:472-501 | the idle edge |
| ApiRecoveryRuntimeClass.ApiRecoveryRuntime.HandleAdapterEdge | dsh-autolab/src/api-recovery.ts:402-434 | the adapter update for one Session |
| ApiRecoveryRuntimeClass.ApiRecoveryRuntime.ResumeOperator | dsh-autolab/src/api-recovery.ts:436-460 | an operator record is rescheduled now if its exact target is still resumable |
| ApiRecoveryRuntimeClass.ApiRecoveryRuntime.FireTimer | dsh-autolab/src/api-recovery.ts:512-522 | the one-shot callback |
| ApiRecoveryRuntimeClass.ApiRecoveryRuntime.ResumeScheduled | dsh-autolab/src/api-recovery.ts:529-556 | due, idle, exact or crash-window continuation, or removal |
| ApiRecoveryRuntimeClass.ApiRecoveryRuntime.ResumeRecovering | dsh-autolab/src/api-recovery.ts:558-610 | retries a recovery only while its exact target is disarmed again |
| ApiRecoveryRuntimeClass.ApiRecoveryRuntime.ResumeExact | dsh-autolab/src/api-recovery.ts:612-629 | claims the in-flight mark or promotes to the operator |
| ApiRecoveryRuntimeClass.ApiRecoveryRuntime.PromoteOperator | dsh-autolab/src/api-recovery.ts:812-826 | puts the spread object through the schema, which refuses it |
| ApiRecoveryRuntimeClass.ApiRecoveryRuntime.AfterTerminalFlush | dsh-autolab/src/api-recovery.ts:316-348 | schedules, promotes or drops the flushed candidate |
| ApiRecoveryRuntimeClass.ApiRecoveryRuntime.AfterSettleFlush | dsh-autolab/src/api-recovery.ts:855-912 | schedules, promotes or drops after a recovery |
| ApiRecoveryRuntimeClass.ApiRecoveryRuntime.FlushSettled | dsh-autolab/src/api-recovery.ts:303-349 | resumption after a flush that succeeded or failed |
| ApiRecoveryRuntimeClass.ApiRecoveryRuntime.AfterApplied | dsh-autolab/src/api-recovery.ts:644-661 | queues the recovering record of an applied continuation |
| ApiRecoveryRuntimeClass.ApiRecoveryRuntime.ApplyContinuation | dsh-autolab/src/api-recovery.ts:685-704 | resumes the goal or begins the review wake, and records the effect |
| ApiRecoveryRuntimeClass.ApiRecoveryRuntime.EnterMaintenance | dsh-autolab/src/api-recovery.ts:629-704 | re-checks everything inside maintenance, then applies the continuation |
| ApiRecoveryRuntimeClass.ApiRecoveryRuntime.ClaimRejected | dsh-autolab/src/api-recovery.ts:675-683 | a refused claim releases the in-flight mark |
| ApiRecoveryRuntimeClass.ApiRecoveryRuntime.ReviewSettled | dsh-autolab/src/api-recovery.ts:696-704 | a settled review wake |
| ApiRecoveryRuntimeClass.ApiRecoveryRuntime.StoreOpSettled | dsh-autolab/src/api-recovery.ts:799-810 | the head of the store queue takes effect or fails |
| ApiRecoveryRuntimeClass.ApiRecoveryRuntime.HookSettled | dsh-autolab/src/api-recovery.ts:290-301 | the candidate write settled and the hook answers |
| ApiRecoveryRuntimeClass.ApiRecoveryRuntime.ContinueActivation | dsh-autolab/src/api-recovery.ts:303-349 | resumption of any activation after its store operation |
| ApiRecoveryExecution.Execute | dsh-autolab/src/api-recovery.ts:206-256 | over any script of events in any Sessions, process starts, disposals and crashes, each Session of the object ends where the machine run of its own events leads, and keeps the invariant of reachable states |
| ApiRecoveryExecution.Happen | dsh-autolab/src/api-recovery.ts:206-256 | one event of the process is one machine step of each Session it concerns and nothing for the others |
| ApiRecoveryExecution.Perform | dsh-autolab/src/api-recovery.ts:258-918 | every action of a Session is performed by the runtime method it belongs to, and touches that Session only |
| KeyedQueue.InSubmissionOrder | dsh-autolab/src/attempt-runtime.ts:294-304 | on one key an operation that started has only settled predecessors: submission order, no overlap |
| KeyedQueue.OldestUnsettledProceeds | dsh-autolab/src/attempt-runtime.ts:294-304 | the oldest unsettled operation of any key runs or may start, whatever failed before it and whatever other keys do |
| KeyedQueue.KeysAreIndependent | dsh-autolab/lib/index.js:5249-5258 | a step on one key leaves every other key's operations and tail alone |
| KeyedQueue.DrainedIsEmpty | dsh-autolab/src/api-recovery-store.ts:113-126 | once everything has settled and been cleaned up the tail map is empty |
| KeyedQueue.RunKeeps | dsh-autolab/src/attempt-runtime.ts:294-304 | chain order, tails and start order hold in every reachable state |
| KeyedQueue.Chain.Enqueue | dsh-autolab/src/api-recovery-store.ts:117-126 | chains behind the key's tail and becomes the tail |
| KeyedQueue.Chain.Begin | dsh-autolab/src/api-recovery-store.ts:117-126 | starts behind settled predecessors only |
| KeyedQueue.Chain.Settle | dsh-autolab/src/api-recovery-store.ts:117-126 | settles either way |
| KeyedQueue.Chain.Finally | dsh-autolab/src/api-recovery-store.ts:117-126 | forgets the tail only if it is still the newest |
| RecoveryStore.ContentsAreAtomicInOrder | dsh-autolab/src/api-recovery-store.ts:97-126 | under any interleaving each Session's entry equals its effective operations taken whole in submission order |
| RecoveryStore.DeleteHitsOnlyItsRecord | dsh-autolab/src/api-recovery-store.ts:104-111 | when a remove's delete lands, the table still holds exactly the record it compared earlier |
| RecoveryStore.MachineUsesAtomicForm | dsh-autolab/src/api-recovery-store.ts:97-126 | the store operation of the recovery machine is the whole operation proved here |
| RecoveryStore.DurableApiRecoveryStore.Put | dsh-autolab/src/api-recovery-store.ts:97-102 | a refused object changes nothing; an accepted one is queued as its record |
| RecoveryStore.DurableApiRecoveryStore.Remove | dsh-autolab/src/api-recovery-store.ts:104-111 | as for put |
| RecoveryStore.DurableApiRecoveryStore.Get | dsh-autolab/src/api-recovery-store.ts:89-91 | answers the fold of the effective operations |
| RecoveryStore.DurableApiRecoveryStore.Begin | dsh-autolab/src/api-recovery-store.ts:106-108 | a remove compares when its turn comes |
| RecoveryStore.DurableApiRecoveryStore.Land | dsh-autolab/src/api-recovery-store.ts:109-109 | the write takes effect; a delete only on the expected record |
| RecoveryStore.DurableApiRecoveryStore.Settle | dsh-autolab/src/api-recovery-store.ts:117-121 | an operation settles and its successors may start |
| RecoveryStore.DurableApiRecoveryStore.Finally | dsh-autolab/src/api-recovery-store.ts:122-124 | tail cleanup |
| AttemptRuntime.LastArtifact | dsh-autolab/src/attempt-runtime.ts:321-323 | the artifact of the last record that has one, none if no record has |
| AttemptRuntime.OneTimerPerResult | dsh-autolab/src/attempt-runtime.ts:236-266 | a result arms at most one timer; pending-retry never arms pending-retry; only a launch arms launch-safety |
| AttemptRuntime.NoPolling | dsh-autolab/src/attempt-runtime.ts:170-285 | over any run internal edges are at most dispatches plus twice launches, launch-safety edges at most launches, and replacement pokes at most unrelated revision bumps |
| AttemptRuntime.PublishesExactProjection | dsh-autolab/lib/index.js:4945-4962 | the write succeeds exactly at the projection's revision and then replaces the very state it was compiled from, changing only that slot's state and reference |
| AttemptRuntime.PublishesTheTransition | dsh-autolab/src/attempt-runtime.ts:306-340 | a successful write moves the slot to the recorded transition's state, attempt and phase, under path and hash of the last recorded artifact and the old checkout; every other slot and field stays |
| AttemptRuntime.TransitionWithoutArtifactEnds | dsh-autolab/src/attempt-runtime.ts:321-327 | a recorded transition without any artifact ends the edge with nothing written |
| AttemptRuntime.EdgePublishesItsTransition | dsh-autolab/src/attempt-runtime.ts:170-234 | one undisturbed edge reads, inspects, launches a launching Attempt found absent, publishes the recorded transition and sets the timers |
| AttemptRuntime.EdgeWithoutTransitionWritesNothing | dsh-autolab/src/attempt-runtime.ts:170-234 | an answer without transition is delivered and only sets the timers |
| AttemptRuntime.EdgeWithoutAttemptIsInert | dsh-autolab/src/attempt-runtime.ts:175-184 | an edge of an unknown or foreign Lab or an empty slot has no effect |
| AttemptRuntime.WakesExactly | dsh-autolab/src/attempt-runtime.ts:343-372 | the Controller is woken exactly for a terminal or unknown outcome that was recorded, blocked, or pending at its retry, at an applied Goal; with that Goal, slot and Attempt |
| AttemptRuntime.TimersExactly | dsh-autolab/src/attempt-runtime.ts:236-266 | which timer stands after a result, and for which reference, in every situation |
| AttemptRuntime.EdgesAreQueued | dsh-autolab/src/attempt-runtime.ts:138-145 | a dispatch queues its edge, a fired timer its own with its reference, and a disposed consumer refuses |
| AttemptRuntime.OnlyPublicationWrites | dsh-autolab/lib/index.js:4939-4968 | no other step of the consumer writes the Lab state |
| AttemptRuntime.LostCasIsDispatchedAgain | dsh-autolab/lib/index.js:4950-4967 | a poke is queued exactly when only the revision moved (while accepting), and then another writer did move it; the write is attempted exactly on an exact match |
| AttemptRuntime.StaleEdgeIsInert | dsh-autolab/src/attempt-runtime.ts:179-184 | an internal edge for another reference ends without effect |
| AttemptRuntime.LaunchesOnlyExactAttempt | dsh-autolab/src/attempt-runtime.ts:200-207 | a launch happens only for a launching Attempt found absent, and from an internal edge only for its own Attempt |
| AttemptRuntime.DisposedStaysQuiet | dsh-autolab/src/attempt-runtime.ts:147-152 | after disposal no timer and no new edge appears |
| AttemptRuntime.RunKeeps | dsh-autolab/src/attempt-runtime.ts:159-234 | snapshots are past states, results are compiled from them, and every internal edge is paid for |
| AttemptRuntime.AttemptRuntimeConsumer.Dispatch | dsh-autolab/src/attempt-runtime.ts:138-145 | queues behind the target or refuses after disposal |
| AttemptRuntime.AttemptRuntimeConsumer.ArmOnce | dsh-autolab/src/attempt-runtime.ts:268-285 | arms unless already armed |
| AttemptRuntime.AttemptRuntimeConsumer.ClearArmed | dsh-autolab/src/attempt-runtime.ts:287-292 | disarms and cancels |
| AttemptRuntime.AttemptRuntimeConsumer.ReconcileTimers | dsh-autolab/src/attempt-runtime.ts:236-266 | the target's timers become exactly the specified next timers, others stay |
| AttemptRuntime.AttemptRuntimeConsumer.Fire | dsh-autolab/src/attempt-runtime.ts:276-283 | the timer is gone before its edge is queued with its own reference |
| AttemptRuntime.AttemptRuntimeConsumer.Dispose | dsh-autolab/src/attempt-runtime.ts:147-152 | the loop cancels every scheduled callback |
| AttemptRuntime.AttemptRuntimeConsumer.Enqueue | dsh-autolab/src/attempt-runtime.ts:294-304 | appends to the target's queue only |
| Artifacts.CurrentIsOldOrNew | dsh-autolab/src/artifacts.ts:237-249 | over any sequence of freezes, each stopped anywhere, a readable CURRENT stays readable and names the first revision or one some freeze was given; an unreadable or absent one stays so or becomes one of those |
| Artifacts.RevisionNeverChanges | dsh-autolab/src/artifacts.ts:467-503 | a revision on disk keeps its files and its reading through any further freezes |
| Artifacts.NewIsUnique | dsh-autolab/src/artifacts.ts:270-292 | for exact texts "the new revision" is one value, with the input's texts |
| Artifacts.RenderedReadsAsNew | dsh-autolab/src/artifacts.ts:505-605 | whatever pointer reads the written files reads the input's reference, manifest and bytes |
| Artifacts.RenderedReadsBack | dsh-autolab/src/artifacts.ts:505-605 | the written files read back if and only if revision, hashes, manifest anchors and encodings are valid |
| Artifacts.ReadersAgree | dsh-autolab/src/artifacts.ts:467-503 | reading through CURRENT and by number give the same revision |
| Artifacts.ReadsExactlyCommits | dsh-autolab/src/artifacts.ts:505-605 | a revision is read exactly where a commit of it, one the checks allow, could have written its files |
| Artifacts.ManifestFitsExactly | dsh-autolab/src/artifacts.ts:505-605 | the manifest check: every anchor is the revision's own |
| Artifacts.ChangedTextIsFound | dsh-autolab/src/artifacts.ts:505-605 | a text changed behind a committed revision is found by its hash |
| Artifacts.CurrentReadsItsPointer | dsh-autolab/src/artifacts.ts:237-249 | CURRENT reads the revision its valid pointer names, and refuses anything else |
| Artifacts.OtherBytesAreAMismatch | dsh-autolab/src/artifacts.ts:375-381 | another set of hashes under the number is refused by the reader with HASH_MISMATCH, so the commit's own hash comparison never fires |
| Artifacts.EncodeIsFaithful | dsh-autolab/src/artifacts.ts:271-292 | encoding keeps a text exactly if it holds no lone surrogate |
| Artifacts.PlacingIsACommitStep | dsh-autolab/src/artifacts.ts:355-364 | after the directory rename CURRENT still reads as before |
| Artifacts.PublishingIsACommitStep | dsh-autolab/src/artifacts.ts:388-393 | after the pointer replacement CURRENT reads exactly what was read back |
| Artifacts.ArtifactStore.DurableWriteFile | dsh-autolab/src/artifacts.ts:410-431 | at every stop the file holds its old content or exactly the new bytes; without replace an existing file is never changed |
| Artifacts.ArtifactStore.WriteScratch | dsh-autolab/src/artifacts.ts:416-423 | an unfinished scratch file may hold any bytes and shows nowhere |
| Artifacts.ArtifactStore.RenameDirectory | dsh-autolab/src/artifacts.ts:356-361 | onto nothing or an empty directory only |
| Artifacts.ArtifactStore.WriteRevisionFiles | dsh-autolab/src/artifacts.ts:333-353 | the temporary directory holds exactly the five rendered files |
| Artifacts.ArtifactStore.CommitFrom | dsh-autolab/src/artifacts.ts:310-393 | one commit step however it ends |
| Artifacts.ArtifactStore.ReadBackAndPublish | dsh-autolab/src/artifacts.ts:375-393 | CURRENT is replaced only after the revision was read back and compared |
| Artifacts.ArtifactStore.FreezeRevision | dsh-autolab/src/artifacts.ts:294-397 | one commit step however it ends; on success all readers return the result; a conflicting number fails and changes nothing; without faults it succeeds exactly for acceptable input |
| Artifacts.ArtifactStore.FreezeConfigRevision | dsh-autolab/src/artifacts.ts:271-292 | blank texts are refused and CURRENT is as before or the input; on success manifest and well-formed texts are the input, and a lone surrogate is frozen as its replacement on a new number only |
| Artifacts.ArtifactStore.FreezeDraftRevision | dsh-autolab/src/artifacts.ts:183-207 | however it ends CURRENT is as before or exactly this draft; a draft edited between the two readings is frozen in its second reading on a new number, compared in its first on an existing one |
| Candidate.UniqueCandidate | dsh-autolab/src/candidate.ts:98-168 | all successful calls for one Assignment returned one receipt, that of the first frozen intent, with its identity |
| Candidate.FirstIntentDecides | dsh-autolab/src/candidate.ts:123-151 | nothing after the intent is frozen, later trees included, changes the receipt |
| Candidate.OtherIdentityIsInert | dsh-autolab/src/candidate.ts:333-372 | a call of another identity changes no file, ref or object and never succeeds |
| Candidate.FilesAreWriteOnce | dsh-autolab/src/candidate.ts:465-475 | neither file is ever written a second time |
| Candidate.ReplayReturnsReceipt | dsh-autolab/src/candidate.ts:104-109 | a replay returns the stored receipt if and only if the ref names its commit, the commit its tree and a named report is intact, and each refusal is told in the same terms |
| Candidate.VerifiesExactly | dsh-autolab/src/candidate.ts:314-331 | the verification succeeds exactly if the ref names the commit, the commit the tree, and a named report is intact; what Git cannot resolve fails as Git does, the rest as corrupt |
| Candidate.ReceiptIsChecked | dsh-autolab/src/candidate.ts:333-372 | a stored receipt is taken exactly for its own identity with both hashes right |
| Candidate.CaptureFields | dsh-autolab/src/candidate.ts:125-167 | the intent names identity, head, tree and time of the capture; the receipt names the commit of tree, base, capture hash and time, and the ref of Lab and Assignment |
| Candidate.FreshCaptureSucceeds | dsh-autolab/src/candidate.ts:98-168 | an undisturbed fresh capture returns the receipt of the worktree as it is |
| Candidate.InvalidInputIsRefused | dsh-autolab/src/candidate.ts:98-101 | a call begins exactly with every name given and every number in range |
| Candidate.UnfitCallIsRefused | dsh-autolab/src/candidate.ts:111-121 | a Lane, report or frozen intent that does not fit is refused without a trace |
| Candidate.TakenRefIsNotMoved | dsh-autolab/src/candidate.ts:293-312 | a ref that names another commit is a conflict and stays; one that names this commit is as good as created |
| Candidate.CommitIsStored | dsh-autolab/src/candidate.ts:153-153 | the commit is stored with the tree of the intent |
| Candidate.StoppedCaptureIsCompleted | dsh-autolab/src/candidate.ts:123-167 | a capture stopped after its intent, before or after its ref, is completed with that intent's receipt whatever the worktree holds then |
| Candidate.RunKeeps | dsh-autolab/src/candidate.ts:98-168 | the receipt is always that of the intent, and every call holds only the frozen intent |
| Candidate.CandidateFiles.FreezeIntent | dsh-autolab/src/candidate.ts:465-475 | the first writer wins and a differing text is a conflict |
| Candidate.CandidateFiles.FreezeReceipt | dsh-autolab/src/candidate.ts:465-475 | as for the intent |
| Candidate.CandidateFiles.CreateOrVerifyRef | dsh-autolab/src/candidate.ts:293-312 | a ref is created only where none is and never moved |
| Candidate.CandidateFiles.FreezeLaneCandidate | dsh-autolab/src/candidate.ts:98-168 | one call over files, refs and objects, stopped between any two steps: write-once, identity-bound, and successful when nothing stands against it |
| Candidate.CandidateFiles.Replay | dsh-autolab/src/candidate.ts:104-109 | unless stopped, returns the stored receipt exactly for its own identity and intact objects, and the first refusal otherwise |
| Candidate.CandidateFiles.CaptureIntent | dsh-autolab/src/candidate.ts:123-151 | adopts the frozen intent or freezes a new one; a foreign identity conflicts |
| Candidate.CandidateFiles.FinishCapture | dsh-autolab/src/candidate.ts:153-167 | wherever it stops, commit, ref and receipt are those of the intent or not there yet; otherwise it succeeds exactly if the ref is free or already names that commit |
| Dialogue.HeadDeterminesHistory | dsh-autolab/lib/index.js:750-796 | two readable logs with one head hash are equal, unless two of their own records collide |
| Dialogue.PrefixIsReadable | dsh-autolab/lib/index.js:750-776 | every non-empty prefix of a readable log is readable |
| Dialogue.ExtendChain | dsh-autolab/lib/index.js:764-774 | a record extends a chain exactly when schema, hash, Lab, sequence and previous hash fit |
| Dialogue.ResyncIsCanonical | dsh-autolab/lib/index.js:695-726 | after any resyncs on prefixes, cut at record boundaries or not, and Controller records, a resync records what one resync would have, with strictly increasing seqs |
| Dialogue.ResyncExtends | dsh-autolab/lib/index.js:699-700 | one resync extends the recorded prefix to the longer of the two |
| Dialogue.RecordedIsReadable | dsh-autolab/lib/index.js:797-807 | an appended log is readable if and only if the added times and seqs are safe non-negative integers |
| Dialogue.LastSeqIsLastEvent | dsh-autolab/lib/index.js:822-838 | the head's last event seq is that of the last recorded event |
| Dialogue.RecordsCarryTheirEvents | dsh-autolab/lib/index.js:703-723 | each added record carries exactly its event, of the kind its type gives, with its time, source and payload, and continues the chain |
| Dialogue.AddsExactlyTheMissing | dsh-autolab/lib/index.js:699-700 | a resync adds exactly the configuration events not older than its start and newer than the last recorded one |
| Dialogue.FirstRecordIsReadable | dsh-autolab/lib/index.js:672-694 | the initial log is readable exactly when its time is a safe integer |
| Dialogue.SchemaExactly | dsh-autolab/lib/index.js:797-803 | the numbers a record may hold |
| Dialogue.CutFileIsUnreadable | dsh-autolab/lib/index.js:750-776 | a file that ends inside a record, or holds a line that is none, is unreadable |
| Dialogue.DialogueLog.Initialize | dsh-autolab/lib/index.js:672-694 | creates the first record and never replaces a log |
| Dialogue.DialogueLog.Read | dsh-autolab/lib/index.js:750-776 | accepts exactly the intact files and returns their records |
| Dialogue.DialogueLog.FindHead | dsh-autolab/lib/index.js:822-838 | the backward loop computes the head |
| Dialogue.DialogueLog.MakeRecords | dsh-autolab/lib/index.js:703-723 | the loop chains one record per selected event |
| Dialogue.DialogueLog.AppendLines | dsh-autolab/lib/index.js:839-847 | appends all lines, or some first part of them |
| Dialogue.DialogueLog.AppendSessionEvents | dsh-autolab/lib/index.js:695-726 | the file gains the records of exactly the missing events, or a first part of them |
| Dialogue.DialogueLog.AppendControllerRecord | dsh-autolab/lib/index.js:727-746 | appends one chained Controller record, or on failure leaves the records as they were or with exactly that one; missing, corrupt and foreign logs are refused untouched |
| ReviewFreeze.FreezeIsMonotone | dsh-autolab/lib/index.js:4574-4699 | over any run, with resolutions, shutdowns and restarts, the freeze only climbs, a final one stays, and the first receipt's fields never change |
| ReviewFreeze.HeldIsBacked | dsh-autolab/lib/index.js:4636-4679 | until shutdown, a review counted as frozen is stopped or backed by a hold this process has |
| ReviewFreeze.OnlyTheFirstReceiptCounts | dsh-autolab/lib/index.js:4606-4623 | the same receipt again is a no-op, another is refused |
| ReviewFreeze.RecordedPauseFitsSchema | dsh-autolab/src/state.ts:76-133 | every pause a receipt records satisfies the strict schema |
| ReviewFreeze.ReceiptIsRecorded | dsh-autolab/lib/index.js:4574-4623 | the first receipt about a review is recorded: stale for a stale goal, else stopped without an active turn, hold-pending for the source turn, user-override for another; anything contradictory, foreign or later changes nothing |
| ReviewFreeze.ActiveTurnIsStoppedLater | dsh-autolab/lib/index.js:4574-4699 | over any run a stopped review whose receipt saw an active turn was stopped by its hold task, by Postflight, by an applied route or by a new owner |
| ReviewFreeze.HoldTaskDecides | dsh-autolab/lib/index.js:4636-4699 | a hold task run through: missing worker and overridden hold end in user-override, idle worker and unneeded hold in stopped, a granted one in held with the hold kept; a failed write leaves the review waiting and gives the hold back |
| ReviewFreeze.LateHoldIsNotKept | dsh-autolab/lib/index.js:4655-4679 | a hold granted to a closing process or for a review no longer waiting is not kept |
| ReviewFreeze.RecordsTheFirstOnly | dsh-autolab/lib/index.js:4606-4623 | a foreign receipt is ignored, the first recorded, the same again a no-op, a different one drift |
| ReviewFreeze.PostflightReleases | dsh-autolab/lib/index.js:2692-2698 | Postflight records its result and releases the worker for good |
| ReviewFreeze.ResolutionIsRecordedOnce | dsh-autolab/src/state.ts:686-728 | a route is recorded once, for a frozen Preflight with exactly that verdict, and releases the worker; each refusal has its code |
| ReviewFreeze.RecoveryUnwedges | dsh-autolab/lib/index.js:5645-5671 | recovery stops exactly the hold-pending reviews and those held by another owner, and is idempotent down to the revision |
| ReviewFreeze.RestartLeavesNoWedge | dsh-autolab/lib/index.js:2098-2118 | after a restart every review is stopped, pending, stale or user-override |
| ReviewFreeze.StepKeeps | dsh-autolab/lib/index.js:4574-4699 | every step keeps the schema, the single hold task and a live hold behind every held review |
| ReviewFreeze.AutoLabReviews.HandleReviewControlStatus | dsh-autolab/lib/index.js:4574-4623 | records the first well-formed receipt |
| ReviewFreeze.AutoLabReviews.AcquireReviewHold | dsh-autolab/lib/index.js:4636-4654 | starts the one hold task of a pending hold |
| ReviewFreeze.AutoLabReviews.HoldAcquired | dsh-autolab/lib/index.js:4655-4679 | keeps a granted hold only while it is still wanted |
| ReviewFreeze.AutoLabReviews.FinishReviewFreeze | dsh-autolab/lib/index.js:4680-4699 | moves only a pending hold, and gives the hold back when the write fails |
| ReviewFreeze.AutoLabReviews.SubmitPostflightResult | dsh-autolab/lib/index.js:2692-2698 | a held review becomes stopped |
| ReviewFreeze.AutoLabReviews.RecoverReviews | dsh-autolab/lib/index.js:5645-5671 | the loop writes only when some review was wedged |
| ReviewFreeze.AutoLabReviews.AdoptOwner | dsh-autolab/lib/index.js:2098-2118 | a new owner starts without holds and recovers |
| ReviewFreeze.AutoLabReviews.RecordReviewResolution | dsh-autolab/src/state.ts:686-728 | an exact retry changes nothing, a conflicting or unready one is refused, a Preflight route stops the held review |
| ReviewFreeze.AutoLabReviews.CloseHolds | dsh-autolab/lib/index.js:5211-5213 | shutdown gives back every hold and leaves the durable freezes |
| CoderActivation.StageRefusals | dsh-autolab/src/approved-coder-activation.ts:147-181 | staging is refused exactly for another Session, another packet, or another install not applied at the expected Goal ref |
| CoderActivation.StageCodes | dsh-autolab/src/approved-coder-activation.ts:147-181 | which refusal is given when several apply |
| CoderActivation.StagesExactly | dsh-autolab/src/approved-coder-activation.ts:160-181 | staging writes the packet and an activating install at the expected Goal ref and nothing else, or nothing |
| CoderActivation.ApplyRequirements | dsh-autolab/src/approved-coder-activation.ts:192-232 | apply succeeds exactly for the staged identity and packet, a matching unfinished Goal and a bound role |
| CoderActivation.AppliesExactly | dsh-autolab/src/approved-coder-activation.ts:218-231 | apply records the native Goal, sets the role to work, clears its blocker and changes nothing else |
| CoderActivation.ApplyRefusals | dsh-autolab/src/approved-coder-activation.ts:192-217 | each refusal of an apply has its code |
| CoderActivation.CompilesExactly | dsh-autolab/src/approved-coder-activation.ts:103-141 | when a plan compiles, and every field of it |
| CoderActivation.ActivationRuns | dsh-autolab/lib/index.js:2895-2920 | prepared, installed and committed undisturbed, the role works on its Goal at the revision the native Goal answered |
| CoderActivation.OvertakenCommitChangesNothing | dsh-autolab/lib/index.js:2895-2920 | a commit overtaken by another transition changes no role |
| CoderActivation.StageIsIdempotent | dsh-autolab/src/approved-coder-activation.ts:143-181 | staging twice is staging once |
| CoderActivation.StageThenApply | dsh-autolab/src/approved-coder-activation.ts:192-232 | a staged activation can be applied, and staging it again returns the applied role |
| CoderActivation.StagingAfterApplyIsANoOp | dsh-autolab/src/approved-coder-activation.ts:152-155 | after apply and any later revisions and replays, staging returns the role unchanged |
| CoderActivation.RecompiledPlanIsTheSame | dsh-autolab/src/approved-coder-activation.ts:103-141 | a plan recompiled against another Goal ref is the same activation |
| CoderActivation.ReapplyLowersExactlyWhenOlder | dsh-autolab/src/approved-coder-activation.ts:218-231 | a replayed apply lowers the recorded revision exactly when its result is older |
| CoderActivation.ReapplyCanLower | dsh-autolab/src/approved-coder-activation.ts:218-231 | a concrete input on which it does |
| CoderActivation.RecordedRevisionNeverDrops | dsh-autolab/lib/index.js:2895-2920 | in the whole protocol, fenced by the staged revision, no step lowers a recorded revision and a projection strictly raises it |
| CoderActivation.RecordedGoalsExist | dsh-autolab/lib/index.js:2895-2920 | every recorded Goal ref is one the native Goal has had |
| CoderActivation.MatchesExactly | dsh-autolab/lib/index.js:1993-2012 | an edge is about a role exactly if it reports a later revision of the Goal its applied install records |
| CoderActivation.TrackingMovesOnlyTheRef | dsh-autolab/lib/index.js:1993-2012 | a projected revision replaces the Goal ref of its role only |
| CoderActivation.ProjectRoleGoalRevision | dsh-autolab/lib/index.js:1993-2012 | updates exactly the only matching role, or nothing |

## Left out

- ApiRecoveryFallback.UnknownFallbackBound: starts from a stored spent record; `SecondFailureIsNotScheduled` leads there from the first failure, and `SecondFailureExactly` says what happens when a turn takes the record.
- ApiRecoveryHistory.SecondFailureExactly: between the turns no timer, idle edge or further continuation runs; with those in between the bound is one-directional.
- ApiRecoveryFallback.FailingTurnOutcome: one undisturbed turn, all of whose writes and flushes succeed; other interleavings are runs of the machine.
- ApiRecoveryRecords.AcceptedInAnyPhase: the schema's pattern for hashes and extra fields a provider might add to a failure are not modelled.
- ApiRecoveryPromotion.OnlyHopelessFailuresReachTheOperator: is about the durable store; the runtime could be given another one that does not parse.
- ApiRecoverySafety.ScheduledRecordResumesOnce: counts the resumes that survive crashes; a crash that also loses the goal's own unflushed resume loses that effect.
- RecoveryStore.DurableApiRecoveryStore.Land: a table write either happens whole or fails without effect; the table's own storage is not modelled.
- AttemptRuntime.PublishesExactProjection: `consume` and `applyAttemptRuntimeResult` are steps on values, not methods; delivering the Controller wake and its escalation text is one step that may fail.
- AttemptRuntime.NoPolling: counts one target; the sums over all targets follow.
- Artifacts.ArtifactStore.DurableWriteFile: a stop keeps what the finished steps wrote; loss of unsynced data on power failure is not modelled.
- Artifacts.ArtifactStore.FreezeRevision: one process commits at a time, as the Lab queue ensures; the five parallel reads see one disk.
- Candidate.CandidateFiles.FreezeLaneCandidate: one call alone; interleaved calls are in the machine. Git is a function of tree, parent, message and date.
- Dialogue.DialogueLog.AppendSessionEvents: one append is one file write; other processes appending to the same file are not modelled.
- CoderActivation.RecordedRevisionNeverDrops: other transitions leave Goal installs alone, and a Goal id is never reused.
- The callbacks `onOperatorIncident` and `onError`, logging, prompts, tools and agent creation.
- Clocks are whole milliseconds, delays and deadlines real numbers; timers fire at any time after they are armed.
- JSON, YAML, UTF-8, canonical texts, SHA-256 and the text patterns of ids and hashes are datatypes, injective texts and arbitrary functions.
- The identity conjunctions of artifact readers, bindings, worktrees and candidate recovery, which are settled by reading them.
- Orphan revisions after a crash between the directory rename and the CURRENT write, which `listCommittedManifestHashes` still counts.
- Lane charter files, which a config revision replaces on purpose.
- The other routes that release a review hold, such as a user override.
- Liveness in wall-clock time.
