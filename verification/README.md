# Mission orchestration core, verified

This project models five parts of an agent orchestrator and proves what they
keep under interference, failure and crashes.

* **The mission store** (`MissionTables`, `MissionOps`, `MissionInvariant`,
  `MissionRuns`, `MissionEffects`, `MissionPath`, `MissionLeases`,
  `MissionRecovery`, `MissionStore`). Each table is a map. `MissionOps` says what
  every operation does to the tables or with which error it is rolled back; the
  class `SQLiteMissionStore` runs the statements one by one inside transactions
  that nest, and is proved to do exactly that. Invariants, two-state relations
  and theorems about all runs are proved over the operations; `MissionEffects`
  says row by row, and apart from the definitions, what accepted calls leave
  behind.
* **The Boss goal loop** (`TaskIdentity`, `MissionCancel`, `BossQuality`,
  `BossState`, `BossRoutes`, `BossTerminal`, `BossTrace`, `BossSteps`,
  `BossLoop`). The loop is a class over the store. Every `invoke`, `dispatch` and
  `verify` is an await at which an environment runs any sequence of store
  operations, may abort the run, and gives any reply. The operator's cancellation
  is one such actor. A run leaves a trace: `BossTrace` says which events the loop
  may do when and what each leads to; the tables, counts, failures and refusals
  of a run are those its trace leads to, and its outcome is explained by them.
* **Weight rebalancing** (`WeightRebalance`): proportional rounding over reals
  and the two correcting loops.
* **Configuration generations** (`ConfigDisk`, `ConfigMigrations`,
  `ConfigGenerations`): files with failing and crashing system calls, the
  history, pruning, restoring, recovery.
* **The packet budget** (`PacketFitter`): selection and the nested trimming
  loops under an opaque length.

## Findings

These expectations do not hold of the code as it stands; each is proved with
the exact condition under which it does.

* A heartbeat reads the clock twice. When the expiry falls between the two
  readings the row is not extended but the caller is told that it was, and two
  owners can then hold unexpired grants (`HeartbeatTruth`,
  `StalledHeartbeatOverlaps`). Exclusion is proved for punctual heartbeats.
* Recovery and shutdown try to send planned, paused and blocked missions to
  review, which the transition table refuses, so the whole transaction aborts
  (`InterruptCommits`, `SQLiteMissionStore.RecoverInterrupted`).
* `finalizeQualityVerification` is given a verification id and a decision that
  names one too. Once the decision is inserted the rest commits exactly when the
  two agree (`FinalizeCommits`).
* A repeated rejection does not end the run when the store refuses the write:
  the exception is caught where verification errors are (src/core/mission/boss.ts
  line 826) and the loop goes on. `RecordRefusal` and `BossTrace.Settled` say when.
* An ending that is refused leaves its record behind (`RefusedEndingLeavesItsRecord`):
  a cancelled mission may carry the record of another outcome.
* An ending declared on a mission that is already completed returns without
  looking at the gates (`CanConclude`), which is why `CompletionAlwaysLands`
  excludes that status.
* The rebalanced weights sum to the comparable routes' old total with the other
  routes counted in, so the old total is kept only under the condition of
  `TotalKept`.
* Two recoveries with no history write between them reuse a generation
  (`ConfigStore.Recover`).
* Refused items that share an id are counted once (`CountLaw`).
* A written record is read back trimmed: over-long texts and feedback come back
  cut (`ExactWhenItFits`). The fallback chain survives in any case.

## Model

| member | source | states |
|---|---|---|
| `MissionInvariant.ApplyOk` | src/core/mission/index.ts:121-548 | every operation, by any actor at any time, keeps the invariant of all ten tables and the two-state relation: histories, decisions and items only extend, ended attempts and verifications stay ended, evidence leaves `proposed` once |
| `MissionInvariant.TransitionMissionOk` | src/core/mission/index.ts:235 | a transition is accepted exactly when the mission exists at the expected revision, the edge is legal, and completion is asked by the Boss with the gate open |
| `MissionInvariant.UpdateMissionOk` | src/core/mission/index.ts:208-234 | an update is accepted exactly when the mission exists at the expected revision; the revision insert never collides |
| `MissionRuns.RunKeeps` | src/core/mission/index.ts:121-548 | the invariant and the two-state relation hold across every run, refused calls included |
| `MissionRuns.RevisionsAdvance` | src/core/mission/index.ts:208-235 | between any two stored revisions of a mission, a completed or cancelled status never changes and the three canonical logs only grow at the end |
| `MissionRuns.RowsAdvance` | src/core/mission/index.ts:208-235 | between a database and any later one: the old row is still stored under its revision, revisions never go back, and an equal revision means an equal row |
| `MissionRuns.CompletedFollowsReview` | src/core/mission/index.ts:636-650 | in every reachable state all revisions 1..n are stored, and `completed` is only ever preceded by `awaiting-review` |
| `MissionRuns.TerminalIsFinal` | src/core/mission/index.ts:636-650 | no run takes a mission out of `completed` or `cancelled` |
| `MissionRuns.EvidenceChain` | src/core/mission/index.ts:314-405 | in every reachable state a passed quality status has a pass decision of that task, on a completed verification, of a succeeded attempt of the same task and mission |
| `MissionRuns.CompletionIsEarned` | src/core/mission/index.ts:154-162 | the only step that makes a mission completed is a transition by the Boss, and then there is an active task and every active task is executed and has such a chain |
| `MissionRuns.ExecutionUniqueness` | src/core/mission/index.ts:255-286 | a running attempt is its task's last run and the only one running; at most one running verification a task, and one decision a verification |
| `MissionRuns.FinalizeCommits` | src/core/mission/index.ts:359-366 | once the decision is inserted the two remaining updates are refused exactly when the caller named another verification than the decision's |
| `MissionRuns.EvidenceAccounting` | src/core/mission/index.ts:410-414 | accepted evidence and canonical items match one to one, with equal content and mission |
| `MissionRuns.OneAcceptancePerRevision` | src/core/mission/index.ts:413 | two accepted pieces of evidence of one mission never carry the same source revision |
| `MissionRuns.EvidenceSettlesOnce` | src/core/mission/index.ts:410-414 | evidence that has left `proposed` is the same after any run |
| `MissionPath.WorkCompletes` | src/core/mission/index.ts:235-405 | from any reachable state a running mission with no work left is completed by one task that is created, executed, verified and judged, whatever else the tables hold |
| `MissionEffects.AttemptBegins` | src/core/mission/index.ts:255-285 | an accepted attempt leaves a running attempt of its task under its lease, the task running on it, and on an implementation task a quality row without verdict, verification or round; on any other class the quality rows stay, and nothing else changes |
| `MissionEffects.AttemptEnds` | src/core/mission/index.ts:286-313 | the attempt has its status; its task is executed exactly when it succeeded, runnable exactly when it was interrupted or timed out, cancelled exactly when it was, blocked otherwise; nothing else changes |
| `MissionEffects.VerdictStored` | src/core/mission/index.ts:359-366 | the verification is completed by its one decision, the decision repeats the run it is about, the task is passed, rejected or blocked exactly as the verdict says, and nothing else changes |
| `MissionEffects.FailureStored` | src/core/mission/index.ts:367-386 | a running verification ended without a decision asks for review or blocks as it was told, with no decision left on the task |
| `MissionEffects.OnlyVerdictsPass` | src/core/mission/index.ts:359-405 | whatever the call, a task passes by an accepted pass verdict of its own and by no other, and such a verdict passes it |
| `MissionEffects.FreshAttemptShutsTheGate` | src/core/mission/index.ts:255-285 | after an accepted attempt on an implementation task, no run without a later pass verdict for it leaves the task passed, or its mission completable while the task counts |
| `MissionEffects.MissionPatched` | src/core/mission/index.ts:208-234 | an accepted update changes what the patch names under the next revision, stores that revision, and changes nothing else |
| `MissionEffects.MissionMoved` | src/core/mission/index.ts:235 | an accepted transition changes the status and what every new revision renews, and nothing else |
| `MissionEffects.PromotionLands` | src/core/mission/index.ts:413 | accepted evidence enters the one log its target names, at its end, with its item and its revision; the other logs stay |
| `MissionEffects.PromotionRefused` | src/core/mission/index.ts:413 | a refused promotion changes nothing, except that outdated evidence is marked stale |
| `MissionEffects.LeaseTaken` | src/core/mission/index.ts:416 | an acquired lease names its owner until the time asked for, and changes nothing else |
| `MissionEffects.ClaimTakesOnly` | src/core/mission/index.ts:417-440 | a claim changes the lease and the status and revisions of the one mission, and nothing else |
| `MissionEffects.RecoveryInterrupts` | src/core/mission/index.ts:489-548 | after a committed recovery every lapsed attempt is interrupted and its task too if it was running, every lapsed verification is interrupted and its task asks for review of that run, every affected reviewable mission awaits review with the terminal INTERRUPTED on its plan, and nothing else differs |
| `MissionEffects.RecoveryCommits` | src/core/mission/index.ts:489-548 | a recovery commits exactly when no affected mission is planned, paused or blocked |
| `MissionEffects.ShutdownInterrupts` | src/core/mission/index.ts:441-483 | the same for a shutdown, which takes exactly the running attempts of the owner on the mission and its running verifications, sends a running mission to review and gives the lease back |
| `MissionLeases.RunKeepsGrants` | src/core/mission/index.ts:416-485 | over an orderly run every unexpired grant an owner was told of equals the lease row |
| `MissionLeases.MutualExclusion` | src/core/mission/index.ts:416-485 | at the end of any orderly run, two unexpired grants of one mission belong to one owner |
| `MissionLeases.HolderExcludesOthers` | src/core/mission/index.ts:255-485 | while a grant is unexpired, acquire, claim, heartbeat, interrupt and attempt creation by anyone else are refused and change nothing |
| `MissionLeases.HeartbeatTruth` | src/core/mission/index.ts:484 | a successful heartbeat tells its caller the truth exactly when its second clock reading was still before the expiry |
| `MissionLeases.StalledHeartbeatOverlaps` | src/core/mission/index.ts:484 | a concrete run without that: two owners hold unexpired grants of one mission at once |
| `MissionRecovery.RecoveryRespectsLiveLeases` | src/core/mission/index.ts:489-548 | ownerless recovery changes nothing that belongs to a mission with an unexpired lease |
| `MissionRecovery.NothingLeftToRecover` | src/core/mission/index.ts:489-548 | after a recovery nothing is left that a recovery as of the same time would take |
| `MissionRecovery.RecoveryIsIdempotent` | src/core/mission/index.ts:489-548 | a second recovery as of the same time commits and changes nothing |
| `MissionRecovery.InterruptCommits` | src/core/mission/index.ts:441-483 | shutdown commits exactly when the caller holds an unexpired lease and the mission is not planned, paused or blocked |
| `MissionRecovery.ClaimCommits` | src/core/mission/index.ts:417-440 | a claim commits exactly when the mission is not closed and the lease can be taken, and leaves it running under the new owner |
| `MissionStore.SQLiteMissionStore.Begin` | src/core/mission/index.ts:121-137 | only the outermost call opens a transaction and keeps a rollback image |
| `MissionStore.SQLiteMissionStore.End` | src/core/mission/index.ts:121-137 | only the outermost call commits or rolls back, and it rolls back exactly when its function threw |
| `MissionStore.SQLiteMissionStore.CreateMission` | src/core/mission/index.ts:222-233 | creates the row and its first revision, or throws with the tables as before |
| `MissionStore.SQLiteMissionStore.UpdateMission` | src/core/mission/index.ts:234 | patches the row under a new revision, guarded by the expected one |
| `MissionStore.SQLiteMissionStore.TransitionMission` | src/core/mission/index.ts:235 | the status change with all its guards, nested or not |
| `MissionStore.SQLiteMissionStore.AssertMissionCompletable` | src/core/mission/index.ts:154-162 | the loop over the active tasks decides exactly the completion gate |
| `MissionStore.SQLiteMissionStore.CreateTask` | src/core/mission/index.ts:241-249 | the task row and its fresh quality row together |
| `MissionStore.SQLiteMissionStore.SaveTaskPacket` | src/core/mission/index.ts:240 | packet and task revision together |
| `MissionStore.SQLiteMissionStore.StartTask` | src/core/mission/index.ts:252 | refused unless the task is runnable |
| `MissionStore.SQLiteMissionStore.FinishTask` | src/core/mission/index.ts:253 | sets the final status whatever the status was |
| `MissionStore.SQLiteMissionStore.CreateAttempt` | src/core/mission/index.ts:255-285 | attempt, task and (for implementation) quality reset together, refused under another's lease or while one runs |
| `MissionStore.SQLiteMissionStore.FinishAttempt` | src/core/mission/index.ts:286-313 | only a running attempt ends, and its task takes the status that follows |
| `MissionStore.SQLiteMissionStore.CreateVerificationRun` | src/core/mission/index.ts:314-333 | refused unless its target is a succeeded attempt of the same task and mission and no run is open |
| `MissionStore.SQLiteMissionStore.UpdateVerificationRun` | src/core/mission/index.ts:334-346 | never re-targets a run, reopens an ended one or completes one without a decision |
| `MissionStore.SQLiteMissionStore.RecordQualityDecision` | src/core/mission/index.ts:347-358 | one decision for a running verification that matches it |
| `MissionStore.SQLiteMissionStore.SetTaskQualityStatus` | src/core/mission/index.ts:387-405 | a verdict is stored only with its decision and completed verification |
| `MissionStore.SQLiteMissionStore.FinalizeQualityVerification` | src/core/mission/index.ts:359-366 | three nested transactions commit or roll back as one |
| `MissionStore.SQLiteMissionStore.FinalizeQualityFailure` | src/core/mission/index.ts:367-386 | an open verification ends with its task's quality; an ended one is left alone |
| `MissionStore.SQLiteMissionStore.AdmitEvidence` | src/core/mission/index.ts:410 | evidence enters as proposed, tied to its mission's rows |
| `MissionStore.SQLiteMissionStore.PromoteEvidence` | src/core/mission/index.ts:413 | outdated evidence is marked stale in a committed transaction of its own before the call throws; otherwise evidence, item, row and revision change together |
| `MissionStore.SQLiteMissionStore.RejectEvidence` | src/core/mission/index.ts:414 | only proposed evidence is rejected |
| `MissionStore.SQLiteMissionStore.AcquireLease` | src/core/mission/index.ts:416 | taken when free, lapsed or one's own |
| `MissionStore.SQLiteMissionStore.HeartbeatLease` | src/core/mission/index.ts:484 | extends the row only when the second clock reading is before the expiry |
| `MissionStore.SQLiteMissionStore.ReleaseLease` | src/core/mission/index.ts:485 | only the owner's own lease is removed |
| `MissionStore.SQLiteMissionStore.ClaimMissionExecution` | src/core/mission/index.ts:417-440 | lease and the whole chain of transitions to running, or nothing |
| `MissionStore.SQLiteMissionStore.InterruptOwnedExecution` | src/core/mission/index.ts:441-483 | the loops over attempts and verifications, the review and the lease together, or nothing |
| `MissionStore.SQLiteMissionStore.RecoverInterrupted` | src/core/mission/index.ts:489-548 | the three loops do exactly what recovery is specified to do to all rows at once, and abort as a whole when an affected mission may not go to review |
| `MissionStore.SQLiteMissionStore.ExecuteAll` | src/core/mission/index.ts:121-548 | a sequence of calls on the object is a run of the specification |
| `TaskIdentity.ListTasks` | src/core/mission/index.ts:238 | each row of the mission once, by creation time and id |
| `TaskIdentity.ActiveMissionTasks` | src/core/mission/task-identity.ts:42-49 | the loop over the listing leaves exactly the last live task of every identity key, one each |
| `TaskIdentity.ResolveOrCreateMissionTask` | src/core/mission/task-identity.ts:21-39 | returns a live task of the mission that is named or has the spec's identity; it creates one only when every live task of that identity is running |
| `MissionCancel.CancelActiveMission` | src/core/mission/mission-cancel.ts:45-113 | which mission is meant and what happens to it, for every request; exactly its running and pending tasks become cancelled and the rest stay; nothing left could run, other missions are untouched, no step is refused, and the effect is a run of store operations |
| `MissionCancel.FailureEnds` | src/core/mission/index.ts:367-386 | ending a running verification without a decision is never refused |
| `BossQuality.GatesAgreeReachable` | src/core/mission/task-identity.ts:51-54 | in every reachable state the loop's gate and the store's own completion guard agree |
| `BossQuality.CompletedAndVerified` | src/core/mission/task-identity.ts:51-54 | true exactly when there is an active task and all are executed and passed |
| `BossQuality.QualityPrecludesComplete` | src/core/mission/boss.ts:383-402 | finds nothing exactly when the gate is open; otherwise it names an active task that is not verified |
| `BossQuality.LatestDecision` | src/core/mission/boss.ts:342-343 | the last decision about that task by round, time and id, found whenever there is one |
| `BossState.ReadWritten` | src/core/mission/boss.ts:279-337 | whatever else the plan holds, reading back a written record gives it with every text and count bounded and its token usage and diagnostic cleaned |
| `BossState.ExactWhenItFits` | src/core/mission/boss.ts:279-337 | the round trip is exact for the records within their bounds and for no others |
| `BossRoutes.SelectFallback` | src/core/mission/boss.ts:272-275 | an enabled entry the run has not been on, found whenever there is one, whatever its weight |
| `BossRoutes.SelectEntry` | src/core/mission/boss.ts:267-270 | an enabled entry of positive weight, found whenever there is one |
| `BossRoutes.ChainGrows` | src/core/mission/boss.ts:628-649 | taking a fallback extends a chain of pairwise distinct routes to a chain that ends at the new one |
| `BossRoutes.FallbackUsesOne` | src/core/mission/boss.ts:604-655 | a fallback uses up exactly one of the enabled routes not yet used |
| `BossRoutes.ChainSurvivesReentry` | src/core/mission/boss.ts:279-337 | a record that is written and read back has a fallback chain exactly when it had one before |
| `BossTerminal.TerminalEnds` | src/core/mission/boss.ts:524-566 | an ending succeeds exactly when the loop's revision is current and the status can be reached, and then the row has the status and the record |
| `BossTerminal.CompletionAlwaysLands` | src/core/mission/boss.ts:524-566 | on a reachable state with a current revision and a row not yet completed, declaring completion succeeds exactly when all gates are open and the row is running or awaiting review |
| `BossTerminal.RefusedEndingLeavesItsRecord` | src/core/mission/boss.ts:524-566 | on a cancelled mission any other ending is refused after its record was committed |
| `BossTrace.ViewsKeep` | src/core/mission/boss.ts:569-895 | what the tables show at one point of a run they keep to any later one, whatever other actors do at the awaits in between |
| `BossTrace.CancelledStays` | src/core/mission/boss.ts:569-895 | a mission that was cancelled at any point of a run is cancelled at its end |
| `BossTrace.AwaitsCounted` | src/core/mission/boss.ts:592-831 | every await of a run is a request, a dispatch or a verification; every dispatch but one still under way was verified once; and every cycle begun since the first took a request and began within the bound |
| `BossTrace.DispatchWasPlanned` | src/core/mission/boss.ts:774-795 | a worker is only sent a live row for one of the first maxTasks tasks of a reply the Boss gave in this run |
| `BossTrace.NothingAfterAbort` | src/core/mission/boss.ts:592-831 | once the run is aborted nothing is asked, dispatched or verified any more |
| `BossTrace.WrittenRecordIsSound` | src/core/mission/boss.ts:339-340 | after any accepted write of the loop's record, what a new run would read from the row has a chain of distinct routes if the run started with one, and each new hop answers an infrastructure failure of this run |
| `BossLoop.RunMissionGoalLoop` | src/core/mission/boss.ts:569-895 | the trace starts from the given tables, does only what the loop may do and when, and leads event by event to the final tables; a returned status is the row's; if the mission was ever cancelled or the run aborted, it throws or returns cancelled; requests are at most two a cycle plus the unused enabled routes, dispatches at most maxTasks a cycle; no refusal is recorded as often as it may be unless the run ends there at the user or the store would not let it; a declared completion has open gates. Every end is explained: completed and blocked by what the Boss said last or by a provider failure with no route left on record, cancelled by an abort or a cancellation just heard, a safety stop by one just heard, and a mission handed back by the Boss's word, by as many equal planning failures in a row as the bound, by a refusal repeated too often, or by having begun the last cycle and heard nothing that ends it, with a request made in every cycle reported; an error thrown is that of the loop's own call just refused; the outcome is on record. A mission already at an end is reported untouched |
| `BossTrace.RestartTakesUp` | src/core/mission/boss.ts:729-733 | whenever a run begins a cycle by asking for a plan, a run started from the tables as they then were begins with the same cycle |
| `BossTrace.RepeatsAreOverdone` | src/core/mission/boss.ts:814-824 | a refusal with the fingerprint of the one before it, or of the stored record for the first, has been recorded as often as it may be |
| `BossTrace.ClaimCompletes` | src/core/mission/boss.ts:762-764 | if the last thing a run heard is a claim of completion that the gates bear out, it returns completed, or cancelled when it was aborted |
| `BossLoop.MissionGoalLoop.PersistState` | src/core/mission/boss.ts:339-340 | written exactly when nobody has moved the mission on; status and every other table stay, and the record reads back |
| `BossLoop.MissionGoalLoop.End` | src/core/mission/boss.ts:524-566 | returns exactly when the ending is possible, with the row and its record as returned; tasks and quality stay |
| `BossLoop.MissionGoalLoop.Await` | src/core/mission/boss.ts:592-600 | one await is one run by other actors before the reply, entered in the trace with the refusal it leads to, if any |
| `BossLoop.MissionGoalLoop.Ask` | src/core/mission/boss.ts:592-600 | one request, made only when it is due and what was heard before is on file, never once the run is aborted; the reply is entered with the cycle it begins, the plan it gives and the failure it is |
| `BossLoop.MissionGoalLoop.TakeFallback` | src/core/mission/boss.ts:632-652 | the hop is recorded and, unless the store refuses, on file; the record stays sound and the budget of requests shrinks |
| `BossLoop.MissionGoalLoop.AskOnce` | src/core/mission/boss.ts:608-655 | one request; it comes to the reply itself, to the cancellation that overtook it, or to a hop that answers the infrastructure failure and uses up a route |
| `BossLoop.MissionGoalLoop.InvokeWithFallback` | src/core/mission/boss.ts:601-655 | terminates with at most one request beyond one per route used up; each hop answers the reply of its own turn; the decision or failure returned is the last reply, or the cancellation, and an infrastructure failure is returned only with no route left; nothing is asked after an abort |
| `BossLoop.MissionGoalLoop.RecordRefusal` | src/core/mission/boss.ts:814-824 | a refusal ends the run exactly when it has been counted as often as the threshold says and the store lets the mission go to review; otherwise the run stays settled |
| `BossLoop.MissionGoalLoop.ActOn` | src/core/mission/boss.ts:807-825 | a pass offers every piece of evidence the work proposed for promotion, re-reads the row and goes on; any other verdict goes on or ends with its refusal settled |
| `BossLoop.MissionGoalLoop.VerifyGuarded` | src/core/mission/boss.ts:803-830 | one verification right after its dispatch records exactly the refusal its reply leads to; an ending that was refused counts as an exception, not as an end; the verdict returned is the reply's |
| `BossLoop.MissionGoalLoop.VerifyTask` | src/core/mission/boss.ts:803-830 | the same, with exceptions mapped: cancellation and safety end the run, any other counts as blocked; after an abort the run never goes on |
| `BossLoop.MissionGoalLoop.WorkOn` | src/core/mission/boss.ts:776-831 | verified work is neither dispatched nor changed, a refused repeat is not dispatched and ends the run, everything else is dispatched once; the run goes on only with nothing left half done |
| `BossLoop.MissionGoalLoop.DispatchTask` | src/core/mission/boss.ts:791-801 | one dispatch, never after an abort; it ends the run exactly for a cancellation, an abort or a safety stop, each with its own terminal |
| `BossLoop.MissionGoalLoop.StopFor` | src/core/mission/boss.ts:735-740 | a cancellation, a safety stop and a provider without fallbacks each end the run with their own terminal, explained by the reply just heard |
| `BossLoop.MissionGoalLoop.PlanFailed` | src/core/mission/boss.ts:735-757 | each kind of failure ends the run with its own terminal; only a protocol failure before the last cycle may leave it going |
| `BossLoop.MissionGoalLoop.EvaluationFailed` | src/core/mission/boss.ts:859-868 | the same for a failed evaluation |
| `BossLoop.MissionGoalLoop.RecordProtocolFailure` | src/core/mission/boss.ts:710-728 | the count kept is that of the equal failures at the end of all failures of the run, and it is called repeated exactly at min(maxCycles, 4) |
| `BossLoop.MissionGoalLoop.EnterRunning` | src/core/mission/boss.ts:657-666 | succeeds exactly when the loop's copy is running already or is current and may be started; then the row is the entered one, and otherwise nothing changes |
| `BossLoop.MissionGoalLoop.RunTasks` | src/core/mission/boss.ts:774-831 | turns to the plan's tasks in order, each once; without an outcome to all of them up to maxTasks, with nothing left half done; at most one dispatch each, and none after an abort |
| `BossLoop.MissionGoalLoop.AdoptPlan` | src/core/mission/boss.ts:756-773 | each action ends the run in its own way or leaves it going with the decision on file; a justified completion always lands |
| `BossLoop.MissionGoalLoop.AdoptEvaluation` | src/core/mission/boss.ts:868-892 | the same for the evaluation, which hands the mission back in the last cycle |
| `BossLoop.MissionGoalLoop.CompletionGate` | src/core/mission/boss.ts:761-773 | a completion is granted only with open gates and acceptance, and always when it is justified |
| `BossLoop.MissionGoalLoop.PlanPhase` | src/core/mission/boss.ts:730-773 | at most one request beyond the fallbacks; the plan is the last reply and acted on as its action says, a failed reply ends the run as its kind says, and without a plan the next cycle may begin; an abort always ends the run |
| `BossLoop.MissionGoalLoop.EvaluatePhase` | src/core/mission/boss.ts:832-892 | at most one request beyond the fallbacks; the last reply ends the run as its action or kind of failure says, or the last cycle hands the mission back, or the next cycle may begin; an abort always ends the run |
| `BossLoop.MissionGoalLoop.RunCycle` | src/core/mission/boss.ts:730-893 | at most two requests beyond the fallbacks and maxTasks dispatches; the run goes on only when the next cycle may begin: it is within the bound, this one is over, and nothing heard or refused stands in the way |
| `BossLoop.MissionGoalLoop.RunCycles` | src/core/mission/boss.ts:729-894 | the cycles from the first to the last: a run that leaves none out, ends explained and stays within its budget |
| `BossLoop.MissionGoalLoop.HandBack` | src/core/mission/boss.ts:752-753 | the mission goes back to the user for one of the four stated reasons, with the number of cycles begun |
| `BossLoop.MissionGoalLoop.BeginCycle` | src/core/mission/boss.ts:730-733 | the cycle, the failures and the refusals so far are on file before the plan is asked for |
| `BossLoop.MissionGoalLoop.ResolveTask` | src/core/mission/boss.ts:776 | the loop turns to a live row that the plan names or that has its identity, with what is left to do about it |
| `BossLoop.MissionGoalLoop.ChooseRoute` | src/core/mission/boss.ts:657-661 | the recorded route, or the scheduler's pick when none is recorded, without using the request budget |
| `BossLoop.MissionGoalLoop.Start` | src/core/mission/boss.ts:657-701 | without an outcome the loop is on that route with a goal it is capable of; it ends blocked only when no route may be chosen, and hands back only once it is on one |
| `WeightRebalance.GenerateWeightRebalance` | src/core/analytics/index.ts:630-663 | terminates; other routes keep their weight; each share is within one half of score / scoreTotal * total where that lies between one and the maximum, and is the bound it exceeds otherwise; the weights then only come down from the lowest scores or only go up at the best one, as the sum asks for; a better score never weighs less, and the sum is max(T, O+|K|) |
| `WeightRebalance.TotalKept` | src/core/analytics/index.ts:648-661 | the old total is kept exactly when no other route weighs anything or every comparable route weighed one; it never grows |
| `WeightRebalance.Lower` | src/core/analytics/index.ts:652-656 | the first loop stops at the total or, if that is lower, when every comparable weight is one; it raises nothing, and lowers a route only when every lower-scored one is down to one |
| `WeightRebalance.Raise` | src/core/analytics/index.ts:657-661 | the second loop reaches the total, lowers nothing and raises only a route of the best score |
| `WeightRebalance.ScorePrefers` | src/core/analytics/index.ts:639-647 | fewer successes, fewer passes, more repairs or a longer time never raise a score |
| `WeightRebalance.ScoreOfFaultless` | src/core/analytics/index.ts:639-647 | a route that never failed and was never repaired scores one if it takes no time and 0.85 if it is the slowest |
| `WeightRebalance.ScoreOfRepaired` | src/core/analytics/index.ts:639-647 | a faultless, instant route that was repaired in every observation scores 0.9 |
| `WeightRebalance.ScoreOfFailing` | src/core/analytics/index.ts:639-647 | an instant route that fails every run scores 0.15, or 0.45 where everything observed passed |
| `WeightRebalance.ShareIsNearest` | src/core/analytics/index.ts:651 | a share is the whole number nearest to the route's part of the total, the higher of two, within one and the maximum |
| `WeightRebalance.ShareMonotone` | src/core/analytics/index.ts:651 | rounding and clamping keep the order of the scores |
| `ConfigDisk.Disk.WriteAtomicFile` | src/core/config/history.ts:160-225 | whatever call fails or is the last before a crash, the target is replaced as a whole or not at all; success means replaced, failure means not |
| `ConfigMigrations.MigrationSettles` | src/core/config/migrations.ts:128-167 | migration settles every configuration and changes none but the unsettled ones |
| `ConfigMigrations.MigrationFills` | src/core/config/migrations.ts:128-167 | every pool and profile stays, a profile without entries gets one for each of its routes in order and keeps the route ids, every missing setting gets its stated default and every given one stays |
| `ConfigMigrations.MigrationIsIdempotent` | src/core/config/migrations.ts:148-150 | migrating twice is migrating once |
| `ConfigMigrations.Migrate` | src/core/config/migrations.ts:128-167 | the loops of assignments over pools, entries and profiles compute the migration |
| `ConfigGenerations.ConfigStore.HighestGeneration` | src/core/config/store.ts:431-440 | the fold gives the highest generation of the history and the active file |
| `ConfigGenerations.ConfigStore.WriteHistorySnapshot` | src/core/config/history.ts:227-242 | the active generation enters the history or nothing changes, at any failure or crash |
| `ConfigGenerations.ConfigStore.WriteActive` | src/core/config/history.ts:160-225 | the new generation is active and recorded as committed, or the old one still is |
| `ConfigGenerations.ConfigStore.PruneHistory` | src/core/config/history.ts:276-296 | deletes only snapshots that 20 newer ones cover, however far it gets; when nothing fails exactly the others remain, at most 20 |
| `ConfigGenerations.ConfigStore.CommitConfig` | src/core/config/store.ts:395-429 | whatever step is the last, the active file is wholly the old or wholly the new generation, and if new the old one is readable in the history; without failures it commits |
| `ConfigGenerations.ConfigStore.Initialize` | src/core/config/store.ts:132-153 | writes only when nothing was ever active, and exactly then on a healthy disk; what it writes is the migrated initial configuration |
| `ConfigGenerations.ConfigStore.Save` | src/core/config/store.ts:155-169 | commits only over the generation it expects, and exactly then on a healthy disk with a readable active file; what it writes supersedes that one |
| `ConfigGenerations.ConfigStore.Update` | src/core/config/store.ts:172-191 | what becomes active is the migrated change of the latest configuration; it is unchanged exactly when the change makes no difference, and on a healthy disk it commits exactly when it makes one and the active file is not damaged |
| `ConfigGenerations.ConfigStore.Restore` | src/core/config/store.ts:197-207 | without failures it commits exactly when the generation is in the history, and then the active configuration is exactly the one committed then |
| `ConfigGenerations.ConfigStore.Restorable` | src/core/config/history.ts:276-296 | the 20 superseded generations before the active one, and one just replaced, are in the history, and those that were committed exactly as committed |
| `ConfigGenerations.ConfigStore.CommittedIsKept` | src/core/config/store.ts:395-429 | a committed generation that is no longer active was superseded as it was committed, unless it was damaged first |
| `ConfigGenerations.ConfigStore.RestoreAndUndo` | src/core/config/store.ts:197-207 | restoring the generation a restore replaced brings the old configuration back, and on a healthy disk both commit whenever the snapshot exists |
| `ConfigGenerations.ConfigStore.Recover` | src/core/config/store.ts:210-252 | repairs from the newest snapshot, two generations above it; newer than the damaged one exactly when that was within one of the history, which after a recovery it is not |
| `ConfigGenerations.ConfigStore.Perform` | src/core/config/store.ts:132-252 | what each operation may do to what is active, and what its outcome says about it |
| `ConfigGenerations.ConfigStore.PerformAll` | src/core/config/store.ts:132-252 | over any run of operations, failures, crashes and damage that starts without a gap, active and committed generations strictly increase if a commit lies between any two recoveries that may have succeeded; saves that committed expected increasing generations; and how far a healthy run moves on |
| `ConfigGenerations.ConfigStore.SaveRunSave` | src/core/config/store.ts:155-169 | of two saves that expect one generation, with any run between them, at most one commits |
| `ConfigGenerations.ConfigStore.SaveRunRestore` | src/core/config/store.ts:155-207 | after a save and any run, a restore of the saved generation that commits brings back exactly what was saved; on a healthy disk it commits if a commit replaced the generation before any damage, the last damage was repaired and the run moved at most 20 generations on |
| `ConfigGenerations.RunFromEmpty` | src/core/config/store.ts:132-252 | from an empty directory, a run whose recoveries have commits between them only ever moves the generation up |
| `PacketFitter.SelectItems` | src/core/context/broker.ts:184-208 | the first wanted items in id order are included; included plus omitted counts admitted items, distinct refused ids and unknown requests |
| `PacketFitter.CountLaw` | src/core/context/broker.ts:204-207 | that is all source items plus unknown requests exactly when no refused item shares its id with another |
| `PacketFitter.DistinctEnough` | src/core/context/broker.ts:204-207 | distinct source ids are enough |
| `PacketFitter.RepeatedRefusalLosesOne` | src/core/context/broker.ts:204-205 | two refused items with one id are counted once |
| `PacketFitter.FitPacketBudget` | src/core/context/broker.ts:210-250 | a packet that fits is returned untouched; findings and lists are cut only at their ends, only when what is trimmed before them is used up, and only as far as the packet before the last cut was too large; the objective goes in steps of 64 down to 16, each needed; it fits or throws, and it throws only when nothing is left to trim |
| `PacketFitter.PacketCount` | src/core/context/broker.ts:184-250 | from the source items to the fitted packet nothing is lost from the count, under the same exact condition |

## Left out

- MutualExclusion: over runs whose heartbeats are punctual, because exclusion fails without (`StalledHeartbeatOverlaps`).
- HolderExcludesOthers: over the same runs, for the same reason.
- RunMissionGoalLoop: the texts it returns and records beyond kind and summary are not stated.
- Events, checkpoints, escalations, evidence provenance columns, analytics events and audit events: written beside the modelled rows and never read by a guard.
- SQL and JSON text, schema migration, backup and restore of the database, integrity checks: rows are modelled directly.
- Fault hooks of the mission store: a call either commits or throws; crashes of the database process are SQLite's to undo.
- Field-by-field validation of inputs: one flag per draft says whether the fields are in order; ids are numbers with a total order, times are natural numbers.
- The second clock reading inside one call: each call has one time, except the heartbeat, which has both.
- Hashing and Unicode normalisation: the rejection digest is a function parameter; a task's identity is its class and its already normalised objective, which is also what a fingerprint takes as instruction.
- How token usages add up and what a failure's diagnostic says: function parameters; feedback and terminal reasons carry a kind and a summary.
- Weighted scheduling of the first route: any choice among the eligible entries.
- Acceptance-criteria extraction and the capability check: function parameters of the loop.
- normalizeBossDecision and the failure classification: a reply is a decision or one of four kinds of failure.
- Steps of other actors between two synchronous statements of the loop: the source runs them without yielding, so interference happens only at the awaits.
- supersededBy, formatBossLoopDiagnostics and the prompt projection: they only read.
- Floating point: scores and shares are exact reals.
- The tie-break by route name in the recommendation's title, and its score and sample text.
- Stale-lock breaking and lock waiting: the storage lock is taken to be exclusive.
- Deletion of the active file from outside and damage to history snapshots: only the active file is damaged.
- Loss of renamed files after a power failure: a rename is durable once it has happened.
- Schema validation of configurations and import parsing: every configuration given is valid; import activation is a save.
- Clean-up of temporary files: they are never read.
- Building the rest of a packet, its id and its digest: only selection and fitting are modelled, and localeCompare is the order of the ids.
