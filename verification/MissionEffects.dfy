/**
 What an accepted call leaves behind, told row by row and apart from how the
 call computes it, and what follows from that over later runs.
 */
module MissionEffects {
  import opened Wrappers
  import opened MissionTables
  import opened MissionOps
  import opened MissionInvariant
  import opened MissionRuns

  /** Outside `keys` no row was added, changed or deleted. */
  ghost predicate Elsewhere<K(!new), V>(a: map<K, V>, b: map<K, V>, keys: set<K>) {
    && (forall k | k in a && k !in keys :: k in b && b[k] == a[k])
    && (forall k | k in b && k !in keys :: k in a)
  }

  // ----- attempts -----

  /** A task that differs in its status and its last run only. */
  predicate SameTask(a: Task, b: Task) { b == a.(status := b.status, lastRun := b.lastRun, revision := a.revision + 1) }

  /** No verdict, no verification and no round. */
  predicate NotVerified(q: Quality) { q.status.Unverified? && q.round == 0 && q.verification.None? && q.decision.None? }

  /** A new attempt runs alone on its task; on an implementation task whatever was verified before counts no more. */
  lemma AttemptBegins(db: Database, now: Time, a: Id, draft: AttemptDraft)
    requires CreateAttempt(db, now, a, draft).Ok?
    ensures var next := CreateAttempt(db, now, a, draft).value; var t := draft.task;
      && next == db.(tasks := next.tasks, attempts := next.attempts, quality := next.quality)
      && Elsewhere(db.tasks, next.tasks, {t}) && Elsewhere(db.attempts, next.attempts, {a}) && Elsewhere(db.quality, next.quality, {t})
      && t in db.tasks && t in next.tasks && SameTask(db.tasks[t], next.tasks[t])
      && next.tasks[t].status.Running? && next.tasks[t].lastRun == Some(a)
      && a !in db.attempts && a in next.attempts
      && next.attempts[a].task == t && next.attempts[a].mission == db.tasks[t].mission && next.attempts[a].status.Running?
      && next.attempts[a].leaseOwner == draft.leaseOwner && next.attempts[a].terminalState.None?
      && (next.attempts[a].leaseExpires.Some? <==> Named(draft.leaseOwner))
      && (next.attempts[a].leaseExpires.Some? ==> next.attempts[a].leaseExpires.value == now + draft.ttl > now)
      && (db.tasks[t].executionClass.Implementation? ==>
            t in next.quality && NotVerified(next.quality[t]) && next.quality[t].mission == db.tasks[t].mission)
      && (!db.tasks[t].executionClass.Implementation? ==> next.quality == db.quality)
  {}

  /**
   The task follows its attempt: executed exactly when that succeeded, free to
   be run again exactly when it was interrupted or ran out of time, cancelled
   exactly when it was, and blocked in every other case.
   */
  lemma AttemptEnds(db: Database, a: Id, status: FinishedAttemptStatus, terminalState: Option<Text>)
    requires Inv(db) && FinishAttempt(db, a, status, terminalState).Ok?
    ensures var next := FinishAttempt(db, a, status, terminalState).value;
      && a in db.attempts && next == db.(tasks := next.tasks, attempts := next.attempts)
      && var t := db.attempts[a].task;
      && Elsewhere(db.attempts, next.attempts, {a}) && Elsewhere(db.tasks, next.tasks, {t})
      && a in next.attempts && next.attempts[a] == db.attempts[a].(status := status, terminalState := terminalState)
      && t in db.tasks && t in next.tasks && SameTask(db.tasks[t], next.tasks[t]) && next.tasks[t].lastRun == db.tasks[t].lastRun
      && (next.tasks[t].status.ExecutionCompleted? <==> status.Succeeded?)
      && (Runnable(next.tasks[t].status) <==> status.Interrupted? || status.TimedOut?)
      && (next.tasks[t].status.Cancelled? <==> status.Cancelled?)
      && (next.tasks[t].status.Blocked? <==> status.Failed? || status.Unknown?)
  {
    hide HistoryOk, VerificationsOk, DecisionsOk, QualityOk, EvidenceOk, LeasesOk;
  }

  // ----- verdicts -----

  /** A finalised verification is completed by its one decision, and the task is passed exactly when the verdict is. */
  lemma VerdictStored(db: Database, now: Time, v: Id, d: Id, draft: DecisionDraft)
    requires FinalizeQualityVerification(db, now, v, d, draft).Ok?
    ensures var next := FinalizeQualityVerification(db, now, v, d, draft).value;
      && next == db.(verifications := next.verifications, decisions := next.decisions, quality := next.quality)
      && v in db.verifications && d !in db.decisions
      && var run := db.verifications[v];
      && Elsewhere(db.verifications, next.verifications, {v}) && Elsewhere(db.decisions, next.decisions, {d})
      && Elsewhere(db.quality, next.quality, {run.task})
      && v in next.verifications && next.verifications[v] == run.(status := VerificationStatus.Completed, decision := Some(d))
      && d in next.decisions && next.decisions[d] ==
           Decision(run.mission, run.task, v, run.target, run.round, draft.verdict, draft.detail, now)
      && run.task in next.quality
      && var q := next.quality[run.task];
      && q.mission == run.mission && q.round == run.round && q.verification == Some(v) && q.decision == Some(d)
      && (q.status.Passed? <==> draft.verdict.Pass?) && (q.status.Rejected? <==> draft.verdict.Reject?)
      && (q.status.Blocked? <==> draft.verdict.Block?)
  {}

  /** A verification that ends without a decision leaves none behind, and asks for review or blocks as it was told. */
  lemma FailureStored(db: Database, v: Id, review: bool)
    requires Inv(db) && v in db.verifications && db.verifications[v].status.Running?
    ensures FinalizeQualityFailure(db, v, review).Ok?
    ensures var next := FinalizeQualityFailure(db, v, review).value; var run := db.verifications[v];
      && next == db.(verifications := next.verifications, quality := next.quality)
      && Elsewhere(db.verifications, next.verifications, {v}) && Elsewhere(db.quality, next.quality, {run.task})
      && v in next.verifications && next.verifications[v] == run.(status := next.verifications[v].status)
      && (if review then next.verifications[v].status.Interrupted? else next.verifications[v].status.Blocked?)
      && run.task in next.quality
      && var q := next.quality[run.task];
      && (if review then q.status.ReviewRequired? else q.status.Blocked?)
      && q.mission == run.mission && q.round == run.round && q.verification == Some(v) && q.decision.None?
  {
    hide HistoryOk, DecisionsOk, QualityOk, EvidenceOk, LeasesOk;
  }

  // ----- the gate of one task over later runs -----

  predicate IsPassed(db: Database, t: Id) { t in db.quality && db.quality[t].status.Passed? }

  /** An accepted call that gives the task a passing verdict. */
  ghost predicate Passes(db: Database, step: Step, t: Id) {
    && Apply(db, step.now, step.op).thrown.None?
    && match step.op
       case OpFinalize(v, _, draft) => v in db.verifications && db.verifications[v].task == t && draft.verdict.Pass?
       case OpSetQuality(q) => q.task == t && q.status.Passed?
       case _ => false
  }

  /** Some call of the run passes the task. */
  ghost predicate EverPasses(db: Database, steps: seq<Step>, t: Id)
    decreases |steps|
  {
    steps != [] && (Passes(db, steps[0], t) || EverPasses(Apply(db, steps[0].now, steps[0].op).db, steps[1..], t))
  }

  /** The calls that touch no quality row. */
  predicate LeavesQuality(op: Op) {
    op.OpCreateMission? || op.OpUpdateMission? || op.OpTransitionMission? || op.OpSaveTaskPacket? || op.OpStartTask? || op.OpFinishTask? ||
    op.OpFinishAttempt? || op.OpCreateVerification? || op.OpUpdateVerification? || op.OpRecordDecision? || op.OpAdmitEvidence? ||
    op.OpPromote? || op.OpRejectEvidence? || op.OpAcquire? || op.OpHeartbeat? || op.OpRelease? || op.OpClaim?
  }

  lemma QualityLeftByPromotion(db: Database, now: Time, e: Id, itemId: Id, options: PromoteOptions)
    ensures PromoteEvidence(db, now, e, itemId, options).db.quality == db.quality
  {
    hide AcceptEvidence, Outdated, MarkStale;
  }

  lemma QualityLeft(db: Database, now: Time, op: Op)
    requires LeavesQuality(op)
    ensures Apply(db, now, op).db.quality == db.quality
  {
    hide CreateMission, UpdateMission, TransitionMission, CreateTask, SaveTaskPacket, SetTask, StartTask, CreateAttempt, FinishAttempt,
         CreateVerificationRun, UpdateVerificationRun, RecordQualityDecision, FinalizeQualityVerification, FinalizeQualityFailure,
         SetTaskQualityStatus, AdmitEvidence, AcceptEvidence, RejectEvidence, AcquireLease, HeartbeatLease, ReleaseLease,
         PromoteEvidence, Follow, InterruptOwnedExecution, RecoverInterrupted;
    if op.OpPromote? { QualityLeftByPromotion(db, now, op.e, op.itemId, op.options); }
  }

  lemma PassedByCreation(db: Database, step: Step, t: Id)
    requires step.op.OpCreateTask? || step.op.OpCreateAttempt?
    ensures IsPassed(Apply(db, step.now, step.op).db, t) ==> IsPassed(db, t)
  {
    hide CreateMission, UpdateMission, TransitionMission, SaveTaskPacket, SetTask, StartTask, FinishAttempt,
         CreateVerificationRun, UpdateVerificationRun, RecordQualityDecision, FinalizeQualityVerification, FinalizeQualityFailure,
         SetTaskQualityStatus, AdmitEvidence, AcceptEvidence, RejectEvidence, AcquireLease, HeartbeatLease, ReleaseLease,
         Follow, InterruptOwnedExecution, RecoverInterrupted;
  }

  lemma PassedByFinalize(db: Database, now: Time, v: Id, d: Id, draft: DecisionDraft, t: Id)
    ensures var step := Step(now, OpFinalize(v, d, draft));
      && (IsPassed(Apply(db, now, step.op).db, t) ==> IsPassed(db, t) || Passes(db, step, t))
      && (Passes(db, step, t) ==> IsPassed(Apply(db, now, step.op).db, t))
  {
    hide CreateMission, UpdateMission, TransitionMission, CreateTask, SaveTaskPacket, SetTask, StartTask, CreateAttempt, FinishAttempt,
         CreateVerificationRun, UpdateVerificationRun, RecordQualityDecision, FinalizeQualityVerification,
         PromoteEvidence, AdmitEvidence, AcceptEvidence, RejectEvidence, AcquireLease, HeartbeatLease, ReleaseLease,
         ClaimMissionExecution, Follow, InterruptOwnedExecution, RecoverInterrupted, FinalizeQualityFailure, SetTaskQualityStatus;
    if FinalizeQualityVerification(db, now, v, d, draft).Ok? { VerdictStored(db, now, v, d, draft); }
  }

  lemma PassedByQualityCall(db: Database, step: Step, t: Id)
    requires step.op.OpFinalizeFailure? || step.op.OpSetQuality?
    ensures IsPassed(Apply(db, step.now, step.op).db, t) ==> IsPassed(db, t) || Passes(db, step, t)
    ensures Passes(db, step, t) ==> IsPassed(Apply(db, step.now, step.op).db, t)
  {
    hide CreateMission, UpdateMission, TransitionMission, CreateTask, SaveTaskPacket, SetTask, StartTask, CreateAttempt, FinishAttempt,
         CreateVerificationRun, UpdateVerificationRun, RecordQualityDecision, FinalizeQualityVerification,
         PromoteEvidence, AdmitEvidence, AcceptEvidence, RejectEvidence, AcquireLease, HeartbeatLease, ReleaseLease,
         ClaimMissionExecution, Follow, InterruptOwnedExecution, RecoverInterrupted;
  }

  lemma ReviewIsNoPass(db: Database, attempts: set<Id>, how: Text, verifications: set<Id>, t: Id)
    ensures IsPassed(InterruptVerifications(InterruptAttempts(db, attempts, how), verifications), t) ==> IsPassed(db, t)
  {
    hide RunAbout, TasksOf;
  }

  lemma PassedByRecovery(db: Database, step: Step, t: Id)
    requires step.op.OpInterrupt? || step.op.OpRecover?
    ensures IsPassed(Apply(db, step.now, step.op).db, t) ==> IsPassed(db, t)
  {
    hide CreateMission, UpdateMission, TransitionMission, CreateTask, SaveTaskPacket, SetTask, StartTask, CreateAttempt, FinishAttempt,
         CreateVerificationRun, UpdateVerificationRun, RecordQualityDecision, FinalizeQualityVerification, FinalizeQualityFailure,
         SetTaskQualityStatus, PromoteEvidence, AdmitEvidence, AcceptEvidence, RejectEvidence, AcquireLease, HeartbeatLease,
         ReleaseLease, ClaimMissionExecution, InterruptVerifications, InterruptAttempts, LapsedAttempts, LapsedVerifications,
         OwnedAttempts, RunningVerifications, AffectedMissions, ReviewedMissions, ReviewRows, ReviewRevisions;
    match step.op
    case OpInterrupt(m, owner, asOf) =>
      ReviewIsNoPass(db, OwnedAttempts(db, m, owner), "interrupted_shutdown", RunningVerifications(db, m), t);
    case OpRecover(asOf, owner) =>
      var time := asOf.GetOr(step.now);
      ReviewIsNoPass(db, LapsedAttempts(db, time, owner), "recovered_interrupted", LapsedVerifications(db, time, owner), t);
  }

  /** A task that has not passed passes by a call that says so, and by no other. */
  lemma OnlyVerdictsPass(db: Database, step: Step, t: Id)
    ensures IsPassed(Apply(db, step.now, step.op).db, t) ==> IsPassed(db, t) || Passes(db, step, t)
    ensures Passes(db, step, t) ==> IsPassed(Apply(db, step.now, step.op).db, t)
  {
    hide Apply, IsPassed, Passes;
    PassesByQualityCall(db, step, t);
    if LeavesQuality(step.op) {
      QualityLeft(db, step.now, step.op);
      SamePassed(db, Apply(db, step.now, step.op).db, t);
    } else if step.op.OpCreateTask? || step.op.OpCreateAttempt? {
      PassedByCreation(db, step, t);
    } else if step.op.OpInterrupt? || step.op.OpRecover? {
      PassedByRecovery(db, step, t);
    } else if step.op.OpFinalize? {
      PassedByFinalize(db, step.now, step.op.v, step.op.d, step.op.decisionDraft, t);
    } else {
      PassedByQualityCall(db, step, t);
    }
  }

  lemma PassesByQualityCall(db: Database, step: Step, t: Id)
    ensures Passes(db, step, t) ==> step.op.OpFinalize? || step.op.OpSetQuality?
  {
    hide Apply;
  }

  lemma SamePassed(a: Database, b: Database, t: Id)
    requires a.quality == b.quality
    ensures IsPassed(a, t) <==> IsPassed(b, t)
  {}

  /** Over a run without such a call a task that has not passed does not pass. */
  lemma {:induction false} NotPassedUnlessJudged(db: Database, steps: seq<Step>, t: Id)
    requires !IsPassed(db, t) && !EverPasses(db, steps, t)
    ensures !IsPassed(Run(db, steps), t)
    decreases |steps|
  {
    hide Apply, Passes, IsPassed;
    if steps != [] {
      OnlyVerdictsPass(db, steps[0], t);
      NotPassedUnlessJudged(Apply(db, steps[0].now, steps[0].op).db, steps[1..], t);
    }
  }

  /**
   A new attempt on an implementation task shuts the gate: whatever happens
   afterwards, the mission cannot be completed while the task counts, unless
   some later call gives the task a passing verdict.
   */
  lemma FreshAttemptShutsTheGate(db: Database, now: Time, a: Id, draft: AttemptDraft, steps: seq<Step>)
    requires CreateAttempt(db, now, a, draft).Ok? && draft.task in db.tasks && db.tasks[draft.task].executionClass.Implementation?
    requires !EverPasses(CreateAttempt(db, now, a, draft).value, steps, draft.task)
    ensures var last := Run(CreateAttempt(db, now, a, draft).value, steps);
      && !IsPassed(last, draft.task)
      && forall m :: draft.task in ActiveTasks(last.tasks, m) ==> !Completable(last, m)
  {
    hide Apply, Run, EverPasses, ActiveTasks, CreateAttempt;
    AttemptBegins(db, now, a, draft);
    NotPassedUnlessJudged(CreateAttempt(db, now, a, draft).value, steps, draft.task);
  }

  // ----- missions -----

  /** A patch changes what it names, under the next revision, and nothing else. */
  lemma MissionPatched(db: Database, now: Time, m: Id, patch: MissionPatch, expected: Option<nat>)
    requires UpdateMission(db, now, m, patch, expected).Ok?
    ensures var next := UpdateMission(db, now, m, patch, expected).value;
      && next == db.(missions := next.missions, revisions := next.revisions)
      && Elsewhere(db.missions, next.missions, {m}) && m in db.missions && m in next.missions
      && var a := db.missions[m]; var b := next.missions[m];
      && Elsewhere(db.revisions, next.revisions, {RevisionKey(m, b.revision)})
      && RevisionKey(m, b.revision) in next.revisions && next.revisions[RevisionKey(m, b.revision)] == b
      && b.revision == a.revision + 1 && b.status == a.status && b.updatedAt == now
      && b.validatedFindings == a.validatedFindings && b.completedWork == a.completedWork && b.testReviewEvidence == a.testReviewEvidence
      && (patch.goal.None? ==> b.goal == a.goal) && (patch.goal.Some? ==> b.goal == patch.goal.value)
      && (patch.plan.None? ==> b.plan == a.plan) && (patch.plan.Some? ==> b.plan == patch.plan.value)
      && (patch.acceptanceCriteria.None? ==> b.acceptanceCriteria == a.acceptanceCriteria)
      && (patch.acceptanceCriteria.Some? ==> b.acceptanceCriteria == patch.acceptanceCriteria.value)
  {}

  /** A row that differs in its status, and in what every new revision renews. */
  predicate OnlyStatus(a: Mission, b: Mission) {
    b == a.(status := b.status, revision := b.revision, changeState := b.changeState, updatedAt := b.updatedAt)
  }

  lemma MissionMoved(db: Database, now: Time, m: Id, status: MissionStatus, actor: Actor, expected: Option<nat>)
    requires TransitionMission(db, now, m, status, actor, expected).Ok?
    ensures var next := TransitionMission(db, now, m, status, actor, expected).value;
      && next == db.(missions := next.missions, revisions := next.revisions)
      && Elsewhere(db.missions, next.missions, {m}) && m in db.missions && m in next.missions
      && OnlyStatus(db.missions[m], next.missions[m]) && next.missions[m].status == status && next.missions[m].changeState == Entered(status)
      && next.missions[m].revision == db.missions[m].revision + 1 && next.missions[m].updatedAt == now
  {
    hide Completable;
  }

  // ----- evidence -----

  /** The log of a mission that a target names. */
  function LogOf(row: Mission, target: Target): seq<CanonicalItem> {
    match target
    case ValidatedFindings => row.validatedFindings
    case CompletedWork => row.completedWork
    case TestReviewEvidence => row.testReviewEvidence
    case ApprovedDecisions => PromotedOf(row.approvedDecisions)
  }

  /** The items among the approved decisions. */
  function PromotedOf(approved: seq<ApprovedDecision>): seq<CanonicalItem> {
    if approved == [] then []
    else
      var last := approved[|approved| - 1];
      PromotedOf(approved[..|approved| - 1]) + (if last.Promoted? then [last.item] else [])
  }

  lemma OneMorePromoted(approved: seq<ApprovedDecision>, item: CanonicalItem)
    ensures PromotedOf(approved + [Promoted(item)]) == PromotedOf(approved) + [item]
  {
    assert (approved + [Promoted(item)])[..|approved|] == approved;
  }

  /** Accepted evidence enters the log its target names, at the end and nowhere else, and its item and revision with it. */
  lemma PromotionLands(db: Database, now: Time, e: Id, itemId: Id, options: PromoteOptions)
    requires PromoteEvidence(db, now, e, itemId, options).thrown.None?
    ensures var next := PromoteEvidence(db, now, e, itemId, options).db;
      && next == db.(missions := next.missions, revisions := next.revisions, evidence := next.evidence, items := next.items)
      && e in db.evidence && db.evidence[e].status.Proposed?
      && var m := db.evidence[e].mission;
      && Elsewhere(db.evidence, next.evidence, {e}) && Elsewhere(db.items, next.items, {itemId}) && Elsewhere(db.missions, next.missions, {m})
      && e in next.evidence && next.evidence[e] == db.evidence[e].(status := Accepted)
      && itemId !in db.items && itemId in next.items
      && var item := next.items[itemId].item;
      && item.itemId == itemId && item.source == e && item.value == db.evidence[e].content && item.promotedAt == now
      && item.kind == (if options.kind.Some? then options.kind.value else db.evidence[e].kind)
      && m in db.missions && m in next.missions
      && var a := db.missions[m]; var b := next.missions[m];
      && next.items[itemId].mission == m && next.items[itemId].revision == b.revision == a.revision + 1
      && b.status == a.status && b.plan == a.plan && b.goal == a.goal && b.acceptanceCriteria == a.acceptanceCriteria
      && (forall target :: LogOf(b, target) == if target == options.target then LogOf(a, target) + [item] else LogOf(a, target))
  {
    hide SaveRevision, PromotedOf;
    var m := db.evidence[e].mission;
    var a := db.missions[m];
    var item := CanonicalItem(itemId, options.kind.GetOr(db.evidence[e].kind), db.evidence[e].content, e, now);
    OneMorePromoted(a.approvedDecisions, item);
    RowSaved(db.(evidence := db.evidence[e := db.evidence[e].(status := Accepted)],
                 items := db.items[itemId := ItemRow(m, a.revision + 1, item)]), m, AppendItem(a, now, options.target, item));
  }

  lemma RowSaved(db: Database, m: Id, row: Mission)
    ensures SaveRevision(db, m, row).Ok? ==>
      SaveRevision(db, m, row).value == db.(missions := db.missions[m := row], revisions := db.revisions[RevisionKey(m, row.revision) := row])
  {}

  /** A refused promotion changes nothing, except that outdated evidence is stale from then on. */
  lemma PromotionRefused(db: Database, now: Time, e: Id, itemId: Id, options: PromoteOptions)
    requires PromoteEvidence(db, now, e, itemId, options).thrown.Some?
    ensures var next := PromoteEvidence(db, now, e, itemId, options).db;
      var stale := e in db.evidence && db.evidence[e].status.Proposed? && db.evidence[e].mission in db.missions &&
        db.evidence[e].sourceRevision.Some? && db.evidence[e].sourceRevision.value != db.missions[db.evidence[e].mission].revision;
      if stale then next == db.(evidence := db.evidence[e := db.evidence[e].(status := Stale)]) else next == db
  {
    hide AppendItem, SaveRevision;
  }

  // ----- leases and claims -----

  /** A lease that was taken runs for its time from now, and says from whom it was recovered. */
  lemma LeaseTaken(db: Database, now: Time, m: Id, owner: Text, ttl: int)
    requires AcquireLease(db, now, m, owner, ttl).Ok?
    ensures var next := AcquireLease(db, now, m, owner, ttl).value;
      && next == db.(leases := next.leases) && Elsewhere(db.leases, next.leases, {m}) && m in next.leases
      && var l := next.leases[m];
      && l.owner == owner && l.heartbeatAt == now && l.expiresAt == now + ttl > now
      && (m in db.leases && db.leases[m].owner == owner ==> l.acquiredAt == db.leases[m].acquiredAt && l.recoveredFrom.None?)
      && (m !in db.leases || db.leases[m].owner != owner ==> l.acquiredAt == now)
      && (l.recoveredFrom.Some? ==> m in db.leases && l.recoveredFrom.value == db.leases[m].owner != owner && db.leases[m].expiresAt <= now)
  {
    hide Blank;
  }

  lemma {:induction false} FollowOnlyMoves(db: Database, now: Time, m: Id, path: seq<MissionStatus>)
    requires m in db.missions && Follow(db, now, m, path).Ok?
    ensures var next := Follow(db, now, m, path).value;
      && next == db.(missions := next.missions, revisions := next.revisions)
      && Elsewhere(db.missions, next.missions, {m}) && m in next.missions && OnlyStatus(db.missions[m], next.missions[m])
    decreases |path|
  {
    hide TransitionMission;
    if path != [] {
      MissionMoved(db, now, m, path[0], System, None);
      FollowOnlyMoves(TransitionMission(db, now, m, path[0], System, None).value, now, m, path[1..]);
    }
  }

  /** A claim takes the lease and moves the mission, and touches nothing else of anyone's. */
  lemma ClaimTakesOnly(db: Database, now: Time, m: Id, owner: Text, ttl: int)
    requires ClaimMissionExecution(db, now, m, owner, ttl).Ok?
    ensures var next := ClaimMissionExecution(db, now, m, owner, ttl).value;
      && next == db.(missions := next.missions, revisions := next.revisions, leases := next.leases)
      && Elsewhere(db.missions, next.missions, {m}) && Elsewhere(db.leases, next.leases, {m})
      && m in db.missions && m in next.missions && OnlyStatus(db.missions[m], next.missions[m])
      && m in next.leases && next.leases[m].owner == owner && next.leases[m].expiresAt == now + ttl
  {
    hide AcquireLease, Follow, Closed;
    LeaseTaken(db, now, m, owner, ttl);
    FollowOnlyMoves(AcquireLease(db, now, m, owner, ttl).value, now, m, ClaimPath(db.missions[m].status));
  }

  // ----- interruption and recovery -----

  /** Exactly the attempts in `runs` are interrupted, and with each its task if that was running. */
  predicate AttemptsHalted(a: Database, b: Database, runs: set<Id>, how: Text) {
    && a.attempts.Keys == b.attempts.Keys && a.tasks.Keys == b.tasks.Keys
    && (forall r | r in a.attempts ::
          b.attempts[r] == if r in runs then a.attempts[r].(status := AttemptStatus.Interrupted, terminalState := Some(how)) else a.attempts[r])
    && (forall t | t in a.tasks ::
          if a.tasks[t].status.Running? && (exists r | r in runs && r in a.attempts :: a.attempts[r].task == t)
          then b.tasks[t] == a.tasks[t].(status := TaskStatus.Interrupted, revision := a.tasks[t].revision + 1)
          else b.tasks[t] == a.tasks[t])
  }

  /** Exactly the verifications in `runs` are interrupted, and the task of each asks for a review of it. */
  predicate VerificationsHalted(a: Database, b: Database, runs: set<Id>) {
    && a.verifications.Keys == b.verifications.Keys && a.quality.Keys == b.quality.Keys
    && (forall v | v in a.verifications ::
          b.verifications[v] == if v in runs then a.verifications[v].(status := VerificationStatus.Interrupted) else a.verifications[v])
    && (forall v | v in runs && v in a.verifications && a.verifications[v].task in a.quality ::
          b.quality[a.verifications[v].task] ==
            a.quality[a.verifications[v].task].(status := ReviewRequired, round := a.verifications[v].round, verification := Some(v)))
    && (forall t | t in a.quality ::
          (forall v | v in runs && v in a.verifications :: a.verifications[v].task != t) ==> b.quality[t] == a.quality[t])
  }

  predicate NoLiveLease(db: Database, m: Id, at: Time) { m !in db.leases || db.leases[m].expiresAt <= at }

  /** The attempts a recovery takes: running, out of their own time, and under no lease that lives (or the named owner's). */
  function AttemptsToRecover(db: Database, at: Time, owner: Option<Text>): set<Id> {
    set a | a in db.attempts && db.attempts[a].status.Running?
            && (db.attempts[a].leaseExpires.None? || db.attempts[a].leaseExpires.value <= at)
            && (owner.None? ==> NoLiveLease(db, db.attempts[a].mission, at)) && (owner.Some? ==> db.attempts[a].leaseOwner == owner)
  }

  function VerificationsToRecover(db: Database, at: Time, owner: Option<Text>): set<Id> {
    set v | v in db.verifications && db.verifications[v].status.Running? && NoLiveLease(db, db.verifications[v].mission, at)
            && (owner.Some? ==> db.verifications[v].mission in db.leases && db.leases[db.verifications[v].mission].owner == owner.value)
  }

  /** One of the recovered executions belongs to the mission. */
  predicate Hit(db: Database, attempts: set<Id>, verifications: set<Id>, m: Id) {
    || (exists a | a in attempts && a in db.attempts :: db.attempts[a].mission == m)
    || (exists v | v in verifications && v in db.verifications :: db.verifications[v].mission == m)
  }

  /** The plan says it was interrupted, and is otherwise as before. */
  predicate MarkedInterrupted(a: Json, b: Json) {
    && b.Obj? && "orchestration" in b.fields && b.fields["orchestration"].Obj?
    && var record := b.fields["orchestration"].fields;
    && "terminal" in record && record["terminal"] == Str("INTERRUPTED")
    && "terminalReason" in record && record["terminalReason"] == Str("Recovered interrupted execution")
    && (forall k | k in b.fields :: k != "orchestration" ==> k in Fields(a) && b.fields[k] == Fields(a)[k])
    && (forall k | k in Fields(a) :: k in b.fields)
    && var before := if "orchestration" in Fields(a) then Fields(Fields(a)["orchestration"]) else map[];
    && (forall k | k in before :: k in record && (k != "terminal" && k != "terminalReason" ==> record[k] == before[k]))
    && (forall k | k in record :: k == "terminal" || k == "terminalReason" || k in before)
  }

  /** A row sent to review with its plan marked, and nothing else of it changed. */
  predicate RowRecovered(a: Mission, b: Mission, now: Time) {
    && OnlyStatus(a, b.(plan := a.plan)) && MarkedInterrupted(a.plan, b.plan)
    && b.status.AwaitingReview? && b.revision == a.revision + 2 && b.updatedAt == now
  }

  lemma PlanMarked(plan: Json)
    ensures MarkedInterrupted(plan, InterruptedPlan(plan))
  {}

  lemma AttemptsEffect(db: Database, runs: set<Id>, how: Text)
    ensures var next := InterruptAttempts(db, runs, how);
      next == db.(attempts := next.attempts, tasks := next.tasks) && AttemptsHalted(db, next, runs, how)
  {}

  lemma VerificationsEffect(db: Database, runs: set<Id>)
    requires forall v, w | v in runs && w in runs && v in db.verifications && w in db.verifications ::
      db.verifications[v].task == db.verifications[w].task ==> v == w
    ensures var next := InterruptVerifications(db, runs);
      next == db.(verifications := next.verifications, quality := next.quality) && VerificationsHalted(db, next, runs)
  {}

  lemma SameTaken(db: Database, at: Time, owner: Option<Text>)
    ensures LapsedAttempts(db, at, owner) == AttemptsToRecover(db, at, owner)
    ensures LapsedVerifications(db, at, owner) == VerificationsToRecover(db, at, owner)
  {}

  lemma HitIsAffected(db: Database, attempts: set<Id>, verifications: set<Id>, m: Id)
    ensures m in AffectedMissions(db, attempts, verifications) <==> Hit(db, attempts, verifications, m)
  {}

  /** Recovery is refused as a whole exactly when it would hit a mission that is planned, paused or blocked. */
  lemma RecoveryCommits(db: Database, now: Time, asOf: Option<Time>, owner: Option<Text>)
    ensures var attempts := AttemptsToRecover(db, asOf.GetOr(now), owner); var verifications := VerificationsToRecover(db, asOf.GetOr(now), owner);
      RecoverInterrupted(db, now, asOf, owner).Ok? <==>
        forall m | m in db.missions && Hit(db, attempts, verifications, m) ::
          !db.missions[m].status.Planned? && !db.missions[m].status.Paused? && !db.missions[m].status.Blocked?
  {
    hide LapsedAttempts, LapsedVerifications, AffectedMissions, Hit, AttemptsToRecover, VerificationsToRecover, InterruptAttempts,
         InterruptVerifications, ReviewMissions;
    var at := asOf.GetOr(now);
    SameTaken(db, at, owner);
    forall m ensures m in AffectedMissions(db, LapsedAttempts(db, at, owner), LapsedVerifications(db, at, owner)) <==>
      Hit(db, AttemptsToRecover(db, at, owner), VerificationsToRecover(db, at, owner), m)
    {
      HitIsAffected(db, LapsedAttempts(db, at, owner), LapsedVerifications(db, at, owner), m);
    }
  }

  lemma RunsApart(db: Database, runs: set<Id>)
    requires Inv(db) && forall v | v in runs :: v in db.verifications && db.verifications[v].status.Running?
    ensures forall v, w | v in runs && w in runs && v in db.verifications && w in db.verifications ::
      db.verifications[v].task == db.verifications[w].task ==> v == w
  {
    hide HistoryOk, TasksOk, AttemptsOk, DecisionsOk, QualityOk, EvidenceOk, LeasesOk;
  }

  lemma ReviewEffect(db: Database, now: Time, ms: set<Id>)
    ensures var next := ReviewMissions(db, now, ms);
      && next == db.(missions := next.missions, revisions := next.revisions) && next.missions.Keys == db.missions.Keys
      && forall m | m in db.missions :: if m in ms then RowRecovered(db.missions[m], next.missions[m], now) else next.missions[m] == db.missions[m]
  {
    hide MarkedInterrupted, InterruptedPlan, ReviewRows, ReviewRevisions;
    forall m | m in db.missions ensures MarkedInterrupted(db.missions[m].plan, InterruptedPlan(db.missions[m].plan)) {
      PlanMarked(db.missions[m].plan);
    }
  }

  /**
   After a committed recovery exactly the executions it had to take are
   interrupted, their tasks can be started again and ask for review, and each
   mission that was at work on one waits for review with its plan marked.
   Everything else is as it was.
   */
  lemma RecoveryInterrupts(db: Database, now: Time, asOf: Option<Time>, owner: Option<Text>)
    requires Inv(db) && RecoverInterrupted(db, now, asOf, owner).Ok?
    ensures var next := RecoverInterrupted(db, now, asOf, owner).value;
      var attempts := AttemptsToRecover(db, asOf.GetOr(now), owner); var verifications := VerificationsToRecover(db, asOf.GetOr(now), owner);
      && next == db.(missions := next.missions, revisions := next.revisions, tasks := next.tasks, attempts := next.attempts,
                     verifications := next.verifications, quality := next.quality)
      && AttemptsHalted(db, next, attempts, "recovered_interrupted") && VerificationsHalted(db, next, verifications)
      && next.missions.Keys == db.missions.Keys
      && (forall m | m in db.missions ::
            if Hit(db, attempts, verifications, m) && (db.missions[m].status.Running? || db.missions[m].status.Active?)
            then RowRecovered(db.missions[m], next.missions[m], now) else next.missions[m] == db.missions[m])
      && (forall m | m in db.missions && Hit(db, attempts, verifications, m) ::
            !db.missions[m].status.Planned? && !db.missions[m].status.Paused? && !db.missions[m].status.Blocked?)
  {
    hide Inv, InterruptAttempts, InterruptVerifications, ReviewMissions, LapsedAttempts, LapsedVerifications, AffectedMissions, Hit,
         AttemptsToRecover, VerificationsToRecover, AttemptsHalted, VerificationsHalted, RowRecovered;
    var at := asOf.GetOr(now);
    SameTaken(db, at, owner);
    var attempts, verifications := LapsedAttempts(db, at, owner), LapsedVerifications(db, at, owner);
    LapsedAreRunning(db, at, owner);
    RunsApart(db, verifications);
    AttemptsEffect(db, attempts, "recovered_interrupted");
    var first := InterruptAttempts(db, attempts, "recovered_interrupted");
    VerificationsEffect(first, verifications);
    var second := InterruptVerifications(first, verifications);
    InterruptedTogether(db, first, second, attempts, "recovered_interrupted", verifications);
    ReviewEffect(second, now, ReviewedMissions(db, AffectedMissions(db, attempts, verifications)));
    var next := ReviewMissions(second, now, ReviewedMissions(db, AffectedMissions(db, attempts, verifications)));
    SameInterrupted(db, second, next, attempts, "recovered_interrupted", verifications);
    forall m ensures m in AffectedMissions(db, attempts, verifications) <==> Hit(db, attempts, verifications, m) {
      HitIsAffected(db, attempts, verifications, m);
    }
  }

  lemma InterruptedTogether(a: Database, b: Database, c: Database, attempts: set<Id>, how: Text, verifications: set<Id>)
    requires AttemptsHalted(a, b, attempts, how) && b == a.(attempts := b.attempts, tasks := b.tasks)
    requires VerificationsHalted(b, c, verifications) && c == b.(verifications := c.verifications, quality := c.quality)
    ensures AttemptsHalted(a, c, attempts, how) && VerificationsHalted(a, c, verifications)
  {}

  lemma SameInterrupted(a: Database, b: Database, c: Database, attempts: set<Id>, how: Text, verifications: set<Id>)
    requires AttemptsHalted(a, b, attempts, how) && VerificationsHalted(a, b, verifications)
    requires b.attempts == c.attempts && b.tasks == c.tasks && b.verifications == c.verifications && b.quality == c.quality
    ensures AttemptsHalted(a, c, attempts, how) && VerificationsHalted(a, c, verifications)
  {}

  lemma LapsedAreRunning(db: Database, at: Time, owner: Option<Text>)
    ensures forall v | v in LapsedVerifications(db, at, owner) :: v in db.verifications && db.verifications[v].status.Running?
  {}

  /**
   After a committed shutdown exactly the owner's running attempts on the
   mission and all its running verifications are interrupted, the mission
   waits for review if it was at work, and the lease is gone.
   */
  lemma ShutdownInterrupts(db: Database, now: Time, asOf: Option<Time>, m: Id, owner: Text)
    requires Inv(db) && InterruptOwnedExecution(db, now, asOf, m, owner).Ok?
    ensures var next := InterruptOwnedExecution(db, now, asOf, m, owner).value;
      && next == db.(missions := next.missions, revisions := next.revisions, tasks := next.tasks, attempts := next.attempts,
                     verifications := next.verifications, quality := next.quality, leases := next.leases)
      && AttemptsHalted(db, next, AttemptsOwned(db, m, owner), "interrupted_shutdown")
      && VerificationsHalted(db, next, VerificationsOn(db, m))
      && Elsewhere(db.missions, next.missions, {m}) && m in db.missions && m in next.missions
      && (if db.missions[m].status.Running? || db.missions[m].status.Active?
          then OnlyStatus(db.missions[m], next.missions[m]) && next.missions[m].status.AwaitingReview? &&
               next.missions[m].revision == db.missions[m].revision + 1
          else next.missions[m] == db.missions[m])
      && m !in next.leases && Elsewhere(db.leases, next.leases, {m})
  {
    hide Inv, InterruptAttempts, InterruptVerifications, OwnedAttempts, RunningVerifications, AttemptsOwned, VerificationsOn,
         AttemptsHalted, VerificationsHalted, TransitionMission, OnlyStatus;
    SameOwned(db, m, owner);
    var attempts, verifications := OwnedAttempts(db, m, owner), RunningVerifications(db, m);
    RunsApart(db, verifications);
    AttemptsEffect(db, attempts, "interrupted_shutdown");
    var first := InterruptAttempts(db, attempts, "interrupted_shutdown");
    VerificationsEffect(first, verifications);
    var second := InterruptVerifications(first, verifications);
    InterruptedTogether(db, first, second, attempts, "interrupted_shutdown", verifications);
    if Reviewable(db.missions[m].status) { ShutdownReviews(second, now, m); }
    SameInterrupted(db, second, InterruptOwnedExecution(db, now, asOf, m, owner).value, attempts, "interrupted_shutdown", verifications);
  }

  function AttemptsOwned(db: Database, m: Id, owner: Text): set<Id> {
    set a | a in db.attempts && db.attempts[a].mission == m && db.attempts[a].status.Running? && db.attempts[a].leaseOwner == Some(owner)
  }

  function VerificationsOn(db: Database, m: Id): set<Id> {
    set v | v in db.verifications && db.verifications[v].mission == m && db.verifications[v].status.Running?
  }

  lemma SameOwned(db: Database, m: Id, owner: Text)
    ensures OwnedAttempts(db, m, owner) == AttemptsOwned(db, m, owner) && RunningVerifications(db, m) == VerificationsOn(db, m)
    ensures forall v | v in RunningVerifications(db, m) :: v in db.verifications && db.verifications[v].status.Running?
  {}

  lemma ShutdownReviews(db: Database, now: Time, m: Id)
    requires TransitionMission(db, now, m, AwaitingReview, System, None).Ok?
    ensures var next := TransitionMission(db, now, m, AwaitingReview, System, None).value;
      && next == db.(missions := next.missions, revisions := next.revisions)
      && Elsewhere(db.missions, next.missions, {m}) && m in db.missions && m in next.missions
      && OnlyStatus(db.missions[m], next.missions[m]) && next.missions[m].status.AwaitingReview?
      && next.missions[m].revision == db.missions[m].revision + 1
      && (db.missions[m].status.Running? || db.missions[m].status.Active?)
  {
    hide Completable;
  }
}
