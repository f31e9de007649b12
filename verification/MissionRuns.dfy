/**
 What holds over every run of the mission store: each theorem here is about
 all sequences of operations, by any actors, at any times.
 */
module MissionRuns {
  import opened Wrappers
  import opened MissionTables
  import opened MissionOps
  import opened MissionInvariant

  datatype Step = Step(now: Time, op: Op)

  /** The database after a run; refused operations are part of the run. */
  ghost function Run(db: Database, steps: seq<Step>): Database
    decreases |steps|
  {
    if steps == [] then db else Run(Apply(db, steps[0].now, steps[0].op).db, steps[1..])
  }

  lemma {:induction false} RunKeeps(db: Database, steps: seq<Step>)
    requires Inv(db)
    ensures Keeps(db, Run(db, steps))
    decreases |steps|
  {
    hide Inv, Evolves, Apply;
    if steps == [] {
      KeepsReflexive(db);
    } else {
      var next := Apply(db, steps[0].now, steps[0].op).db;
      ApplyOk(db, steps[0].now, steps[0].op);
      RunKeeps(next, steps[1..]);
      KeepsTransitive(db, next, Run(next, steps[1..]));
    }
  }

  /** A state some run leads to from an empty database. */
  ghost predicate Reachable(db: Database) {
    exists steps :: db == Run(EmptyDatabase, steps)
  }

  lemma ReachableInv(db: Database)
    requires Reachable(db)
    ensures Inv(db)
  {
    hide Inv, Evolves, Apply;
    var steps :| db == Run(EmptyDatabase, steps);
    EmptyInv();
    RunKeeps(EmptyDatabase, steps);
  }

  // ----- revision history -----

  predicate Terminal(status: MissionStatus) { status.Completed? || status.Cancelled? }

  /** How a snapshot may relate to a later one. */
  predicate Advances(a: Mission, b: Mission) {
    && (Terminal(a.status) ==> b.status == a.status)
    && a.validatedFindings <= b.validatedFindings
    && a.completedWork <= b.completedWork
    && a.testReviewEvidence <= b.testReviewEvidence
  }

  /** Along stored revisions a terminal status never changes and the canonical logs only grow. */
  lemma {:induction false} RevisionsAdvance(db: Database, m: Id, low: nat, high: nat)
    requires HistoryOk(db.missions, db.revisions) && m in db.missions
    requires 1 <= low <= high <= db.missions[m].revision
    ensures RevisionKey(m, low) in db.revisions && RevisionKey(m, high) in db.revisions
    ensures Advances(db.revisions[RevisionKey(m, low)], db.revisions[RevisionKey(m, high)])
    decreases high - low
  {
    assert Stored(db.revisions, m, low) && Stored(db.revisions, m, high);
    if low < high {
      assert Stored(db.revisions, m, high - 1);
      RevisionsAdvance(db, m, low, high - 1);
    }
  }

  /** The same, between a database and any later one: the old row is still stored under its revision. */
  lemma RowsAdvance(a: Database, b: Database, m: Id)
    requires Inv(a) && Keeps(a, b) && m in a.missions
    ensures m in b.missions && a.missions[m].revision <= b.missions[m].revision
    ensures RevisionKey(m, a.missions[m].revision) in b.revisions
    ensures b.revisions[RevisionKey(m, a.missions[m].revision)] == a.missions[m]
    ensures Terminal(a.missions[m].status) ==> b.missions[m].status == a.missions[m].status
    ensures a.missions[m].revision == b.missions[m].revision ==> a.missions[m] == b.missions[m]
  {
    hide TasksOk, AttemptsOk, VerificationsOk, DecisionsOk, QualityOk, EvidenceOk, LeasesOk, Successor,
         TasksKept, AttemptsKept, VerificationsKept, EvidenceKept;
    assert TopIs(a.revisions, m, a.missions[m]);
    assert RevisionKey(m, a.missions[m].revision) in a.revisions;
    RevisionsAdvance(b, m, a.missions[m].revision, b.missions[m].revision);
    assert TopIs(b.revisions, m, b.missions[m]);
  }

  /** In every run, `completed` is only ever entered from `awaiting-review`. */
  lemma CompletedFollowsReview(db: Database, m: Id, r: nat)
    requires Reachable(db) && m in db.missions && 1 <= r <= db.missions[m].revision
    ensures Stored(db.revisions, m, r)
    ensures db.revisions[RevisionKey(m, r)].status.Completed? ==>
      r > 1 && Stored(db.revisions, m, r - 1) &&
      (db.revisions[RevisionKey(m, r - 1)].status.Completed? || db.revisions[RevisionKey(m, r - 1)].status.AwaitingReview?)
  {
    ReachableInv(db);
    hide Reachable, TasksOk, AttemptsOk, VerificationsOk, DecisionsOk, QualityOk, EvidenceOk, LeasesOk;
    assert Stored(db.revisions, m, r);
    if r > 1 { assert Stored(db.revisions, m, r - 1); }
  }

  /** A run never takes a mission out of `completed` or `cancelled`. */
  lemma TerminalIsFinal(db: Database, steps: seq<Step>, m: Id)
    requires Reachable(db) && m in db.missions && Terminal(db.missions[m].status)
    ensures m in Run(db, steps).missions && Run(db, steps).missions[m].status == db.missions[m].status
  {
    hide Reachable, Inv, Evolves, Apply, Run, Terminal;
    ReachableInv(db);
    RunKeeps(db, steps);
    RowsAdvance(db, Run(db, steps), m);
  }

  // ----- the evidence chain -----

  /** A pass decision about the task, on a completed verification, of a succeeded attempt of the same task and mission. */
  predicate PassChain(db: Database, t: Id) {
    && t in db.tasks && t in db.quality && db.quality[t].status.Passed?
    && db.quality[t].decision.Some? && db.quality[t].decision.value in db.decisions
    && var d := db.decisions[db.quality[t].decision.value];
    && d.verdict.Pass? && d.task == t && d.mission == db.tasks[t].mission
    && d.verification in db.verifications
    && var v := db.verifications[d.verification];
    && v.status.Completed? && v.task == t && v.mission == db.tasks[t].mission && v.target == d.target
    && v.target in db.attempts
    && var a := db.attempts[v.target];
    && a.status.Succeeded? && a.task == t && a.mission == db.tasks[t].mission
  }

  lemma PassedHasChain(db: Database, t: Id)
    requires Inv(db) && t in db.quality && db.quality[t].status.Passed?
    ensures PassChain(db, t)
  {
    hide HistoryOk, EvidenceOk, LeasesOk;
  }

  lemma EvidenceChain(db: Database, t: Id)
    requires Reachable(db) && t in db.quality && db.quality[t].status.Passed?
    ensures PassChain(db, t)
  {
    hide Reachable, Inv, PassChain;
    ReachableInv(db);
    PassedHasChain(db, t);
  }

  predicate IsCompleted(db: Database, m: Id) { m in db.missions && db.missions[m].status.Completed? }

  lemma {:induction false} FollowNeverCompletes(db: Database, now: Time, m: Id, path: seq<MissionStatus>, n: Id)
    requires Follow(db, now, m, path).Ok? && forall i | 0 <= i < |path| :: !path[i].Completed?
    requires IsCompleted(Follow(db, now, m, path).value, n)
    ensures IsCompleted(db, n)
    decreases |path|
  {
    if path != [] {
      var next := TransitionMission(db, now, m, path[0], System, None).value;
      FollowNeverCompletes(next, now, m, path[1..], n);
    }
  }

  predicate WritesMissions(op: Op) {
    op.OpCreateMission? || op.OpUpdateMission? || op.OpTransitionMission? || op.OpPromote? || op.OpClaim? || op.OpInterrupt? ||
    op.OpRecover?
  }

  /** Work on tasks, attempts, verifications, decisions, evidence review and leases writes no mission row. */
  lemma OthersLeaveMissions(db: Database, now: Time, op: Op)
    requires !WritesMissions(op)
    ensures Apply(db, now, op).db.missions == db.missions
  {
    hide CreateTask, SaveTaskPacket, SetTask, StartTask, CreateAttempt, FinishAttempt, CreateVerificationRun, UpdateVerificationRun,
         RecordQualityDecision, FinalizeQualityVerification, FinalizeQualityFailure, SetTaskQualityStatus, AdmitEvidence,
         RejectEvidence, AcquireLease, HeartbeatLease, ReleaseLease, CreateMission, UpdateMission, TransitionMission,
         PromoteEvidence, ClaimMissionExecution, InterruptOwnedExecution, RecoverInterrupted;
  }

  lemma ClaimNeverCompletes(db: Database, now: Time, m: Id, owner: Text, ttl: int, n: Id)
    requires ClaimMissionExecution(db, now, m, owner, ttl).Ok? && IsCompleted(ClaimMissionExecution(db, now, m, owner, ttl).value, n)
    ensures IsCompleted(db, n)
  {
    hide Follow;
    var leased := AcquireLease(db, now, m, owner, ttl).value;
    FollowNeverCompletes(leased, now, m, ClaimPath(db.missions[m].status), n);
  }

  lemma InterruptNeverCompletes(db: Database, now: Time, asOf: Option<Time>, m: Id, owner: Text, n: Id)
    requires InterruptOwnedExecution(db, now, asOf, m, owner).Ok?
    requires IsCompleted(InterruptOwnedExecution(db, now, asOf, m, owner).value, n)
    ensures IsCompleted(db, n)
  {
    hide InterruptVerifications, InterruptAttempts, Completable, OwnedAttempts, RunningVerifications;
  }

  lemma RecoveryNeverCompletes(db: Database, now: Time, asOf: Option<Time>, owner: Option<Text>, n: Id)
    requires RecoverInterrupted(db, now, asOf, owner).Ok? && IsCompleted(RecoverInterrupted(db, now, asOf, owner).value, n)
    ensures IsCompleted(db, n)
  {
    hide InterruptVerifications, InterruptAttempts, LapsedAttempts, LapsedVerifications, AffectedMissions, ReviewRevisions;
  }

  lemma CreateNeverCompletes(db: Database, now: Time, m: Id, draft: MissionDraft, n: Id)
    requires CreateMission(db, now, m, draft).Ok? && IsCompleted(CreateMission(db, now, m, draft).value, n)
    ensures IsCompleted(db, n)
  {}

  lemma UpdateNeverCompletes(db: Database, now: Time, m: Id, patch: MissionPatch, expected: Option<nat>, n: Id)
    requires UpdateMission(db, now, m, patch, expected).Ok? && IsCompleted(UpdateMission(db, now, m, patch, expected).value, n)
    ensures IsCompleted(db, n)
  {}

  lemma PromoteNeverCompletes(db: Database, now: Time, e: Id, i: Id, options: PromoteOptions, n: Id)
    requires IsCompleted(PromoteEvidence(db, now, e, i, options).db, n)
    ensures IsCompleted(db, n)
  {
    hide AcceptEvidence, Outdated;
  }

  /** An operation other than a mission transition never brings a mission to `completed`. */
  lemma OthersNeverComplete(db: Database, now: Time, op: Op, n: Id)
    requires !op.OpTransitionMission? && IsCompleted(Apply(db, now, op).db, n)
    ensures IsCompleted(db, n)
  {
    hide CreateMission, UpdateMission, TransitionMission, CreateTask, SaveTaskPacket, SetTask, CreateAttempt,
         FinishAttempt, CreateVerificationRun, UpdateVerificationRun, RecordQualityDecision, FinalizeQualityVerification,
         FinalizeQualityFailure, SetTaskQualityStatus, AdmitEvidence, PromoteEvidence, AcquireLease, HeartbeatLease, ReleaseLease,
         ClaimMissionExecution, InterruptOwnedExecution, RecoverInterrupted;
    if !WritesMissions(op) {
      OthersLeaveMissions(db, now, op);
    } else if Apply(db, now, op).db != db {
      match op
      case OpClaim(m, owner, ttl) => ClaimNeverCompletes(db, now, m, owner, ttl, n);
      case OpInterrupt(m, owner, asOf) => InterruptNeverCompletes(db, now, asOf, m, owner, n);
      case OpRecover(asOf, owner) => RecoveryNeverCompletes(db, now, asOf, owner, n);
      case OpCreateMission(m, draft) => CreateNeverCompletes(db, now, m, draft, n);
      case OpUpdateMission(m, patch, expected) => UpdateNeverCompletes(db, now, m, patch, expected, n);
      case OpPromote(e, i, options) => PromoteNeverCompletes(db, now, e, i, options, n);
    }
  }

  lemma CompletingTransition(db: Database, now: Time, m: Id, status: MissionStatus, actor: Actor, expected: Option<nat>, n: Id)
    requires TransitionMission(db, now, m, status, actor, expected).Ok?
    requires !IsCompleted(db, n) && IsCompleted(TransitionMission(db, now, m, status, actor, expected).value, n)
    ensures m == n && actor.Boss? && Completable(db, n)
  {
    hide Completable;
  }

  /** Every step of every run that completes a mission is taken by the Boss, over at least one active task, all of them executed and passed. */
  lemma CompletionIsEarned(db: Database, now: Time, op: Op, m: Id)
    requires Reachable(db) && !IsCompleted(db, m) && IsCompleted(Apply(db, now, op).db, m)
    ensures op.OpTransitionMission? && op.m == m && op.actor.Boss?
    ensures ActiveTasks(db.tasks, m) != {}
    ensures forall t | t in ActiveTasks(db.tasks, m) :: t in db.tasks && db.tasks[t].status.ExecutionCompleted? && PassChain(db, t)
  {
    hide Reachable, Inv, PassChain, TransitionMission, IsActive,
         CreateMission, UpdateMission, CreateTask, SaveTaskPacket, SetTask, CreateAttempt,
         FinishAttempt, CreateVerificationRun, UpdateVerificationRun, RecordQualityDecision, FinalizeQualityVerification,
         FinalizeQualityFailure, SetTaskQualityStatus, AdmitEvidence, PromoteEvidence, AcquireLease, HeartbeatLease, ReleaseLease,
         ClaimMissionExecution, InterruptOwnedExecution, RecoverInterrupted;
    ReachableInv(db);
    if !op.OpTransitionMission? {
      OthersNeverComplete(db, now, op, m);
    } else {
      CompletingTransition(db, now, op.m, op.status, op.actor, op.expected, m);
      forall t | t in ActiveTasks(db.tasks, m) ensures PassChain(db, t) { PassedHasChain(db, t); }
    }
  }

  // ----- execution uniqueness -----

  /** A running attempt is its task's last run and the only one running; so is a running verification; a verification has one decision. */
  lemma ExecutionUniqueness(db: Database)
    requires Reachable(db)
    ensures forall a | a in db.attempts && db.attempts[a].status.Running? ::
      db.attempts[a].task in db.tasks && db.tasks[db.attempts[a].task].lastRun == Some(a)
    ensures forall a, b | a in db.attempts && b in db.attempts && db.attempts[a].status.Running? && db.attempts[b].status.Running? ::
      db.attempts[a].task == db.attempts[b].task ==> a == b
    ensures forall v, w | v in db.verifications && w in db.verifications ::
      (db.verifications[v].status.Running? && db.verifications[w].status.Running? &&
       db.verifications[v].task == db.verifications[w].task) ==> v == w
    ensures forall d, e | d in db.decisions && e in db.decisions ::
      db.decisions[d].verification == db.decisions[e].verification ==> d == e
  {
    ReachableInv(db);
    hide Reachable, HistoryOk, QualityOk, EvidenceOk, LeasesOk;
  }

  /** What the tables say right after a decision is recorded. */
  lemma RecordedFacts(db: Database, now: Time, d: Id, draft: DecisionDraft)
    requires RecordQualityDecision(db, now, d, draft).Ok?
    ensures var next := RecordQualityDecision(db, now, d, draft).value;
      && d in next.decisions
      && next.decisions[d] == Decision(draft.mission, draft.task, draft.verification, draft.target, draft.round, draft.verdict, draft.detail, now)
      && draft.verification in next.verifications
      && next.verifications[draft.verification] ==
           VerificationRun(draft.mission, draft.task, draft.target, draft.round, VerificationStatus.Running, Some(d))
      && draft.task in next.tasks && next.tasks[draft.task].mission == draft.mission && draft.mission in next.missions
  {
    hide HasDecision;
  }

  /** Once the decision is recorded, finalising commits exactly when the caller names the verification the decision is about. */
  lemma FinalizeCommits(db: Database, now: Time, v: Id, d: Id, draft: DecisionDraft)
    requires RecordQualityDecision(db, now, d, draft).Ok?
    ensures FinalizeQualityVerification(db, now, v, d, draft).Ok? <==> v == draft.verification
  {
    hide RecordQualityDecision;
    RecordedFacts(db, now, d, draft);
  }

  // ----- evidence accounting -----

  function AcceptedEvidence(evidence: map<Id, Evidence>): set<Id> { set e | e in evidence && evidence[e].status.Accepted? }

  lemma {:induction false} DistinctSourcesCount(items: map<Id, ItemRow>, ids: set<Id>)
    requires ids <= items.Keys
    requires forall i, j | i in items && j in items :: items[i].item.source == items[j].item.source ==> i == j
    ensures |set i | i in ids :: items[i].item.source| == |ids|
    decreases ids
  {
    if ids != {} {
      var i :| i in ids;
      DistinctSourcesCount(items, ids - {i});
      var rest := set j | j in ids - {i} :: items[j].item.source;
      assert (set j | j in ids :: items[j].item.source) == rest + {items[i].item.source};
      assert items[i].item.source !in rest;
    }
  }

  lemma ItemsMatchEvidence(missions: map<Id, Mission>, evidence: map<Id, Evidence>, items: map<Id, ItemRow>)
    requires EvidenceOk(missions, evidence, items)
    ensures Sources(items) == AcceptedEvidence(evidence) && |Sources(items)| == |items|
  {
    DistinctSourcesCount(items, items.Keys);
    assert Sources(items) == set i | i in items.Keys :: items[i].item.source;
    assert |items| == |items.Keys|;
  }

  /** Accepted evidence and canonical items are in bijection with equal content. */
  lemma EvidenceAccounting(db: Database)
    requires Reachable(db)
    ensures Sources(db.items) == AcceptedEvidence(db.evidence) && |AcceptedEvidence(db.evidence)| == |db.items|
    ensures forall i | i in db.items ::
      db.items[i].item.source in db.evidence && db.evidence[db.items[i].item.source].content == db.items[i].item.value &&
      db.evidence[db.items[i].item.source].mission == db.items[i].mission
  {
    hide Reachable, HistoryOk, TasksOk, AttemptsOk, VerificationsOk, DecisionsOk, QualityOk, LeasesOk;
    ReachableInv(db);
    ItemsMatchEvidence(db.missions, db.evidence, db.items);
  }

  /** Within a mission at most one accepted piece of evidence was gathered at a given revision. */
  lemma OneAcceptancePerRevision(db: Database, e: Id, f: Id)
    requires Reachable(db) && e in AcceptedEvidence(db.evidence) && f in AcceptedEvidence(db.evidence)
    requires db.evidence[e].mission == db.evidence[f].mission
    requires db.evidence[e].sourceRevision.Some? && db.evidence[e].sourceRevision == db.evidence[f].sourceRevision
    ensures e == f
  {
    hide Reachable, HistoryOk, TasksOk, AttemptsOk, VerificationsOk, DecisionsOk, QualityOk, LeasesOk;
    ReachableInv(db);
    assert e in Sources(db.items) && f in Sources(db.items);
    var i :| i in db.items && db.items[i].item.source == e;
    var j :| j in db.items && db.items[j].item.source == f;
  }

  /** Evidence leaves `proposed` at most once, in any run. */
  lemma EvidenceSettlesOnce(db: Database, steps: seq<Step>, e: Id)
    requires Reachable(db) && e in db.evidence && !db.evidence[e].status.Proposed?
    ensures e in Run(db, steps).evidence && Run(db, steps).evidence[e] == db.evidence[e]
  {
    ReachableInv(db);
    RunKeeps(db, steps);
    hide Reachable, Inv, Run, TasksKept, AttemptsKept, VerificationsKept, Extends, MissionsGrow;
  }
}
