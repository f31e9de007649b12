/**
 The invariant of the mission database and the two-state relation every
 operation obeys. Each clause names only the tables it depends on.
 */
module MissionInvariant {
  import opened Wrappers
  import opened MissionTables
  import opened MissionOps

  // ----- clauses -----

  /** Two consecutive snapshots: a legal status edge and three logs that only grow. */
  predicate Successor(a: Mission, b: Mission) {
    && b.revision == a.revision + 1
    && (a.status == b.status || CanTransition(a.status, b.status))
    && a.validatedFindings <= b.validatedFindings
    && a.completedWork <= b.completedWork
    && a.testReviewEvidence <= b.testReviewEvidence
  }

  predicate Original(a: Mission) {
    && a.revision == 1
    && (a.status.Draft? || a.status.Planned?)
    && a.validatedFindings == [] && a.completedWork == [] && a.testReviewEvidence == []
  }

  /** Revision `r` of mission `m` is stored under its number and continues the one before it. */
  predicate Stored(revisions: map<RevisionKey, Mission>, m: Id, r: nat) {
    && r >= 1
    && RevisionKey(m, r) in revisions
    && revisions[RevisionKey(m, r)].revision == r
    && (if r == 1 then Original(revisions[RevisionKey(m, r)])
        else RevisionKey(m, r - 1) in revisions && Successor(revisions[RevisionKey(m, r - 1)], revisions[RevisionKey(m, r)]))
  }

  predicate TopIs(revisions: map<RevisionKey, Mission>, m: Id, row: Mission) {
    row.revision >= 1 && RevisionKey(m, row.revision) in revisions && revisions[RevisionKey(m, row.revision)] == row
  }

  /** Stored revisions are exactly 1..row.revision, and the last of them is the row. */
  ghost predicate HistoryOk(missions: map<Id, Mission>, revisions: map<RevisionKey, Mission>) {
    && (forall k | k in revisions :: k.mission in missions && 1 <= k.revision <= missions[k.mission].revision)
    && (forall m, r: nat | m in missions && 1 <= r <= missions[m].revision :: Stored(revisions, m, r))
    && (forall m | m in missions :: TopIs(revisions, m, missions[m]))
  }

  predicate TasksOk(missions: map<Id, Mission>, tasks: map<Id, Task>) {
    forall t | t in tasks :: tasks[t].mission in missions
  }

  /** Attempts belong to their task's mission; a running one is its task's last run, hence the only one. */
  predicate AttemptsOk(tasks: map<Id, Task>, attempts: map<Id, Attempt>) {
    forall a | a in attempts ::
      && attempts[a].task in tasks
      && attempts[a].mission == tasks[attempts[a].task].mission
      && (attempts[a].status.Running? ==> tasks[attempts[a].task].lastRun == Some(a))
  }

  predicate VerificationsOk(tasks: map<Id, Task>, attempts: map<Id, Attempt>, verifications: map<Id, VerificationRun>) {
    && (forall v | v in verifications ::
          && verifications[v].task in tasks
          && verifications[v].mission == tasks[verifications[v].task].mission
          && verifications[v].target in attempts
          && attempts[verifications[v].target].task == verifications[v].task
          && attempts[verifications[v].target].status.Succeeded?
          && (verifications[v].status.Completed? ==> verifications[v].decision.Some?))
    && (forall v, w | v in verifications && w in verifications ::
          (verifications[v].status.Running? && verifications[w].status.Running? && verifications[v].task == verifications[w].task)
          ==> v == w)
  }

  predicate DecisionsOk(verifications: map<Id, VerificationRun>, decisions: map<Id, Decision>) {
    && (forall d | d in decisions ::
          && decisions[d].verification in verifications
          && decisions[d].task == verifications[decisions[d].verification].task
          && decisions[d].mission == verifications[decisions[d].verification].mission
          && decisions[d].target == verifications[decisions[d].verification].target)
    && (forall d, e | d in decisions && e in decisions :: decisions[d].verification == decisions[e].verification ==> d == e)
  }

  /** A stored verdict rests on a decision of that verdict about a completed verification of the task. */
  predicate Judged(verifications: map<Id, VerificationRun>, decisions: map<Id, Decision>, t: Id, q: Quality, verdict: Verdict) {
    && q.decision.Some? && q.decision.value in decisions
    && q.verification.Some? && q.verification.value in verifications
    && decisions[q.decision.value].verdict == verdict
    && decisions[q.decision.value].task == t
    && decisions[q.decision.value].verification == q.verification.value
    && verifications[q.verification.value].task == t
    && verifications[q.verification.value].status.Completed?
  }

  predicate QualityOk(tasks: map<Id, Task>, verifications: map<Id, VerificationRun>, decisions: map<Id, Decision>, quality: map<Id, Quality>) {
    && quality.Keys == tasks.Keys
    && (forall t | t in quality ::
          && quality[t].mission == tasks[t].mission
          && (quality[t].status.Passed? ==> Judged(verifications, decisions, t, quality[t], Pass))
          && (quality[t].status.Rejected? ==> Judged(verifications, decisions, t, quality[t], Reject)))
  }

  /** Accepted evidence and canonical items match one to one, in content and in revision. */
  predicate EvidenceOk(missions: map<Id, Mission>, evidence: map<Id, Evidence>, items: map<Id, ItemRow>) {
    && (forall e | e in evidence :: evidence[e].mission in missions)
    && (forall i | i in items ::
          && items[i].item.itemId == i
          && items[i].item.source in evidence
          && evidence[items[i].item.source].status.Accepted?
          && evidence[items[i].item.source].content == items[i].item.value
          && evidence[items[i].item.source].mission == items[i].mission
          && items[i].mission in missions
          && 1 < items[i].revision <= missions[items[i].mission].revision
          && (evidence[items[i].item.source].sourceRevision.Some? ==>
                evidence[items[i].item.source].sourceRevision.value + 1 == items[i].revision))
    && (forall i, j | i in items && j in items ::
          (items[i].item.source == items[j].item.source ||
           (items[i].mission == items[j].mission && items[i].revision == items[j].revision))
          ==> i == j)
    && (forall e | e in evidence && evidence[e].status.Accepted? :: e in Sources(items))
  }

  function Sources(items: map<Id, ItemRow>): set<Id> { set i | i in items :: items[i].item.source }

  predicate LeasesOk(missions: map<Id, Mission>, leases: map<Id, Lease>) {
    leases.Keys <= missions.Keys
  }

  ghost predicate Inv(db: Database) {
    && HistoryOk(db.missions, db.revisions)
    && TasksOk(db.missions, db.tasks)
    && AttemptsOk(db.tasks, db.attempts)
    && VerificationsOk(db.tasks, db.attempts, db.verifications)
    && DecisionsOk(db.verifications, db.decisions)
    && QualityOk(db.tasks, db.verifications, db.decisions, db.quality)
    && EvidenceOk(db.missions, db.evidence, db.items)
    && LeasesOk(db.missions, db.leases)
  }

  // ----- the two-state relation -----

  predicate Extends<K, V(==)>(a: map<K, V>, b: map<K, V>) {
    forall k | k in a :: k in b && b[k] == a[k]
  }

  predicate MissionsGrow(a: map<Id, Mission>, b: map<Id, Mission>) {
    forall m | m in a :: m in b && a[m].revision <= b[m].revision
  }

  /** A task keeps its mission, identity and place in the listing. */
  predicate TasksKept(a: map<Id, Task>, b: map<Id, Task>) {
    forall t | t in a ::
      t in b && a[t].mission == b[t].mission && SameIdentity(a[t], b[t]) && a[t].createdAt == b[t].createdAt &&
      a[t].revision <= b[t].revision
  }

  /** An attempt that has ended never changes again. */
  predicate AttemptsKept(a: map<Id, Attempt>, b: map<Id, Attempt>) {
    forall r | r in a ::
      r in b && a[r].task == b[r].task && a[r].mission == b[r].mission && (!a[r].status.Running? ==> a[r] == b[r])
  }

  /** A verification keeps its target, and its status once it has ended. */
  predicate VerificationsKept(a: map<Id, VerificationRun>, b: map<Id, VerificationRun>) {
    forall v | v in a ::
      v in b && a[v].mission == b[v].mission && a[v].task == b[v].task && a[v].target == b[v].target &&
      (!a[v].status.Running? ==> b[v].status == a[v].status)
  }

  /** Evidence keeps its content and leaves `proposed` at most once. */
  predicate EvidenceKept(a: map<Id, Evidence>, b: map<Id, Evidence>) {
    forall e | e in a :: e in b && a[e].(status := b[e].status) == b[e] && (!a[e].status.Proposed? ==> a[e] == b[e])
  }

  /** Nothing is deleted or rewritten: histories, decisions and items extend, ended rows stay ended. */
  predicate Evolves(a: Database, b: Database) {
    && MissionsGrow(a.missions, b.missions)
    && Extends(a.revisions, b.revisions)
    && TasksKept(a.tasks, b.tasks)
    && AttemptsKept(a.attempts, b.attempts)
    && VerificationsKept(a.verifications, b.verifications)
    && Extends(a.decisions, b.decisions)
    && EvidenceKept(a.evidence, b.evidence)
    && Extends(a.items, b.items)
  }

  lemma EvolvesReflexive(a: Database)
    ensures Evolves(a, a)
  {}

  lemma EvolvesTransitive(a: Database, b: Database, c: Database)
    requires Evolves(a, b) && Evolves(b, c)
    ensures Evolves(a, c)
  {}

  lemma EmptyInv()
    ensures Inv(EmptyDatabase)
  {}

  /** The goal of every operation. */
  ghost predicate Keeps(a: Database, b: Database) { Inv(b) && Evolves(a, b) }

  lemma KeepsTransitive(a: Database, b: Database, c: Database)
    requires Keeps(a, b) && Keeps(b, c)
    ensures Keeps(a, c)
  {
    hide Inv;
    EvolvesTransitive(a, b, c);
  }

  // ----- clauses under each kind of write -----

  /** Storing a legal successor of the current row keeps the history. */
  lemma HistoryGrows(missions: map<Id, Mission>, revisions: map<RevisionKey, Mission>, m: Id, row: Mission)
    requires HistoryOk(missions, revisions)
    requires if m in missions then Successor(missions[m], row) else Original(row)
    ensures RevisionKey(m, row.revision) !in revisions
    ensures HistoryOk(missions[m := row], revisions[RevisionKey(m, row.revision) := row])
    ensures MissionsGrow(missions, missions[m := row])
    ensures Extends(revisions, revisions[RevisionKey(m, row.revision) := row])
  {
    var missions', revisions' := missions[m := row], revisions[RevisionKey(m, row.revision) := row];
    forall n, r: nat | n in missions' && 1 <= r <= missions'[n].revision ensures Stored(revisions', n, r) {
      if n != m || r != row.revision { assert Stored(revisions, n, r); }
    }
  }

  lemma MissionsGrown(a: map<Id, Mission>, b: map<Id, Mission>, tasks: map<Id, Task>, evidence: map<Id, Evidence>,
                      items: map<Id, ItemRow>, leases: map<Id, Lease>)
    requires MissionsGrow(a, b)
    requires TasksOk(a, tasks) && EvidenceOk(a, evidence, items) && LeasesOk(a, leases)
    ensures TasksOk(b, tasks) && EvidenceOk(b, evidence, items) && LeasesOk(b, leases)
  {}

  /** Rewriting task rows without moving a task or its last run. */
  predicate TasksReshaped(a: map<Id, Task>, b: map<Id, Task>) {
    a.Keys == b.Keys && forall t | t in a :: b[t].mission == a[t].mission && b[t].lastRun == a[t].lastRun
  }

  lemma TaskRowsRewritten(missions: map<Id, Mission>, a: map<Id, Task>, b: map<Id, Task>, attempts: map<Id, Attempt>)
    requires TasksReshaped(a, b)
    requires TasksOk(missions, a) && AttemptsOk(a, attempts)
    ensures TasksOk(missions, b) && AttemptsOk(b, attempts)
  {}

  /** Verifications and quality rows only ask for a task's mission. */
  lemma TaskRowsJudged(a: map<Id, Task>, b: map<Id, Task>, attempts: map<Id, Attempt>, verifications: map<Id, VerificationRun>,
                       decisions: map<Id, Decision>, quality: map<Id, Quality>)
    requires a.Keys == b.Keys && forall t | t in a :: b[t].mission == a[t].mission
    requires VerificationsOk(a, attempts, verifications) && QualityOk(a, verifications, decisions, quality)
    ensures VerificationsOk(b, attempts, verifications) && QualityOk(b, verifications, decisions, quality)
  {}

  lemma AttemptsUpdated(tasks: map<Id, Task>, a: map<Id, Attempt>, b: map<Id, Attempt>, verifications: map<Id, VerificationRun>)
    requires AttemptsKept(a, b) && VerificationsOk(tasks, a, verifications)
    ensures VerificationsOk(tasks, b, verifications)
  {}

  lemma DecisionsRetargeted(a: map<Id, VerificationRun>, b: map<Id, VerificationRun>, decisions: map<Id, Decision>)
    requires VerificationsKept(a, b) && DecisionsOk(a, decisions)
    ensures DecisionsOk(b, decisions)
  {}

  /** A judged status survives whatever happens to verifications that are still running. */
  lemma QualityRetargeted(tasks: map<Id, Task>, a: map<Id, VerificationRun>, b: map<Id, VerificationRun>,
                          c: map<Id, Decision>, d: map<Id, Decision>, quality: map<Id, Quality>)
    requires VerificationsKept(a, b) && Extends(c, d) && QualityOk(tasks, a, c, quality)
    ensures QualityOk(tasks, b, d, quality)
  {}

  // ----- one lemma per operation -----

  lemma SaveRevisionOk(db: Database, m: Id, row: Mission)
    requires Inv(db)
    requires if m in db.missions then Successor(db.missions[m], row) else Original(row)
    ensures SaveRevision(db, m, row).Ok? && Keeps(db, SaveRevision(db, m, row).value)
  {
    hide HistoryOk, TasksOk, AttemptsOk, VerificationsOk, DecisionsOk, QualityOk, EvidenceOk, LeasesOk, MissionsGrow;
    EvolvesReflexive(db);
    HistoryGrows(db.missions, db.revisions, m, row);
    MissionsGrown(db.missions, db.missions[m := row], db.tasks, db.evidence, db.items, db.leases);
  }

  lemma CreateMissionOk(db: Database, now: Time, m: Id, draft: MissionDraft)
    requires Inv(db) && CreateMission(db, now, m, draft).Ok?
    ensures Keeps(db, CreateMission(db, now, m, draft).value)
  {
    hide Inv, Evolves;
    SaveRevisionOk(db, m, NewMission(now, draft));
  }

  /** A patch is refused only for a missing mission or a revision other than the expected one. */
  lemma UpdateMissionOk(db: Database, now: Time, m: Id, patch: MissionPatch, expected: Option<nat>)
    requires Inv(db)
    ensures UpdateMission(db, now, m, patch, expected).Ok? <==> m in db.missions && Expects(expected, db.missions[m].revision)
    ensures UpdateMission(db, now, m, patch, expected).Ok? ==> Keeps(db, UpdateMission(db, now, m, patch, expected).value)
  {
    hide Inv, Evolves;
    if m in db.missions {
      SaveRevisionOk(db, m, Patch(db.missions[m], now, patch));
    }
  }

  lemma TransitionMissionOk(db: Database, now: Time, m: Id, status: MissionStatus, actor: Actor, expected: Option<nat>)
    requires Inv(db)
    ensures TransitionMission(db, now, m, status, actor, expected).Ok? <==>
      && m in db.missions && Expects(expected, db.missions[m].revision)
      && CanTransition(db.missions[m].status, status)
      && (status.Completed? ==> actor.Boss? && Completable(db, m))
    ensures TransitionMission(db, now, m, status, actor, expected).Ok? ==>
      Keeps(db, TransitionMission(db, now, m, status, actor, expected).value)
  {
    hide Inv, Evolves, Completable;
    if m in db.missions && CanTransition(db.missions[m].status, status) {
      SaveRevisionOk(db, m, Enter(db.missions[m], now, status));
    }
  }

  /** A task with a fresh id joins with no attempt, no verification and an unverified quality row. */
  lemma TaskAdded(missions: map<Id, Mission>, tasks: map<Id, Task>, t: Id, task: Task, attempts: map<Id, Attempt>,
                  verifications: map<Id, VerificationRun>)
    requires t !in tasks && task.mission in missions
    requires TasksOk(missions, tasks) && AttemptsOk(tasks, attempts) && VerificationsOk(tasks, attempts, verifications)
    ensures TasksOk(missions, tasks[t := task]) && AttemptsOk(tasks[t := task], attempts)
    ensures VerificationsOk(tasks[t := task], attempts, verifications) && TasksKept(tasks, tasks[t := task])
  {}

  lemma QualityAdded(tasks: map<Id, Task>, t: Id, task: Task, verifications: map<Id, VerificationRun>,
                     decisions: map<Id, Decision>, quality: map<Id, Quality>)
    requires t !in tasks && QualityOk(tasks, verifications, decisions, quality)
    ensures QualityOk(tasks[t := task], verifications, decisions, quality[t := FreshQuality.(mission := task.mission)])
  {}

  lemma CreateTaskOk(db: Database, now: Time, t: Id, draft: TaskDraft)
    requires Inv(db) && CreateTask(db, now, t, draft).Ok?
    ensures Keeps(db, CreateTask(db, now, t, draft).value)
  {
    hide HistoryOk, TasksOk, AttemptsOk, VerificationsOk, DecisionsOk, QualityOk, EvidenceOk, LeasesOk, TasksKept;
    EvolvesReflexive(db);
    var task := CreateTask(db, now, t, draft).value.tasks[t];
    TaskAdded(db.missions, db.tasks, t, task, db.attempts, db.verifications);
    QualityAdded(db.tasks, t, task, db.verifications, db.decisions, db.quality);
  }

  /** Rewriting task rows in place. */
  lemma TasksOnlyOk(db: Database, tasks: map<Id, Task>)
    requires Inv(db) && TasksReshaped(db.tasks, tasks) && TasksKept(db.tasks, tasks)
    ensures Keeps(db, db.(tasks := tasks))
  {
    EvolvesReflexive(db);
    TaskRowsRewritten(db.missions, db.tasks, tasks, db.attempts);
    TaskRowsJudged(db.tasks, tasks, db.attempts, db.verifications, db.decisions, db.quality);
    hide HistoryOk, TasksOk, AttemptsOk, VerificationsOk, DecisionsOk, QualityOk, EvidenceOk, LeasesOk, TasksKept;
  }

  lemma SaveTaskPacketOk(db: Database, t: Id, expected: Option<nat>, packetOk: bool)
    requires Inv(db) && SaveTaskPacket(db, t, expected, packetOk).Ok?
    ensures Keeps(db, SaveTaskPacket(db, t, expected, packetOk).value)
  {
    hide Inv, Evolves;
    TasksOnlyOk(db, SaveTaskPacket(db, t, expected, packetOk).value.tasks);
  }

  lemma SetTaskOk(db: Database, t: Id, status: TaskStatus, expected: Option<nat>)
    requires Inv(db) && SetTask(db, t, status, expected).Ok?
    ensures Keeps(db, SetTask(db, t, status, expected).value)
  {
    hide Inv, Evolves;
    TasksOnlyOk(db, SetTask(db, t, status, expected).value.tasks);
  }

  // ----- attempts, verifications, decisions, quality -----

  lemma AttemptStarted(missions: map<Id, Mission>, tasks: map<Id, Task>, attempts: map<Id, Attempt>, a: Id, attempt: Attempt, t: Id)
    requires t in tasks && a !in attempts && !HasRunningAttempt(attempts, t)
    requires attempt.task == t && attempt.mission == tasks[t].mission
    requires TasksOk(missions, tasks) && AttemptsOk(tasks, attempts)
    ensures var started := tasks[t := tasks[t].(status := TaskStatus.Running, lastRun := Some(a), revision := tasks[t].revision + 1)];
      && TasksOk(missions, started) && TasksKept(tasks, started)
      && AttemptsOk(started, attempts[a := attempt]) && AttemptsKept(attempts, attempts[a := attempt])
  {}

  lemma QualityReset(tasks: map<Id, Task>, t: Id, verifications: map<Id, VerificationRun>, decisions: map<Id, Decision>,
                     quality: map<Id, Quality>)
    requires t in tasks && QualityOk(tasks, verifications, decisions, quality)
    ensures QualityOk(tasks, verifications, decisions, quality[t := FreshQuality.(mission := tasks[t].mission)])
  {}

  lemma CreateAttemptOk(db: Database, now: Time, a: Id, draft: AttemptDraft)
    requires Inv(db) && CreateAttempt(db, now, a, draft).Ok?
    ensures Keeps(db, CreateAttempt(db, now, a, draft).value)
  {
    hide HistoryOk, TasksOk, AttemptsOk, VerificationsOk, DecisionsOk, QualityOk, EvidenceOk, LeasesOk,
         MissionsGrow, Extends, TasksKept, AttemptsKept, VerificationsKept, EvidenceKept, LeaseLapsed, HasRunningAttempt;
    var next, t := CreateAttempt(db, now, a, draft).value, draft.task;
    EvolvesReflexive(db);
    AttemptStarted(db.missions, db.tasks, db.attempts, a, next.attempts[a], t);
    QualityReset(db.tasks, t, db.verifications, db.decisions, db.quality);
    TaskRowsJudged(db.tasks, next.tasks, db.attempts, db.verifications, db.decisions, next.quality);
    AttemptsUpdated(next.tasks, db.attempts, next.attempts, db.verifications);
  }

  /** Ending attempts, and rewriting their task rows on the way. */
  lemma AttemptsEndedOk(db: Database, tasks: map<Id, Task>, attempts: map<Id, Attempt>)
    requires Inv(db) && TasksReshaped(db.tasks, tasks) && TasksKept(db.tasks, tasks) && AttemptsKept(db.attempts, attempts)
    requires AttemptsOk(db.tasks, attempts)
    ensures Keeps(db, db.(tasks := tasks, attempts := attempts))
  {
    hide HistoryOk, TasksOk, AttemptsOk, VerificationsOk, DecisionsOk, QualityOk, EvidenceOk, LeasesOk, AttemptsKept,
         TasksKept;
    EvolvesReflexive(db);
    TaskRowsRewritten(db.missions, db.tasks, tasks, attempts);
    TaskRowsJudged(db.tasks, tasks, db.attempts, db.verifications, db.decisions, db.quality);
    AttemptsUpdated(tasks, db.attempts, attempts, db.verifications);
  }

  lemma StatusRewritten(tasks: map<Id, Task>, t: Id, status: TaskStatus)
    ensures TasksReshaped(tasks, SetStatus(tasks, t, status)) && TasksKept(tasks, SetStatus(tasks, t, status))
  {}

  lemma AttemptEnded(tasks: map<Id, Task>, attempts: map<Id, Attempt>, a: Id, attempt: Attempt)
    requires a in attempts && attempts[a].status.Running? && !attempt.status.Running?
    requires attempt.task == attempts[a].task && attempt.mission == attempts[a].mission && AttemptsOk(tasks, attempts)
    ensures AttemptsOk(tasks, attempts[a := attempt]) && AttemptsKept(attempts, attempts[a := attempt])
  {}

  lemma FinishAttemptOk(db: Database, a: Id, status: FinishedAttemptStatus, terminalState: Option<Text>)
    requires Inv(db) && FinishAttempt(db, a, status, terminalState).Ok?
    ensures Keeps(db, FinishAttempt(db, a, status, terminalState).value)
  {
    hide HistoryOk, TasksOk, AttemptsOk, VerificationsOk, DecisionsOk, QualityOk, EvidenceOk, LeasesOk,
         TasksReshaped, TasksKept, AttemptsKept, SetStatus;
    var next := FinishAttempt(db, a, status, terminalState).value;
    StatusRewritten(db.tasks, db.attempts[a].task, TaskStatusAfter(status));
    AttemptEnded(db.tasks, db.attempts, a, next.attempts[a]);
    AttemptsEndedOk(db, next.tasks, next.attempts);
  }

  /** Writing one verification that does not become a second running one. */
  lemma VerificationsOnlyOk(db: Database, verifications: map<Id, VerificationRun>)
    requires Inv(db)
    requires VerificationsKept(db.verifications, verifications) && VerificationsOk(db.tasks, db.attempts, verifications)
    ensures Keeps(db, db.(verifications := verifications))
  {
    hide HistoryOk, TasksOk, AttemptsOk, VerificationsOk, DecisionsOk, QualityOk, EvidenceOk, LeasesOk, VerificationsKept;
    EvolvesReflexive(db);
    DecisionsRetargeted(db.verifications, verifications, db.decisions);
    QualityRetargeted(db.tasks, db.verifications, verifications, db.decisions, db.decisions, db.quality);
  }

  lemma CreateVerificationOk(db: Database, v: Id, draft: VerificationDraft)
    requires Inv(db) && CreateVerificationRun(db, v, draft).Ok?
    ensures Keeps(db, CreateVerificationRun(db, v, draft).value)
  {
    hide HistoryOk, AttemptsOk, DecisionsOk, QualityOk, EvidenceOk, LeasesOk;
    VerificationsOnlyOk(db, CreateVerificationRun(db, v, draft).value.verifications);
  }

  lemma UpdateVerificationOk(db: Database, v: Id, patch: VerificationPatch)
    requires Inv(db) && UpdateVerificationRun(db, v, patch).Ok?
    ensures Keeps(db, UpdateVerificationRun(db, v, patch).value)
  {
    hide HistoryOk, AttemptsOk, DecisionsOk, QualityOk, EvidenceOk, LeasesOk;
    VerificationsOnlyOk(db, UpdateVerificationRun(db, v, patch).value.verifications);
  }

  lemma DecisionRecorded(tasks: map<Id, Task>, attempts: map<Id, Attempt>, verifications: map<Id, VerificationRun>,
                         decisions: map<Id, Decision>, d: Id, decision: Decision)
    requires VerificationsOk(tasks, attempts, verifications) && DecisionsOk(verifications, decisions)
    requires d !in decisions && decision.verification in verifications && !HasDecision(decisions, decision.verification)
    requires var run := verifications[decision.verification];
      run.status.Running? && run.task == decision.task && run.mission == decision.mission && run.target == decision.target
    ensures var decided := verifications[decision.verification := verifications[decision.verification].(decision := Some(d))];
      && VerificationsOk(tasks, attempts, decided) && VerificationsKept(verifications, decided)
      && DecisionsOk(decided, decisions[d := decision])
  {}

  lemma RecordDecisionOk(db: Database, now: Time, d: Id, draft: DecisionDraft)
    requires Inv(db) && RecordQualityDecision(db, now, d, draft).Ok?
    ensures Keeps(db, RecordQualityDecision(db, now, d, draft).value)
  {
    hide HistoryOk, TasksOk, AttemptsOk, VerificationsOk, DecisionsOk, QualityOk, EvidenceOk, LeasesOk, VerificationsKept;
    var next := RecordQualityDecision(db, now, d, draft).value;
    EvolvesReflexive(db);
    DecisionRecorded(db.tasks, db.attempts, db.verifications, db.decisions, d, next.decisions[d]);
    QualityRetargeted(db.tasks, db.verifications, next.verifications, db.decisions, next.decisions, db.quality);
  }

  lemma SetQualityOk(db: Database, q: QualityInput)
    requires Inv(db) && SetTaskQualityStatus(db, q).Ok?
    ensures Keeps(db, SetTaskQualityStatus(db, q).value)
  {
    hide HistoryOk, TasksOk, AttemptsOk, VerificationsOk, DecisionsOk, EvidenceOk, LeasesOk;
    EvolvesReflexive(db);
  }

  lemma FinalizeOk(db: Database, now: Time, v: Id, d: Id, draft: DecisionDraft)
    requires Inv(db) && FinalizeQualityVerification(db, now, v, d, draft).Ok?
    ensures Keeps(db, FinalizeQualityVerification(db, now, v, d, draft).value)
  {
    hide Inv, Evolves, RecordQualityDecision, SetTaskQualityStatus;
    var recorded := RecordQualityDecision(db, now, d, draft).value;
    RecordDecisionOk(db, now, d, draft);
    var completed := UpdateVerificationRun(recorded, v, CompletionPatch(d)).value;
    UpdateVerificationOk(recorded, v, CompletionPatch(d));
    var run := completed.verifications[v];
    var q := QualityInput(run.mission, run.task, StatusFor(draft.verdict), run.round, Some(v), Some(d));
    SetQualityOk(completed, q);
    KeepsTransitive(db, recorded, completed);
    KeepsTransitive(db, completed, SetTaskQualityStatus(completed, q).value);
  }

  lemma FinalizeFailureOk(db: Database, v: Id, review: bool)
    requires Inv(db) && FinalizeQualityFailure(db, v, review).Ok?
    ensures Keeps(db, FinalizeQualityFailure(db, v, review).value)
  {
    EvolvesReflexive(db);
    hide Inv, Evolves, SetTaskQualityStatus;
    if db.verifications[v].status.Running? {
      var ended := UpdateVerificationRun(db, v, FailurePatch(review)).value;
      UpdateVerificationOk(db, v, FailurePatch(review));
      var run := ended.verifications[v];
      var q := QualityInput(run.mission, run.task, if review then ReviewRequired else QualityStatus.Blocked, run.round, Some(v), None);
      SetQualityOk(ended, q);
      KeepsTransitive(db, ended, SetTaskQualityStatus(ended, q).value);
    }
  }

  // ----- evidence and leases -----

  lemma AdmitEvidenceOk(db: Database, now: Time, e: Id, draft: EvidenceDraft)
    requires Inv(db) && AdmitEvidence(db, now, e, draft).Ok?
    ensures Keeps(db, AdmitEvidence(db, now, e, draft).value)
  {
    hide HistoryOk, TasksOk, AttemptsOk, VerificationsOk, DecisionsOk, QualityOk, LeasesOk;
    EvolvesReflexive(db);
  }

  /** Rejecting or marking stale a proposed piece of evidence. */
  lemma EvidenceDismissedOk(db: Database, e: Id, status: EvidenceStatus)
    requires Inv(db) && e in db.evidence && db.evidence[e].status.Proposed? && !status.Accepted?
    ensures Keeps(db, db.(evidence := db.evidence[e := db.evidence[e].(status := status)]))
  {
    hide HistoryOk, TasksOk, AttemptsOk, VerificationsOk, DecisionsOk, QualityOk, LeasesOk;
    EvolvesReflexive(db);
  }

  /** Accepting evidence gathered at the current revision adds exactly the item made from it. */
  lemma EvidenceAccepted(missions: map<Id, Mission>, row: Mission, evidence: map<Id, Evidence>, items: map<Id, ItemRow>, e: Id, i: Id, item: CanonicalItem)
    requires EvidenceOk(missions, evidence, items)
    requires e in evidence && evidence[e].status.Proposed? && i !in items && item.itemId == i
    requires item.source == e && item.value == evidence[e].content
    requires missions[evidence[e].mission].revision >= 1 && row.revision == missions[evidence[e].mission].revision + 1
    requires !Outdated(evidence[e], missions[evidence[e].mission])
    ensures var m := evidence[e].mission;
      EvidenceOk(missions[m := row], evidence[e := evidence[e].(status := Accepted)], items[i := ItemRow(m, row.revision, item)])
    ensures EvidenceKept(evidence, evidence[e := evidence[e].(status := Accepted)])
  {
    var evidence' := evidence[e := evidence[e].(status := Accepted)];
    var items' := items[i := ItemRow(evidence[e].mission, row.revision, item)];
    assert items'[i].item.source == e;
    forall f | f in evidence' && evidence'[f].status.Accepted? ensures f in Sources(items') {
      if f != e {
        assert f in Sources(items);
        var j :| j in items && items[j].item.source == f;
        assert items'[j].item.source == f;
      }
    }
  }

  lemma RevisionsStartAtOne(missions: map<Id, Mission>, revisions: map<RevisionKey, Mission>, m: Id)
    requires HistoryOk(missions, revisions) && m in missions
    ensures missions[m].revision >= 1
  {}

  /** A canonical item carries a fresh id and a fresh revision, so only its own row is new. */
  lemma ItemAdded(items: map<Id, ItemRow>, i: Id, row: ItemRow)
    requires i !in items
    ensures Extends(items, items[i := row])
  {}

  lemma AcceptEvidenceOk(db: Database, now: Time, e: Id, itemId: Id, options: PromoteOptions)
    requires Inv(db) && e in db.evidence && db.evidence[e].status.Proposed? && db.evidence[e].mission in db.missions
    requires !Outdated(db.evidence[e], db.missions[db.evidence[e].mission])
    requires AcceptEvidence(db, now, e, itemId, options).Ok?
    ensures Keeps(db, AcceptEvidence(db, now, e, itemId, options).value)
  {
    hide HistoryOk, TasksOk, AttemptsOk, VerificationsOk, DecisionsOk, QualityOk, EvidenceOk, LeasesOk,
         MissionsGrow, Extends, TasksKept, AttemptsKept, VerificationsKept, EvidenceKept;
    var m := db.evidence[e].mission;
    EvolvesReflexive(db);
    RevisionsStartAtOne(db.missions, db.revisions, m);
    var next := AcceptEvidence(db, now, e, itemId, options).value;
    var row := next.missions[m];
    HistoryGrows(db.missions, db.revisions, m, row);
    MissionsGrown(db.missions, next.missions, db.tasks, db.evidence, db.items, db.leases);
    ItemAdded(db.items, itemId, next.items[itemId]);
    EvidenceAccepted(db.missions, row, db.evidence, db.items, e, itemId, next.items[itemId].item);
  }

  lemma PromoteEvidenceOk(db: Database, now: Time, e: Id, itemId: Id, options: PromoteOptions)
    requires Inv(db)
    ensures Keeps(db, PromoteEvidence(db, now, e, itemId, options).db)
  {
    EvolvesReflexive(db);
    hide Inv, Evolves, AcceptEvidence;
    if e in db.evidence && db.evidence[e].mission in db.missions && db.evidence[e].status.Proposed? {
      if Outdated(db.evidence[e], db.missions[db.evidence[e].mission]) {
        EvidenceDismissedOk(db, e, Stale);
      } else if AcceptEvidence(db, now, e, itemId, options).Ok? {
        AcceptEvidenceOk(db, now, e, itemId, options);
      }
    }
  }

  /** Writing or dropping the lease of an existing mission touches nothing else. */
  lemma LeasesOnlyOk(db: Database, leases: map<Id, Lease>)
    requires Inv(db) && leases.Keys <= db.missions.Keys
    ensures Keeps(db, db.(leases := leases))
  {
    hide HistoryOk, TasksOk, AttemptsOk, VerificationsOk, DecisionsOk, QualityOk, EvidenceOk;
    EvolvesReflexive(db);
  }

  lemma AcquireLeaseOk(db: Database, now: Time, m: Id, owner: Text, ttl: int)
    requires Inv(db) && AcquireLease(db, now, m, owner, ttl).Ok?
    ensures Keeps(db, AcquireLease(db, now, m, owner, ttl).value)
  {
    LeasesOnlyOk(db, AcquireLease(db, now, m, owner, ttl).value.leases) by {
      hide HistoryOk, TasksOk, AttemptsOk, VerificationsOk, DecisionsOk, QualityOk, EvidenceOk;
    }
    hide Inv, Evolves;
  }

  lemma {:induction false} FollowOk(db: Database, now: Time, m: Id, path: seq<MissionStatus>)
    requires Inv(db) && Follow(db, now, m, path).Ok?
    ensures Keeps(db, Follow(db, now, m, path).value)
    decreases |path|
  {
    EvolvesReflexive(db);
    hide Inv, Evolves;
    if path != [] {
      var next := TransitionMission(db, now, m, path[0], System, None).value;
      TransitionMissionOk(db, now, m, path[0], System, None);
      FollowOk(next, now, m, path[1..]);
      KeepsTransitive(db, next, Follow(next, now, m, path[1..]).value);
    }
  }

  lemma ClaimOk(db: Database, now: Time, m: Id, owner: Text, ttl: int)
    requires Inv(db) && ClaimMissionExecution(db, now, m, owner, ttl).Ok?
    ensures Keeps(db, ClaimMissionExecution(db, now, m, owner, ttl).value)
  {
    hide Inv, Evolves, AcquireLease, Follow;
    var leased := AcquireLease(db, now, m, owner, ttl).value;
    AcquireLeaseOk(db, now, m, owner, ttl);
    FollowOk(leased, now, m, ClaimPath(db.missions[m].status));
    KeepsTransitive(db, leased, Follow(leased, now, m, ClaimPath(db.missions[m].status)).value);
  }

  // ----- interruption and recovery -----

  lemma AttemptsInterrupted(db: Database, runs: set<Id>, terminalState: Text)
    requires AttemptsOk(db.tasks, db.attempts) && forall a | a in runs :: a in db.attempts && db.attempts[a].status.Running?
    ensures var next := InterruptAttempts(db, runs, terminalState);
      && TasksReshaped(db.tasks, next.tasks) && TasksKept(db.tasks, next.tasks)
      && AttemptsOk(db.tasks, next.attempts) && AttemptsKept(db.attempts, next.attempts)
  {}

  lemma InterruptAttemptsOk(db: Database, runs: set<Id>, terminalState: Text)
    requires Inv(db) && forall a | a in runs :: a in db.attempts && db.attempts[a].status.Running?
    ensures Keeps(db, InterruptAttempts(db, runs, terminalState))
  {
    AttemptsInterrupted(db, runs, terminalState);
    var next := InterruptAttempts(db, runs, terminalState);
    AttemptsEndedOk(db, next.tasks, next.attempts);
    assert next == db.(tasks := next.tasks, attempts := next.attempts);
    hide Inv, Evolves;
  }

  lemma VerificationsInterrupted(db: Database, runs: set<Id>)
    requires VerificationsOk(db.tasks, db.attempts, db.verifications)
    requires forall v | v in runs :: v in db.verifications && db.verifications[v].status.Running?
    ensures var next := InterruptVerifications(db, runs);
      VerificationsOk(db.tasks, db.attempts, next.verifications) && VerificationsKept(db.verifications, next.verifications)
  {}

  lemma QualityReviewed(db: Database, runs: set<Id>)
    requires QualityOk(db.tasks, db.verifications, db.decisions, db.quality)
    ensures QualityOk(db.tasks, db.verifications, db.decisions, InterruptVerifications(db, runs).quality)
  {}

  lemma InterruptVerificationsOk(db: Database, runs: set<Id>)
    requires Inv(db) && forall v | v in runs :: v in db.verifications && db.verifications[v].status.Running?
    ensures Keeps(db, InterruptVerifications(db, runs))
  {
    hide HistoryOk, TasksOk, AttemptsOk, VerificationsOk, DecisionsOk, QualityOk, EvidenceOk, LeasesOk, VerificationsKept;
    EvolvesReflexive(db);
    var next := InterruptVerifications(db, runs);
    VerificationsInterrupted(db, runs);
    QualityReviewed(db, runs);
    DecisionsRetargeted(db.verifications, next.verifications, db.decisions);
    QualityRetargeted(db.tasks, db.verifications, next.verifications, db.decisions, db.decisions, next.quality);
  }

  lemma InterruptOwnedOk(db: Database, now: Time, asOf: Option<Time>, m: Id, owner: Text)
    requires Inv(db) && InterruptOwnedExecution(db, now, asOf, m, owner).Ok?
    ensures Keeps(db, InterruptOwnedExecution(db, now, asOf, m, owner).value)
  {
    hide Inv, Evolves, InterruptVerifications, InterruptAttempts, TransitionMission;
    var first := InterruptAttempts(db, OwnedAttempts(db, m, owner), "interrupted_shutdown");
    InterruptAttemptsOk(db, OwnedAttempts(db, m, owner), "interrupted_shutdown");
    var second := InterruptVerifications(first, RunningVerifications(db, m));
    VerificationsStillRunning(db, OwnedAttempts(db, m, owner), "interrupted_shutdown");
    InterruptVerificationsOk(first, RunningVerifications(db, m));
    KeepsTransitive(db, first, second);
    if Reviewable(db.missions[m].status) {
      var third := TransitionMission(second, now, m, AwaitingReview, System, None).value;
      TransitionMissionOk(second, now, m, AwaitingReview, System, None);
      KeepsTransitive(db, second, third);
      LeaseDroppedOk(third, m);
      KeepsTransitive(db, third, third.(leases := third.leases - {m}));
    } else {
      LeaseDroppedOk(second, m);
      KeepsTransitive(db, second, second.(leases := second.leases - {m}));
    }
  }

  lemma VerificationsStillRunning(db: Database, runs: set<Id>, terminalState: Text)
    ensures InterruptAttempts(db, runs, terminalState).verifications == db.verifications
    ensures InterruptAttempts(db, runs, terminalState).missions == db.missions
    ensures InterruptVerifications(db, runs).missions == db.missions
  {}

  lemma LeaseDroppedOk(db: Database, m: Id)
    requires Inv(db)
    ensures Keeps(db, db.(leases := db.leases - {m}))
  {
    hide HistoryOk, TasksOk, AttemptsOk, VerificationsOk, DecisionsOk, QualityOk, EvidenceOk;
    LeasesOnlyOk(db, db.leases - {m});
  }

  /** Which snapshot each key holds once recovery has added its two revisions. */
  lemma ReviewedRevision(db: Database, now: Time, ms: set<Id>, m: Id, r: nat)
    requires m in db.missions && (RevisionKey(m, r) in db.revisions ==> 1 <= r <= db.missions[m].revision)
    ensures var next := ReviewMissions(db, now, ms).revisions;
      && (RevisionKey(m, r) in db.revisions ==> RevisionKey(m, r) in next && next[RevisionKey(m, r)] == db.revisions[RevisionKey(m, r)])
      && (m in ms && db.missions[m].revision < r <= db.missions[m].revision + 2 ==>
            RevisionKey(m, r) in next && next[RevisionKey(m, r)] == ReviewRow(db.missions[m], now, r))
      && (RevisionKey(m, r) in next ==> RevisionKey(m, r) in db.revisions || (m in ms && 1 <= r <= db.missions[m].revision + 2))
  {
    hide ReviewRevisions, ReviewRow, ReviewRows;
    var k := RevisionKey(m, r);
    assert k in ReviewRevisions(db.missions, now, ms) <==> IsReviewKey(db.missions, ms, k);
  }

  lemma ReviewedStored(db: Database, now: Time, ms: set<Id>, m: Id, r: nat)
    requires m in db.missions && (m in ms ==> CanTransition(db.missions[m].status, AwaitingReview))
    requires TopIs(db.revisions, m, db.missions[m])
    requires 1 <= r <= db.missions[m].revision + (if m in ms then 2 else 0)
    requires r <= db.missions[m].revision ==> Stored(db.revisions, m, r)
    requires forall q: nat | RevisionKey(m, q) in db.revisions :: 1 <= q <= db.missions[m].revision
    ensures Stored(ReviewMissions(db, now, ms).revisions, m, r)
  {
    hide ReviewRevisions, ReviewMissions, IsReviewKey, InterruptedPlan;
    ReviewedRevision(db, now, ms, m, r);
    if r > 1 { ReviewedRevision(db, now, ms, m, r - 1); }
  }

  lemma RevisionsReviewed(db: Database, now: Time, ms: set<Id>)
    requires HistoryOk(db.missions, db.revisions)
    ensures var next := ReviewMissions(db, now, ms);
      && MissionsGrow(db.missions, next.missions) && Extends(db.revisions, next.revisions)
      && (forall k | k in next.revisions :: k.mission in next.missions && 1 <= k.revision <= next.missions[k.mission].revision)
  {
    hide Stored, ReviewRevisions;
    var next := ReviewMissions(db, now, ms);
    forall k | k in next.revisions
      ensures k.mission in next.missions && 1 <= k.revision <= next.missions[k.mission].revision
      ensures k in db.revisions ==> next.revisions[k] == db.revisions[k]
    {
      ReviewedRevision(db, now, ms, k.mission, k.revision);
    }
  }

  lemma ReviewedTop(db: Database, now: Time, ms: set<Id>, m: Id)
    requires HistoryOk(db.missions, db.revisions) && m in db.missions
    ensures var next := ReviewMissions(db, now, ms);
      && m in next.missions && next.missions[m].revision == db.missions[m].revision + (if m in ms then 2 else 0)
      && TopIs(next.revisions, m, next.missions[m])
  {
    hide Stored, ReviewRevisions, ReviewRows, InterruptedPlan;
    assert TopIs(db.revisions, m, db.missions[m]);
    ReviewedRevision(db, now, ms, m, ReviewMissions(db, now, ms).missions[m].revision);
  }

  /** Two revisions at once, for any set of missions that may go to review. */
  lemma HistoriesGrow(db: Database, now: Time, ms: set<Id>)
    requires HistoryOk(db.missions, db.revisions)
    requires forall m | m in ms :: m in db.missions && CanTransition(db.missions[m].status, AwaitingReview)
    ensures var next := ReviewMissions(db, now, ms);
      HistoryOk(next.missions, next.revisions) && MissionsGrow(db.missions, next.missions) && Extends(db.revisions, next.revisions)
  {
    hide Stored, TopIs, CanTransition, ReviewMissions, MissionsGrow, Extends;
    var next := ReviewMissions(db, now, ms);
    RevisionsReviewed(db, now, ms);
    ReviewKeepsIds(db, now, ms);
    forall m | m in next.missions ensures TopIs(next.revisions, m, next.missions[m]) {
      ReviewedTop(db, now, ms, m);
    }
    forall m, r: nat | m in next.missions && 1 <= r <= next.missions[m].revision ensures Stored(next.revisions, m, r) {
      ReviewedTop(db, now, ms, m);
      ReviewedStored(db, now, ms, m, r);
    }
  }

  lemma ReviewKeepsIds(db: Database, now: Time, ms: set<Id>)
    ensures ReviewMissions(db, now, ms).missions.Keys == db.missions.Keys
  {
    hide ReviewRows, ReviewRevisions;
  }

  lemma ReviewMissionsOk(db: Database, now: Time, ms: set<Id>)
    requires Inv(db) && forall m | m in ms :: m in db.missions && CanTransition(db.missions[m].status, AwaitingReview)
    ensures Keeps(db, ReviewMissions(db, now, ms))
  {
    hide HistoryOk, TasksOk, AttemptsOk, VerificationsOk, DecisionsOk, QualityOk, EvidenceOk, LeasesOk, MissionsGrow,
         Extends;
    EvolvesReflexive(db);
    HistoriesGrow(db, now, ms);
    MissionsGrown(db.missions, ReviewMissions(db, now, ms).missions, db.tasks, db.evidence, db.items, db.leases);
  }

  lemma RecoverOk(db: Database, now: Time, asOf: Option<Time>, owner: Option<Text>)
    requires Inv(db) && RecoverInterrupted(db, now, asOf, owner).Ok?
    ensures Keeps(db, RecoverInterrupted(db, now, asOf, owner).value)
  {
    hide Inv, Evolves, InterruptAttempts, InterruptVerifications, AffectedMissions, ReviewMissions;
    var attempts := LapsedAttempts(db, asOf.GetOr(now), owner);
    var verifications := LapsedVerifications(db, asOf.GetOr(now), owner);
    var affected := AffectedMissions(db, attempts, verifications);
    var ms := ReviewedMissions(db, affected);
    var first := InterruptAttempts(db, attempts, "recovered_interrupted");
    var second := InterruptVerifications(first, verifications);
    InterruptAttemptsOk(db, attempts, "recovered_interrupted");
    VerificationsStillRunning(db, attempts, "recovered_interrupted");
    InterruptVerificationsOk(first, verifications);
    VerificationsStillRunning(first, verifications, "");
    KeepsTransitive(db, first, second);
    ReviewMissionsOk(second, now, ms);
    KeepsTransitive(db, second, ReviewMissions(second, now, ms));
  }

  lemma HeartbeatOk(db: Database, now: Time, later: Time, m: Id, owner: Text, ttl: int)
    requires Inv(db) && HeartbeatLease(db, now, later, m, owner, ttl).Ok?
    ensures Keeps(db, HeartbeatLease(db, now, later, m, owner, ttl).value)
  {
    hide HistoryOk, TasksOk, AttemptsOk, VerificationsOk, DecisionsOk, QualityOk, EvidenceOk;
    LeasesOnlyOk(db, HeartbeatLease(db, now, later, m, owner, ttl).value.leases);
  }

  lemma ReleaseOk(db: Database, m: Id, owner: Text)
    requires Inv(db) && ReleaseLease(db, m, owner).Ok?
    ensures Keeps(db, ReleaseLease(db, m, owner).value)
  {
    hide Inv, Evolves;
    LeaseDroppedOk(db, m);
    assert m !in db.leases ==> db.leases - {m} == db.leases;
  }

  lemma KeepsReflexive(db: Database)
    requires Inv(db)
    ensures Keeps(db, db)
  {
    hide Inv;
    EvolvesReflexive(db);
  }

  predicate OnMission(op: Op) {
    op.OpCreateMission? || op.OpUpdateMission? || op.OpTransitionMission? || op.OpClaim? || op.OpInterrupt? || op.OpRecover?
  }

  predicate OnWork(op: Op) {
    op.OpCreateTask? || op.OpSaveTaskPacket? || op.OpStartTask? || op.OpFinishTask? || op.OpCreateAttempt? || op.OpFinishAttempt?
  }

  predicate OnQuality(op: Op) {
    op.OpCreateVerification? || op.OpUpdateVerification? || op.OpRecordDecision? || op.OpFinalize? || op.OpFinalizeFailure? || op.OpSetQuality?
  }

  predicate OnEvidenceOrLease(op: Op) {
    op.OpAdmitEvidence? || op.OpRejectEvidence? || op.OpAcquire? || op.OpHeartbeat? || op.OpRelease?
  }

  /** Creating, changing, claiming and recovering missions. */
  lemma MissionCallsOk(db: Database, now: Time, op: Op)
    requires Inv(db) && OnMission(op)
    ensures Apply(db, now, op).thrown.None? ==> Keeps(db, Apply(db, now, op).db)
  {
    hide Keeps, Inv, Evolves, CreateMission, UpdateMission, TransitionMission, CreateTask, SaveTaskPacket, SetTask, CreateAttempt,
         FinishAttempt, CreateVerificationRun, UpdateVerificationRun, RecordQualityDecision, FinalizeQualityVerification,
         FinalizeQualityFailure, SetTaskQualityStatus, AdmitEvidence, PromoteEvidence, AcquireLease, HeartbeatLease, ReleaseLease,
         ClaimMissionExecution, InterruptOwnedExecution, RecoverInterrupted;
    if Apply(db, now, op).thrown.None? {
      match op
      case OpCreateMission(m, draft) => CreateMissionOk(db, now, m, draft);
      case OpUpdateMission(m, patch, expected) => UpdateMissionOk(db, now, m, patch, expected);
      case OpTransitionMission(m, status, actor, expected) => TransitionMissionOk(db, now, m, status, actor, expected);
      case OpClaim(m, owner, ttl) => ClaimOk(db, now, m, owner, ttl);
      case OpInterrupt(m, owner, asOf) => InterruptOwnedOk(db, now, asOf, m, owner);
      case OpRecover(asOf, owner) => RecoverOk(db, now, asOf, owner);
    }
  }

  /** Tasks and attempts. */
  lemma WorkCallsOk(db: Database, now: Time, op: Op)
    requires Inv(db) && OnWork(op)
    ensures Apply(db, now, op).thrown.None? ==> Keeps(db, Apply(db, now, op).db)
  {
    hide Keeps, Inv, Evolves, CreateMission, UpdateMission, TransitionMission, CreateTask, SaveTaskPacket, SetTask, CreateAttempt,
         FinishAttempt, CreateVerificationRun, UpdateVerificationRun, RecordQualityDecision, FinalizeQualityVerification,
         FinalizeQualityFailure, SetTaskQualityStatus, AdmitEvidence, PromoteEvidence, AcquireLease, HeartbeatLease, ReleaseLease,
         ClaimMissionExecution, InterruptOwnedExecution, RecoverInterrupted;
    if Apply(db, now, op).thrown.None? {
      match op
      case OpCreateTask(t, draft) => CreateTaskOk(db, now, t, draft);
      case OpSaveTaskPacket(t, expected, packetOk) => SaveTaskPacketOk(db, t, expected, packetOk);
      case OpStartTask(t, expected) => SetTaskOk(db, t, TaskStatus.Running, expected);
      case OpFinishTask(t, status, expected) => SetTaskOk(db, t, status, expected);
      case OpCreateAttempt(a, draft) => CreateAttemptOk(db, now, a, draft);
      case OpFinishAttempt(a, status, terminalState) => FinishAttemptOk(db, a, status, terminalState);
    }
  }

  /** Verifications, decisions and quality rows. */
  lemma QualityCallsOk(db: Database, now: Time, op: Op)
    requires Inv(db) && OnQuality(op)
    ensures Apply(db, now, op).thrown.None? ==> Keeps(db, Apply(db, now, op).db)
  {
    hide Keeps, Inv, Evolves, CreateMission, UpdateMission, TransitionMission, CreateTask, SaveTaskPacket, SetTask, CreateAttempt,
         FinishAttempt, CreateVerificationRun, UpdateVerificationRun, RecordQualityDecision, FinalizeQualityVerification,
         FinalizeQualityFailure, SetTaskQualityStatus, AdmitEvidence, PromoteEvidence, AcquireLease, HeartbeatLease, ReleaseLease,
         ClaimMissionExecution, InterruptOwnedExecution, RecoverInterrupted;
    if Apply(db, now, op).thrown.None? {
      match op
      case OpCreateVerification(v, draft) => CreateVerificationOk(db, v, draft);
      case OpUpdateVerification(v, patch) => UpdateVerificationOk(db, v, patch);
      case OpRecordDecision(d, draft) => RecordDecisionOk(db, now, d, draft);
      case OpFinalize(v, d, draft) => FinalizeOk(db, now, v, d, draft);
      case OpFinalizeFailure(v, review) => FinalizeFailureOk(db, v, review);
      case OpSetQuality(q) => SetQualityOk(db, q);
    }
  }

  /** Evidence and leases; promotion is its own case. */
  lemma EvidenceCallsOk(db: Database, now: Time, op: Op)
    requires Inv(db) && OnEvidenceOrLease(op)
    ensures Apply(db, now, op).thrown.None? ==> Keeps(db, Apply(db, now, op).db)
  {
    hide Keeps, Inv, Evolves, CreateMission, UpdateMission, TransitionMission, CreateTask, SaveTaskPacket, SetTask, CreateAttempt,
         FinishAttempt, CreateVerificationRun, UpdateVerificationRun, RecordQualityDecision, FinalizeQualityVerification,
         FinalizeQualityFailure, SetTaskQualityStatus, AdmitEvidence, PromoteEvidence, AcquireLease, HeartbeatLease, ReleaseLease,
         ClaimMissionExecution, InterruptOwnedExecution, RecoverInterrupted;
    if Apply(db, now, op).thrown.None? {
      match op
      case OpAdmitEvidence(e, draft) => AdmitEvidenceOk(db, now, e, draft);
      case OpRejectEvidence(e, reasonOk) => EvidenceDismissedOk(db, e, EvidenceStatus.Rejected);
      case OpAcquire(m, owner, ttl) => AcquireLeaseOk(db, now, m, owner, ttl);
      case OpHeartbeat(m, owner, ttl, later) => HeartbeatOk(db, now, later, m, owner, ttl);
      case OpRelease(m, owner) => ReleaseOk(db, m, owner);
    }
  }

  /** Every operation, committed or refused, keeps the invariant and only extends what was stored. */
  lemma ApplyOk(db: Database, now: Time, op: Op)
    requires Inv(db)
    ensures Keeps(db, Apply(db, now, op).db)
  {
    hide Keeps, Inv, Evolves, CreateMission, UpdateMission, TransitionMission, CreateTask, SaveTaskPacket, SetTask, CreateAttempt,
         FinishAttempt, CreateVerificationRun, UpdateVerificationRun, RecordQualityDecision, FinalizeQualityVerification,
         FinalizeQualityFailure, SetTaskQualityStatus, AdmitEvidence, PromoteEvidence, AcquireLease, HeartbeatLease, ReleaseLease,
         ClaimMissionExecution, InterruptOwnedExecution, RecoverInterrupted;
    KeepsReflexive(db);
    if op.OpPromote? {
      PromoteEvidenceOk(db, now, op.e, op.itemId, op.options);
    } else if OnMission(op) {
      MissionCallsOk(db, now, op);
    } else if OnWork(op) {
      WorkCallsOk(db, now, op);
    } else if OnQuality(op) {
      QualityCallsOk(db, now, op);
    } else {
      EvidenceCallsOk(db, now, op);
    }
  }
}
