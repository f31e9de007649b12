/**
 What each store operation does to the tables: either the tables it commits,
 or the error that rolls the transaction back. The store class is proved
 against these functions, and every invariant is proved about them.
 */
module MissionOps {
  import opened Wrappers
  import opened MissionTables

  // ----- missions and their revision history -----

  datatype MissionDraft = MissionDraft(
    planned: bool, goal: Text, acceptanceCriteria: seq<Text>, plan: Json, approved: seq<Json>, notes: Json, fieldsOk: bool)

  datatype MissionPatch = MissionPatch(
    goal: Option<Text>, acceptanceCriteria: Option<seq<Text>>, plan: Option<Json>,
    approvedDecisions: Option<seq<ApprovedDecision>>, changeState: Option<Json>, notes: Option<Json>)

  const NoPatch: MissionPatch := MissionPatch(None, None, None, None, None, None)

  predicate Expects(expected: Option<nat>, actual: nat) { expected.Some? ==> expected.value == actual }

  /** Store a mission row together with the snapshot of its revision. */
  function SaveRevision(db: Database, m: Id, row: Mission): (r: Result<Database>)
    ensures r.Ok? ==> r.value.leases == db.leases && r.value.quality == db.quality
  {
    if RevisionKey(m, row.revision) in db.revisions then Err(Constraint)
    else Ok(db.(missions := db.missions[m := row], revisions := db.revisions[RevisionKey(m, row.revision) := row]))
  }

  function NewMission(now: Time, draft: MissionDraft): Mission {
    Mission(1, if draft.planned then MissionStatus.Planned else Draft, draft.goal, draft.acceptanceCriteria, draft.plan,
            seq(|draft.approved|, i requires 0 <= i < |draft.approved| => Given(draft.approved[i])),
            [], [], [], Patched(Null), draft.notes, now)
  }

  function CreateMission(db: Database, now: Time, m: Id, draft: MissionDraft): (r: Result<Database>)
    ensures r.Ok? ==> r.value.leases == db.leases && r.value.quality == db.quality
  {
    if !draft.fieldsOk || m in db.missions then Err(Validation)
    else SaveRevision(db, m, NewMission(now, draft))
  }

  function Patch(row: Mission, now: Time, patch: MissionPatch): Mission {
    row.(revision := row.revision + 1,
         goal := patch.goal.GetOr(row.goal),
         acceptanceCriteria := patch.acceptanceCriteria.GetOr(row.acceptanceCriteria),
         plan := patch.plan.GetOr(row.plan),
         approvedDecisions := patch.approvedDecisions.GetOr(row.approvedDecisions),
         changeState := if patch.changeState.Some? then Patched(patch.changeState.value) else row.changeState,
         notes := patch.notes.GetOr(row.notes),
         updatedAt := now)
  }

  function UpdateMission(db: Database, now: Time, m: Id, patch: MissionPatch, expected: Option<nat>): (r: Result<Database>)
    ensures r.Ok? ==> r.value.leases == db.leases && r.value.quality == db.quality
  {
    if m !in db.missions then Err(NotFound)
    else if !Expects(expected, db.missions[m].revision) then Err(Conflict)
    else SaveRevision(db, m, Patch(db.missions[m], now, patch))
  }

  function Enter(row: Mission, now: Time, status: MissionStatus): Mission {
    row.(status := status, revision := row.revision + 1, changeState := Entered(status), updatedAt := now)
  }

  function TransitionMission(db: Database, now: Time, m: Id, status: MissionStatus, actor: Actor, expected: Option<nat>): (r: Result<Database>)
    ensures r.Ok? ==> r.value.leases == db.leases && r.value.quality == db.quality
  {
    if m !in db.missions then Err(NotFound)
    else if !Expects(expected, db.missions[m].revision) then Err(Conflict)
    else if status.Completed? && !actor.Boss? then Err(Unauthorized)
    else if status.Completed? && !Completable(db, m) then Err(Validation)
    else if db.missions[m].status == status || !CanTransition(db.missions[m].status, status) then Err(Validation)
    else SaveRevision(db, m, Enter(db.missions[m], now, status))
  }

  // ----- tasks -----

  datatype TaskDraft = TaskDraft(
    mission: Id, executionClass: ExecutionClass, objectiveKey: Text, status: NewTaskStatus, fieldsOk: bool)

  const FreshQuality: Quality := Quality(0, Unverified, 0, None, None)

  function CreateTask(db: Database, now: Time, t: Id, draft: TaskDraft): (r: Result<Database>)
    ensures r.Ok? ==> r.value.missions == db.missions && r.value.leases == db.leases
  {
    if draft.mission !in db.missions then Err(NotFound)
    else if t in db.tasks || !draft.fieldsOk then Err(Validation)
    else Ok(db.(
      tasks := db.tasks[t := Task(draft.mission, db.missions[draft.mission].revision, draft.executionClass,
                                  draft.objectiveKey, draft.status, None, 0, now)],
      quality := db.quality[t := FreshQuality.(mission := draft.mission)]))
  }

  /** `UPDATE tasks SET status=?, revision=revision+1 WHERE task_id=?` */
  function SetStatus(tasks: map<Id, Task>, t: Id, status: TaskStatus): map<Id, Task> {
    if t in tasks then tasks[t := tasks[t].(status := status, revision := tasks[t].revision + 1)] else tasks
  }

  function SaveTaskPacket(db: Database, t: Id, expected: Option<nat>, packetOk: bool): (r: Result<Database>)
    ensures r.Ok? ==> r.value.missions == db.missions && r.value.leases == db.leases && r.value.quality == db.quality
  {
    if t !in db.tasks then Err(NotFound)
    else if !Expects(expected, db.tasks[t].revision) then Err(Conflict)
    else if !packetOk then Err(Validation)
    else Ok(db.(tasks := db.tasks[t := db.tasks[t].(packetRevision := db.tasks[t].packetRevision + 1,
                                                    revision := db.tasks[t].revision + 1)]))
  }

  function SetTask(db: Database, t: Id, status: TaskStatus, expected: Option<nat>): (r: Result<Database>)
    ensures r.Ok? ==> r.value.missions == db.missions && r.value.leases == db.leases && r.value.quality == db.quality
  {
    if t !in db.tasks then Err(NotFound)
    else if !Expects(expected, db.tasks[t].revision) then Err(Conflict)
    else Ok(db.(tasks := SetStatus(db.tasks, t, status)))
  }

  predicate Runnable(status: TaskStatus) { status.Pending? || status.Planned? || status.Ready? || status.Interrupted? }

  function StartTask(db: Database, t: Id, expected: Option<nat>): (r: Result<Database>)
    ensures r.Ok? ==> r.value.missions == db.missions && r.value.leases == db.leases && r.value.quality == db.quality
  {
    if t !in db.tasks then Err(NotFound)
    else if !Runnable(db.tasks[t].status) then Err(Validation)
    else SetTask(db, t, TaskStatus.Running, expected)
  }

  // ----- attempts -----

  datatype AttemptDraft = AttemptDraft(task: Id, leaseOwner: Option<Text>, ttl: int)

  predicate HasRunningAttempt(attempts: map<Id, Attempt>, t: Id) {
    exists a | a in attempts :: attempts[a].task == t && attempts[a].status.Running?
  }

  /** An empty owner string counts as no owner at all. */
  predicate Named(owner: Option<Text>) { owner.Some? && owner.value != "" }

  function CreateAttempt(db: Database, now: Time, a: Id, draft: AttemptDraft): (r: Result<Database>)
    ensures r.Ok? ==> r.value.missions == db.missions && r.value.leases == db.leases
  {
    var t := draft.task;
    if t !in db.tasks then Err(NotFound)
    else
      var m := db.tasks[t].mission;
      if !LeaseLapsed(db, m, now) && !(Named(draft.leaseOwner) && db.leases[m].owner == draft.leaseOwner.value) then Err(LeaseError)
      else if HasRunningAttempt(db.attempts, t) then Err(LeaseError)
      else if draft.ttl <= 0 then Err(LeaseError)
      else if a in db.attempts then Err(Validation)
      else
        var expires := if Named(draft.leaseOwner) then Some(now + draft.ttl) else None;
        Ok(db.(
          tasks := db.tasks[t := db.tasks[t].(status := TaskStatus.Running, lastRun := Some(a), revision := db.tasks[t].revision + 1)],
          attempts := db.attempts[a := Attempt(t, m, AttemptStatus.Running, draft.leaseOwner, expires, None)],
          quality := if db.tasks[t].executionClass.Implementation?
                     then db.quality[t := FreshQuality.(mission := m)] else db.quality))
  }

  function TaskStatusAfter(status: FinishedAttemptStatus): TaskStatus {
    match status
    case Succeeded => ExecutionCompleted
    case Interrupted => TaskStatus.Interrupted
    case TimedOut => TaskStatus.Interrupted
    case Cancelled => TaskStatus.Cancelled
    case _ => TaskStatus.Blocked
  }

  function FinishAttempt(db: Database, a: Id, status: FinishedAttemptStatus, terminalState: Option<Text>): (r: Result<Database>)
    ensures r.Ok? ==> r.value.missions == db.missions && r.value.leases == db.leases && r.value.quality == db.quality
  {
    if a !in db.attempts then Err(NotFound)
    else if !db.attempts[a].status.Running? then Err(Validation)
    else Ok(db.(
      attempts := db.attempts[a := db.attempts[a].(status := status, terminalState := terminalState)],
      tasks := SetStatus(db.tasks, db.attempts[a].task, TaskStatusAfter(status))))
  }

  // ----- verification, decisions and quality status -----

  datatype VerificationDraft = VerificationDraft(mission: Id, task: Id, target: Id, round: int)

  predicate HasRunningVerification(verifications: map<Id, VerificationRun>, m: Id, t: Id) {
    exists v | v in verifications ::
      verifications[v].mission == m && verifications[v].task == t && verifications[v].status.Running?
  }

  function CreateVerificationRun(db: Database, v: Id, draft: VerificationDraft): (r: Result<Database>)
    ensures r.Ok? ==> r.value.missions == db.missions && r.value.leases == db.leases && r.value.quality == db.quality
  {
    if draft.mission !in db.missions || draft.task !in db.tasks then Err(NotFound)
    else if db.tasks[draft.task].mission != draft.mission then Err(Validation)
    else if draft.target !in db.attempts then Err(NotFound)
    else
      var target := db.attempts[draft.target];
      if target.mission != draft.mission || target.task != draft.task || !target.status.Succeeded? then Err(Validation)
      else if draft.round < 0 || v in db.verifications then Err(Validation)
      else if HasRunningVerification(db.verifications, draft.mission, draft.task) then Err(Validation)
      else Ok(db.(verifications := db.verifications[v :=
        VerificationRun(draft.mission, draft.task, draft.target, draft.round, VerificationStatus.Running, None)]))
  }

  datatype VerificationPatch = VerificationPatch(
    mission: Option<Id>, task: Option<Id>, target: Option<Id>,
    round: Option<int>, status: Option<VerificationStatus>, decision: Option<Id>)

  function UpdateVerificationRun(db: Database, v: Id, patch: VerificationPatch): (r: Result<Database>)
    ensures r.Ok? ==> r.value.missions == db.missions && r.value.leases == db.leases && r.value.quality == db.quality
  {
    if v !in db.verifications then Err(NotFound)
    else
      var current := db.verifications[v];
      var status := patch.status.GetOr(current.status);
      var decision := if patch.decision.Some? then patch.decision else current.decision;
      var round := patch.round.GetOr(current.round);
      if (patch.mission.Some? && patch.mission.value != current.mission) ||
         (patch.task.Some? && patch.task.value != current.task) ||
         (patch.target.Some? && patch.target.value != current.target) then Err(Validation)
      else if !current.status.Running? && status != current.status then Err(Validation)
      else if status.Completed? && decision.None? then Err(Validation)
      else if round < 0 then Err(Validation)
      else Ok(db.(verifications := db.verifications[v := current.(round := round, status := status, decision := decision)]))
  }

  datatype DecisionDraft = DecisionDraft(
    mission: Id, task: Id, verification: Id, target: Id, round: int, verdict: Verdict, detail: Text, fieldsOk: bool)

  predicate HasDecision(decisions: map<Id, Decision>, v: Id) {
    exists d | d in decisions :: decisions[d].verification == v
  }

  function RecordQualityDecision(db: Database, now: Time, d: Id, draft: DecisionDraft): (r: Result<Database>)
    ensures r.Ok? ==> r.value.missions == db.missions && r.value.leases == db.leases && r.value.quality == db.quality
  {
    if draft.mission !in db.missions || draft.task !in db.tasks then Err(NotFound)
    else if db.tasks[draft.task].mission != draft.mission then Err(Validation)
    else if draft.verification !in db.verifications then Err(NotFound)
    else
      var run := db.verifications[draft.verification];
      if run.mission != draft.mission || run.task != draft.task || run.target != draft.target then Err(Validation)
      else if !run.status.Running? || HasDecision(db.decisions, draft.verification) then Err(Validation)
      else if draft.round != run.round || d in db.decisions || !draft.fieldsOk then Err(Validation)
      else Ok(db.(
        decisions := db.decisions[d := Decision(draft.mission, draft.task, draft.verification, draft.target, draft.round,
                                                draft.verdict, draft.detail, now)],
        verifications := db.verifications[draft.verification := run.(decision := Some(d))]))
  }

  datatype QualityInput = QualityInput(
    mission: Id, task: Id, status: QualityStatus, round: int, verification: Option<Id>, decision: Option<Id>)

  /** What the store demands of a quality status before it stores it. */
  predicate Backed(db: Database, q: QualityInput)
    requires q.verification.Some? ==> q.verification.value in db.verifications
    requires q.decision.Some? ==> q.decision.value in db.decisions
  {
    var completed := q.verification.Some? && db.verifications[q.verification.value].status.Completed?;
    match q.status
    case VerificationRunning => q.verification.Some? && db.verifications[q.verification.value].status.Running?
    case Passed => q.decision.Some? && db.decisions[q.decision.value].verdict.Pass? && completed
    case Rejected => q.decision.Some? && db.decisions[q.decision.value].verdict.Reject? && completed
    case Blocked =>
      if q.decision.None?
      then q.verification.Some? && (db.verifications[q.verification.value].status.Blocked? ||
                                    db.verifications[q.verification.value].status.Interrupted?)
      else db.decisions[q.decision.value].verdict.Block? && completed
    case _ => true
  }

  function SetTaskQualityStatus(db: Database, q: QualityInput): (r: Result<Database>)
    ensures r.Ok? ==> r.value.missions == db.missions && r.value.leases == db.leases
  {
    if q.mission !in db.missions || q.task !in db.tasks || db.tasks[q.task].mission != q.mission then Err(NotFound)
    else if q.round < 0 then Err(Validation)
    else if q.verification.Some? && (q.verification.value !in db.verifications ||
                                     db.verifications[q.verification.value].mission != q.mission ||
                                     db.verifications[q.verification.value].task != q.task) then Err(Validation)
    else if q.decision.Some? && (q.decision.value !in db.decisions ||
                                 db.decisions[q.decision.value].mission != q.mission ||
                                 db.decisions[q.decision.value].task != q.task) then Err(Validation)
    else if q.decision.Some? && q.verification.Some? &&
            db.decisions[q.decision.value].verification != q.verification.value then Err(Validation)
    else if !Backed(db, q) then Err(Validation)
    else Ok(db.(quality := db.quality[q.task := Quality(q.mission, q.status, q.round, q.verification, q.decision)]))
  }

  function StatusFor(verdict: Verdict): QualityStatus {
    match verdict
    case Pass => Passed
    case Reject => QualityStatus.Rejected
    case Block => QualityStatus.Blocked
  }

  const NoVerificationPatch: VerificationPatch := VerificationPatch(None, None, None, None, None, None)

  function CompletionPatch(d: Id): VerificationPatch {
    NoVerificationPatch.(status := Some(VerificationStatus.Completed), decision := Some(d))
  }

  /** Record the decision, complete the run named by the caller, then set the quality status. */
  function FinalizeQualityVerification(db: Database, now: Time, v: Id, d: Id, draft: DecisionDraft): (r: Result<Database>)
    ensures r.Ok? ==> r.value.missions == db.missions && r.value.leases == db.leases
  {
    match RecordQualityDecision(db, now, d, draft)
    case Err(e) => Err(e)
    case Ok(recorded) =>
      match UpdateVerificationRun(recorded, v, CompletionPatch(d))
      case Err(e) => Err(e)
      case Ok(completed) =>
        var run := completed.verifications[v];
        SetTaskQualityStatus(completed,
          QualityInput(run.mission, run.task, StatusFor(draft.verdict), run.round, Some(v), Some(d)))
  }

  function FailurePatch(review: bool): VerificationPatch {
    NoVerificationPatch.(status := Some(if review then VerificationStatus.Interrupted else VerificationStatus.Blocked))
  }

  /** End a running verification without a decision; a run that already ended is left alone. */
  function FinalizeQualityFailure(db: Database, v: Id, review: bool): (r: Result<Database>)
    ensures r.Ok? ==> r.value.missions == db.missions && r.value.leases == db.leases
  {
    if v !in db.verifications then Err(NotFound)
    else if !db.verifications[v].status.Running? then Ok(db)
    else
      match UpdateVerificationRun(db, v, FailurePatch(review))
      case Err(e) => Err(e)
      case Ok(ended) =>
        var run := ended.verifications[v];
        SetTaskQualityStatus(ended, QualityInput(run.mission, run.task,
          if review then ReviewRequired else QualityStatus.Blocked, run.round, Some(v), None))
  }

  // ----- evidence -----

  datatype EvidenceDraft = EvidenceDraft(
    mission: Id, task: Option<Id>, attempt: Option<Id>, kind: Text, content: Json, sourceRevision: Option<nat>, fieldsOk: bool)

  function AdmitEvidence(db: Database, now: Time, e: Id, draft: EvidenceDraft): (r: Result<Database>)
    ensures r.Ok? ==> r.value.missions == db.missions && r.value.leases == db.leases && r.value.quality == db.quality
  {
    if draft.mission !in db.missions then Err(NotFound)
    else if draft.task.Some? && !(draft.task.value in db.tasks && db.tasks[draft.task.value].mission == draft.mission) then Err(Validation)
    else if draft.attempt.Some? && draft.attempt.value !in db.attempts then Err(NotFound)
    else if draft.attempt.Some? && (db.attempts[draft.attempt.value].mission != draft.mission ||
                                    (draft.task.Some? && db.attempts[draft.attempt.value].task != draft.task.value)) then Err(Validation)
    else if e in db.evidence || !draft.fieldsOk then Err(Validation)
    else
      var task := if draft.task.Some? then draft.task
                  else if draft.attempt.Some? then Some(db.attempts[draft.attempt.value].task) else None;
      Ok(db.(evidence := db.evidence[e :=
        Evidence(draft.mission, task, draft.kind, Proposed, draft.content, draft.sourceRevision, now)]))
  }

  datatype Target = ValidatedFindings | CompletedWork | TestReviewEvidence | ApprovedDecisions

  datatype PromoteOptions = PromoteOptions(expected: Option<nat>, kind: Option<Text>, target: Target)

  function AppendItem(row: Mission, now: Time, target: Target, item: CanonicalItem): (next: Mission)
    ensures next.revision == row.revision + 1 && next.status == row.status
  {
    var next := row.(revision := row.revision + 1, updatedAt := now);
    match target
    case ValidatedFindings => next.(validatedFindings := row.validatedFindings + [item])
    case CompletedWork => next.(completedWork := row.completedWork + [item])
    case TestReviewEvidence => next.(testReviewEvidence := row.testReviewEvidence + [item])
    case ApprovedDecisions => next.(approvedDecisions := row.approvedDecisions + [Promoted(item)])
  }

  /** True when the evidence was gathered at a revision the mission has left behind (or never had). */
  predicate Outdated(evidence: Evidence, row: Mission) {
    evidence.sourceRevision.Some? && evidence.sourceRevision.value != row.revision
  }

  function MarkStale(db: Database, e: Id): (next: Database)
    requires e in db.evidence
    ensures next == db.(evidence := next.evidence)
  {
    db.(evidence := db.evidence[e := db.evidence[e].(status := Stale)])
  }

  /** The promoting transaction itself, after the staleness check. */
  function AcceptEvidence(db: Database, now: Time, e: Id, itemId: Id, options: PromoteOptions): (r: Result<Database>)
    requires e in db.evidence && db.evidence[e].mission in db.missions
    ensures r.Ok? ==> r.value.leases == db.leases && r.value.quality == db.quality
    ensures r.Ok? ==> r.value.missions.Keys == db.missions.Keys
    ensures r.Ok? ==> forall m | m in db.missions :: r.value.missions[m].status == db.missions[m].status
  {
    var evidence := db.evidence[e];
    var m := evidence.mission;
    if !Expects(options.expected, db.missions[m].revision) then Err(Conflict)
    else if itemId in db.items then Err(Constraint)
    else
      var item := CanonicalItem(itemId, options.kind.GetOr(evidence.kind), evidence.content, e, now);
      var row := AppendItem(db.missions[m], now, options.target, item);
      SaveRevision(db.(evidence := db.evidence[e := evidence.(status := Accepted)],
                       items := db.items[itemId := ItemRow(m, row.revision, item)]), m, row)
  }

  function RejectEvidence(db: Database, e: Id, reasonOk: bool): (r: Result<Database>)
    ensures r.Ok? ==> r.value.missions == db.missions && r.value.leases == db.leases && r.value.quality == db.quality
  {
    if e !in db.evidence then Err(NotFound)
    else if !db.evidence[e].status.Proposed? then Err(EvidenceError)
    else if db.evidence[e].mission !in db.missions then Err(NotFound)
    else if !reasonOk then Err(Validation)
    else Ok(db.(evidence := db.evidence[e := db.evidence[e].(status := EvidenceStatus.Rejected)]))
  }

  // ----- leases -----

  function AcquireLease(db: Database, now: Time, m: Id, owner: Text, ttl: int): (r: Result<Database>)
    ensures r.Ok? ==> r.value == db.(leases := r.value.leases)
  {
    if m !in db.missions then Err(NotFound)
    else if Blank(owner) || ttl <= 0 then Err(LeaseError)
    else if !LeaseLapsed(db, m, now) && db.leases[m].owner != owner then Err(LeaseError)
    else
      var mine := m in db.leases && db.leases[m].owner == owner;
      Ok(db.(leases := db.leases[m := Lease(
        owner, if mine then db.leases[m].acquiredAt else now, now, now + ttl,
        if m in db.leases && !mine && db.leases[m].owner != "" then Some(db.leases[m].owner) else None)]))
  }

  /** The clock is read twice: `now` guards the call, `later` dates the new expiry and filters the UPDATE. */
  function HeartbeatLease(db: Database, now: Time, later: Time, m: Id, owner: Text, ttl: int): (r: Result<Database>)
    ensures r.Ok? ==> r.value == db.(leases := r.value.leases)
  {
    if m !in db.leases || db.leases[m].owner != owner then Err(LeaseError)
    else if db.leases[m].expiresAt <= now || ttl <= 0 then Err(LeaseError)
    else if db.leases[m].expiresAt <= later then Ok(db)
    else Ok(db.(leases := db.leases[m := db.leases[m].(heartbeatAt := later, expiresAt := later + ttl)]))
  }

  function ReleaseLease(db: Database, m: Id, owner: Text): (r: Result<Database>)
    ensures r.Ok? ==> r.value == db.(leases := r.value.leases)
  {
    if m !in db.leases then Ok(db)
    else if db.leases[m].owner != owner then Err(LeaseError)
    else Ok(db.(leases := db.leases - {m}))
  }

  /** The transitions a claim takes to bring a mission to `running`. */
  function ClaimPath(status: MissionStatus): seq<MissionStatus> {
    match status
    case Draft => [MissionStatus.Planned, Active, MissionStatus.Running]
    case Planned => [Active, MissionStatus.Running]
    case Active => [MissionStatus.Running]
    case Paused => [MissionStatus.Running]
    case AwaitingReview => [MissionStatus.Running]
    case Blocked => [MissionStatus.Running]
    case _ => []
  }

  function Follow(db: Database, now: Time, m: Id, path: seq<MissionStatus>): (r: Result<Database>)
    decreases |path|
    ensures r.Ok? ==> r.value.leases == db.leases && r.value.quality == db.quality
  {
    if path == [] then Ok(db)
    else
      match TransitionMission(db, now, m, path[0], System, None)
      case Err(e) => Err(e)
      case Ok(next) => Follow(next, now, m, path[1..])
  }

  predicate Closed(status: MissionStatus) { status.Completed? || status.Cancelled? || status.Failed? }

  function ClaimMissionExecution(db: Database, now: Time, m: Id, owner: Text, ttl: int): Result<Database> {
    if m !in db.missions then Err(NotFound)
    else if Closed(db.missions[m].status) then Err(Conflict)
    else
      match AcquireLease(db, now, m, owner, ttl)
      case Err(e) => Err(e)
      case Ok(leased) => Follow(leased, now, m, ClaimPath(db.missions[m].status))
  }

  // ----- interruption and recovery -----

  function TasksOf(attempts: map<Id, Attempt>, runs: set<Id>): set<Id> {
    set a | a in runs && a in attempts :: attempts[a].task
  }

  function InterruptedTask(task: Task): Task {
    if task.status.Running? then task.(status := TaskStatus.Interrupted, revision := task.revision + 1) else task
  }

  /** Interrupt every attempt in `runs`, and each task of theirs that is still running. */
  function InterruptAttempts(db: Database, runs: set<Id>, terminalState: Text): (r: Database)
    ensures r.missions == db.missions && r.leases == db.leases
  {
    db.(attempts := map a | a in db.attempts ::
          if a in runs then db.attempts[a].(status := AttemptStatus.Interrupted, terminalState := Some(terminalState))
          else db.attempts[a],
        tasks := map t | t in db.tasks ::
          if t in TasksOf(db.attempts, runs) then InterruptedTask(db.tasks[t]) else db.tasks[t])
  }

  /** The verification among `runs` that is about task `t`. */
  ghost function RunAbout(verifications: map<Id, VerificationRun>, runs: set<Id>, t: Id): (r: Option<Id>)
    ensures r.Some? ==> r.value in runs && r.value in verifications && verifications[r.value].task == t
    ensures r.None? ==> forall v | v in runs && v in verifications :: verifications[v].task != t
  {
    if exists v :: v in runs && v in verifications && verifications[v].task == t
    then var v :| v in runs && v in verifications && verifications[v].task == t; Some(v)
    else None
  }

  function AskReview(q: Quality, v: Id, round: nat): Quality {
    q.(status := ReviewRequired, round := round, verification := Some(v))
  }

  /** Interrupt every verification in `runs` and ask for a review of its task. */
  ghost function InterruptVerifications(db: Database, runs: set<Id>): (r: Database)
    ensures r.missions == db.missions && r.leases == db.leases
  {
    db.(verifications := map v | v in db.verifications ::
          if v in runs then db.verifications[v].(status := VerificationStatus.Interrupted) else db.verifications[v],
        quality := map t | t in db.quality ::
          match RunAbout(db.verifications, runs, t)
          case Some(v) => AskReview(db.quality[t], v, db.verifications[v].round)
          case None => db.quality[t])
  }

  /** Statuses whose missions recovery and shutdown try to move to review, and the ones among them that may not go there. */
  predicate Reviewable(status: MissionStatus) {
    status.Running? || status.Active? || status.Planned? || status.Paused? || status.Blocked?
  }
  predicate Stuck(status: MissionStatus) { status.Planned? || status.Paused? || status.Blocked? }

  function OwnedAttempts(db: Database, m: Id, owner: Text): set<Id> {
    set a | a in db.attempts && db.attempts[a].mission == m && db.attempts[a].status.Running? &&
            db.attempts[a].leaseOwner == Some(owner)
  }

  function RunningVerifications(db: Database, m: Id): set<Id> {
    set v | v in db.verifications && db.verifications[v].mission == m && db.verifications[v].status.Running?
  }

  /** `asOf` is the time the caller may supply for the lease check; `now` is the store's own clock. */
  ghost function InterruptOwnedExecution(db: Database, now: Time, asOf: Option<Time>, m: Id, owner: Text): Result<Database> {
    if m !in db.leases || db.leases[m].owner != owner then Err(LeaseError)
    else if db.leases[m].expiresAt <= asOf.GetOr(now) then Err(LeaseError)
    else
      var interrupted := InterruptVerifications(
        InterruptAttempts(db, OwnedAttempts(db, m, owner), "interrupted_shutdown"), RunningVerifications(db, m));
      if m !in db.missions then Err(NotFound)
      else if !Reviewable(db.missions[m].status) then Ok(interrupted.(leases := interrupted.leases - {m}))
      else
        match TransitionMission(interrupted, now, m, AwaitingReview, System, None)
        case Err(e) => Err(e)
        case Ok(reviewed) => Ok(reviewed.(leases := reviewed.leases - {m}))
  }

  predicate AttemptLapsed(attempt: Attempt, asOf: Time) {
    attempt.leaseExpires.Some? ==> attempt.leaseExpires.value <= asOf
  }

  function LapsedAttempts(db: Database, asOf: Time, owner: Option<Text>): set<Id> {
    set a | a in db.attempts && db.attempts[a].status.Running? && AttemptLapsed(db.attempts[a], asOf) &&
            (if owner.None? then LeaseLapsed(db, db.attempts[a].mission, asOf) else db.attempts[a].leaseOwner == owner)
  }

  function LapsedVerifications(db: Database, asOf: Time, owner: Option<Text>): set<Id> {
    set v | v in db.verifications && db.verifications[v].status.Running? &&
            LeaseLapsed(db, db.verifications[v].mission, asOf) &&
            (owner.Some? ==> db.verifications[v].mission in db.leases &&
                             db.leases[db.verifications[v].mission].owner == owner.value)
  }

  function AffectedMissions(db: Database, attempts: set<Id>, verifications: set<Id>): set<Id> {
    (set a | a in attempts && a in db.attempts :: db.attempts[a].mission) +
    (set v | v in verifications && v in db.verifications :: db.verifications[v].mission)
  }

  /** Add the INTERRUPTED terminal to a plan's orchestration record. */
  function InterruptedPlan(plan: Json): Json {
    var orchestration := if "orchestration" in Fields(plan) then Fields(Fields(plan)["orchestration"]) else map[];
    Obj(Fields(plan)["orchestration" :=
      Obj(orchestration["terminal" := Str("INTERRUPTED")]["terminalReason" := Str("Recovered interrupted execution")])])
  }

  function PlanInterrupted(row: Mission, now: Time): Mission {
    Patch(row, now, NoPatch.(plan := Some(InterruptedPlan(row.plan))))
  }

  function SentToReview(row: Mission, now: Time): Mission {
    Enter(PlanInterrupted(row, now), now, AwaitingReview)
  }

  predicate IsReviewKey(missions: map<Id, Mission>, ms: set<Id>, k: RevisionKey) {
    k.mission in ms && k.mission in missions &&
    (k.revision == missions[k.mission].revision + 1 || k.revision == missions[k.mission].revision + 2)
  }

  function ReviewRow(row: Mission, now: Time, r: nat): Mission {
    if r == row.revision + 1 then PlanInterrupted(row, now) else SentToReview(row, now)
  }

  /** The two revisions recovery adds to each mission in `ms`. */
  function ReviewRevisions(missions: map<Id, Mission>, now: Time, ms: set<Id>): (added: map<RevisionKey, Mission>)
    ensures forall k :: k in added <==> IsReviewKey(missions, ms, k)
    ensures forall k :: k in added ==> k.mission in missions && added[k] == ReviewRow(missions[k.mission], now, k.revision)
  {
    var keys := (set m | m in ms && m in missions :: RevisionKey(m, missions[m].revision + 1)) +
                (set m | m in ms && m in missions :: RevisionKey(m, missions[m].revision + 2));
    map k | k in keys :: ReviewRow(missions[k.mission], now, k.revision)
  }

  /** The rows recovery leaves behind. */
  function ReviewRows(missions: map<Id, Mission>, now: Time, ms: set<Id>): (rows: map<Id, Mission>)
    ensures rows.Keys == missions.Keys
    ensures forall m :: m in missions ==> rows[m] == if m in ms then SentToReview(missions[m], now) else missions[m]
  {
    map m | m in missions :: if m in ms then SentToReview(missions[m], now) else missions[m]
  }

  /** For every mission in `ms`: a revision with the interrupted plan, then one that moves it to review. */
  function ReviewMissions(db: Database, now: Time, ms: set<Id>): Database {
    db.(missions := ReviewRows(db.missions, now, ms), revisions := db.revisions + ReviewRevisions(db.missions, now, ms))
  }

  /** The affected missions that recovery sends back for review. */
  function ReviewedMissions(db: Database, affected: set<Id>): set<Id> {
    set m | m in affected && m in db.missions && Reviewable(db.missions[m].status)
  }

  ghost function RecoverInterrupted(db: Database, now: Time, asOf: Option<Time>, owner: Option<Text>): Result<Database> {
    var attempts := LapsedAttempts(db, asOf.GetOr(now), owner);
    var verifications := LapsedVerifications(db, asOf.GetOr(now), owner);
    var affected := AffectedMissions(db, attempts, verifications);
    if exists m | m in affected :: m in db.missions && Stuck(db.missions[m].status) then Err(Validation)
    else Ok(ReviewMissions(
      InterruptVerifications(InterruptAttempts(db, attempts, "recovered_interrupted"), verifications), now,
      ReviewedMissions(db, affected)))
  }

  // ----- one name for every operation -----

  datatype Op =
    | OpCreateMission(m: Id, missionDraft: MissionDraft)
    | OpUpdateMission(m: Id, patch: MissionPatch, expected: Option<nat>)
    | OpTransitionMission(m: Id, status: MissionStatus, actor: Actor, expected: Option<nat>)
    | OpCreateTask(t: Id, taskDraft: TaskDraft)
    | OpSaveTaskPacket(t: Id, expected: Option<nat>, packetOk: bool)
    | OpStartTask(t: Id, expected: Option<nat>)
    | OpFinishTask(t: Id, finished: FinishedTaskStatus, expected: Option<nat>)
    | OpCreateAttempt(a: Id, attemptDraft: AttemptDraft)
    | OpFinishAttempt(a: Id, attemptStatus: FinishedAttemptStatus, terminalState: Option<Text>)
    | OpCreateVerification(v: Id, verificationDraft: VerificationDraft)
    | OpUpdateVerification(v: Id, verificationPatch: VerificationPatch)
    | OpRecordDecision(d: Id, decisionDraft: DecisionDraft)
    | OpFinalize(v: Id, d: Id, decisionDraft: DecisionDraft)
    | OpFinalizeFailure(v: Id, review: bool)
    | OpSetQuality(quality: QualityInput)
    | OpAdmitEvidence(e: Id, evidenceDraft: EvidenceDraft)
    | OpPromote(e: Id, itemId: Id, options: PromoteOptions)
    | OpRejectEvidence(e: Id, reasonOk: bool)
    | OpAcquire(m: Id, owner: Text, ttl: int)
    | OpHeartbeat(m: Id, owner: Text, ttl: int, later: Time)
    | OpRelease(m: Id, owner: Text)
    | OpClaim(m: Id, owner: Text, ttl: int)
    | OpInterrupt(m: Id, owner: Text, asOf: Option<Time>)
    | OpRecover(asOf: Option<Time>, lapsedOwner: Option<Text>)

  /** The tables after a call, and the error it threw if it threw one. */
  datatype Reply = Reply(db: Database, thrown: Option<Error>)

  function Committed(db: Database, result: Result<Database>): Reply {
    match result
    case Ok(next) => Reply(next, None)
    case Err(e) => Reply(db, Some(e))
  }

  /** Promotion is two transactions: outdated evidence is marked stale and committed before the call throws. */
  function PromoteEvidence(db: Database, now: Time, e: Id, itemId: Id, options: PromoteOptions): Reply {
    if e !in db.evidence || db.evidence[e].mission !in db.missions then Reply(db, Some(NotFound))
    else if !db.evidence[e].status.Proposed? then Reply(db, Some(EvidenceError))
    else if Outdated(db.evidence[e], db.missions[db.evidence[e].mission]) then Reply(MarkStale(db, e), Some(Conflict))
    else Committed(db, AcceptEvidence(db, now, e, itemId, options))
  }

  ghost function Apply(db: Database, now: Time, op: Op): Reply {
    match op
    case OpCreateMission(m, draft) => Committed(db, CreateMission(db, now, m, draft))
    case OpUpdateMission(m, patch, expected) => Committed(db, UpdateMission(db, now, m, patch, expected))
    case OpTransitionMission(m, status, actor, expected) => Committed(db, TransitionMission(db, now, m, status, actor, expected))
    case OpCreateTask(t, draft) => Committed(db, CreateTask(db, now, t, draft))
    case OpSaveTaskPacket(t, expected, packetOk) => Committed(db, SaveTaskPacket(db, t, expected, packetOk))
    case OpStartTask(t, expected) => Committed(db, StartTask(db, t, expected))
    case OpFinishTask(t, status, expected) => Committed(db, SetTask(db, t, status, expected))
    case OpCreateAttempt(a, draft) => Committed(db, CreateAttempt(db, now, a, draft))
    case OpFinishAttempt(a, status, terminalState) => Committed(db, FinishAttempt(db, a, status, terminalState))
    case OpCreateVerification(v, draft) => Committed(db, CreateVerificationRun(db, v, draft))
    case OpUpdateVerification(v, patch) => Committed(db, UpdateVerificationRun(db, v, patch))
    case OpRecordDecision(d, draft) => Committed(db, RecordQualityDecision(db, now, d, draft))
    case OpFinalize(v, d, draft) => Committed(db, FinalizeQualityVerification(db, now, v, d, draft))
    case OpFinalizeFailure(v, review) => Committed(db, FinalizeQualityFailure(db, v, review))
    case OpSetQuality(q) => Committed(db, SetTaskQualityStatus(db, q))
    case OpAdmitEvidence(e, draft) => Committed(db, AdmitEvidence(db, now, e, draft))
    case OpPromote(e, itemId, options) => PromoteEvidence(db, now, e, itemId, options)
    case OpRejectEvidence(e, reasonOk) => Committed(db, RejectEvidence(db, e, reasonOk))
    case OpAcquire(m, owner, ttl) => Committed(db, AcquireLease(db, now, m, owner, ttl))
    case OpHeartbeat(m, owner, ttl, later) => Committed(db, HeartbeatLease(db, now, later, m, owner, ttl))
    case OpRelease(m, owner) => Committed(db, ReleaseLease(db, m, owner))
    case OpClaim(m, owner, ttl) => Committed(db, ClaimMissionExecution(db, now, m, owner, ttl))
    case OpInterrupt(m, owner, asOf) => Committed(db, InterruptOwnedExecution(db, now, asOf, m, owner))
    case OpRecover(asOf, owner) => Committed(db, RecoverInterrupted(db, now, asOf, owner))
  }
}
