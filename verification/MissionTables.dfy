/**
 The tables of the mission database, one map per SQLite table, and the reads
 that the store's guards share. Ids are opaque values with a total order, so
 natural numbers stand for them; a time is a number of milliseconds.
 */
module MissionTables {
  import opened Wrappers

  type Id = nat
  type Time = nat
  type Text = string

  /** The JSON values kept in text columns. */
  datatype Json =
    | Null
    | Num(n: int)
    | Str(s: Text)
    | Arr(items: seq<Json>)
    | Obj(fields: map<Text, Json>)

  /** The fields of a JSON object; anything else is read as an empty object. */
  function Fields(j: Json): map<Text, Json> {
    if j.Obj? then j.fields else map[]
  }

  datatype MissionStatus =
    Draft | Planned | Active | Paused | Running | AwaitingReview | Blocked | Failed | Cancelled | Completed

  datatype TaskStatus =
    Pending | Planned | Ready | Running | Interrupted | Succeeded | ExecutionCompleted | Failed | Cancelled | Blocked

  datatype AttemptStatus = Running | Succeeded | Failed | Interrupted | Cancelled | TimedOut | Unknown

  datatype VerificationStatus = Running | Completed | Interrupted | Blocked

  datatype QualityStatus = Unverified | VerificationRunning | Passed | Rejected | Blocked | ReviewRequired

  datatype EvidenceStatus = Proposed | Accepted | Rejected | Stale

  datatype Verdict = Pass | Reject | Block

  datatype ExecutionClass = Investigation | Implementation | Verification

  datatype Actor = Boss | Worker | Reviewer | System | User

  /** The statuses a task may be created with, finished with, and the terminal statuses of an attempt. */
  type NewTaskStatus = s: TaskStatus | s.Pending? || s.Planned? || s.Ready? witness TaskStatus.Pending
  type FinishedTaskStatus = s: TaskStatus |
    s.Succeeded? || s.Failed? || s.Cancelled? || s.Blocked? || s.ExecutionCompleted? witness TaskStatus.Succeeded
  type FinishedAttemptStatus = s: AttemptStatus | !s.Running? witness AttemptStatus.Succeeded

  datatype CanonicalItem = CanonicalItem(itemId: Id, kind: Text, value: Json, source: Id, promotedAt: Time)

  datatype ApprovedDecision = Given(value: Json) | Promoted(item: CanonicalItem)

  datatype ChangeState = Patched(value: Json) | Entered(status: MissionStatus)

  /** A row of `missions`, and a snapshot of one in `mission_revisions`. */
  datatype Mission = Mission(
    revision: nat,
    status: MissionStatus,
    goal: Text,
    acceptanceCriteria: seq<Text>,
    plan: Json,
    approvedDecisions: seq<ApprovedDecision>,
    validatedFindings: seq<CanonicalItem>,
    completedWork: seq<CanonicalItem>,
    testReviewEvidence: seq<CanonicalItem>,
    changeState: ChangeState,
    notes: Json,
    updatedAt: Time)

  /** `objectiveKey` is the normalised objective: with the class it is the task's identity key. */
  datatype Task = Task(
    mission: Id,
    revision: nat,
    executionClass: ExecutionClass,
    objectiveKey: Text,
    status: TaskStatus,
    lastRun: Option<Id>,
    packetRevision: nat,
    createdAt: Time)

  datatype Attempt = Attempt(
    task: Id,
    mission: Id,
    status: AttemptStatus,
    leaseOwner: Option<Text>,
    leaseExpires: Option<Time>,
    terminalState: Option<Text>)

  datatype VerificationRun = VerificationRun(
    mission: Id,
    task: Id,
    target: Id,
    round: nat,
    status: VerificationStatus,
    decision: Option<Id>)

  datatype Decision = Decision(
    mission: Id,
    task: Id,
    verification: Id,
    target: Id,
    round: nat,
    verdict: Verdict,
    detail: Text,
    createdAt: Time)

  datatype Quality = Quality(
    mission: Id,
    status: QualityStatus,
    round: nat,
    verification: Option<Id>,
    decision: Option<Id>)

  datatype Evidence = Evidence(
    mission: Id,
    task: Option<Id>,
    kind: Text,
    status: EvidenceStatus,
    content: Json,
    sourceRevision: Option<nat>,
    admittedAt: Time)

  datatype ItemRow = ItemRow(mission: Id, revision: nat, item: CanonicalItem)

  datatype Lease = Lease(owner: Text, acquiredAt: Time, heartbeatAt: Time, expiresAt: Time, recoveredFrom: Option<Text>)

  datatype RevisionKey = RevisionKey(mission: Id, revision: nat)

  datatype Database = Database(
    missions: map<Id, Mission>,
    revisions: map<RevisionKey, Mission>,
    tasks: map<Id, Task>,
    attempts: map<Id, Attempt>,
    verifications: map<Id, VerificationRun>,
    decisions: map<Id, Decision>,
    quality: map<Id, Quality>,
    evidence: map<Id, Evidence>,
    items: map<Id, ItemRow>,
    leases: map<Id, Lease>)

  const EmptyDatabase: Database :=
    Database(map[], map[], map[], map[], map[], map[], map[], map[], map[], map[])

  predicate CanTransition(from: MissionStatus, to: MissionStatus) {
    match from
    case Draft => to.Planned? || to.Active? || to.Running? || to.Blocked? || to.Cancelled?
    case Planned => to.Active? || to.Running? || to.Blocked? || to.Cancelled?
    case Active => to.Paused? || to.Running? || to.AwaitingReview? || to.Blocked? || to.Failed? || to.Cancelled?
    case Paused => to.Running? || to.Blocked? || to.Cancelled?
    case Running => to.Paused? || to.AwaitingReview? || to.Blocked? || to.Failed? || to.Cancelled?
    case AwaitingReview => to.Running? || to.Completed? || to.Blocked? || to.Failed? || to.Cancelled?
    case Blocked => to.Running? || to.Failed? || to.Cancelled?
    case Failed => to.Cancelled?
    case Cancelled => false
    case Completed => false
  }

  /** Row order of a task listing: creation time, then id. */
  predicate TaskBefore(tasks: map<Id, Task>, t: Id, u: Id)
    requires t in tasks && u in tasks
  {
    tasks[t].createdAt < tasks[u].createdAt || (tasks[t].createdAt == tasks[u].createdAt && t < u)
  }

  predicate SameIdentity(t: Task, u: Task) {
    t.executionClass == u.executionClass && t.objectiveKey == u.objectiveKey
  }

  /** A task a mission may still count: not cancelled. */
  predicate Live(tasks: map<Id, Task>, m: Id, t: Id) {
    t in tasks && tasks[t].mission == m && !tasks[t].status.Cancelled?
  }

  /** The last listed live task of its identity key. */
  predicate IsActive(tasks: map<Id, Task>, m: Id, t: Id) {
    Live(tasks, m, t) &&
    forall u | u in tasks :: Live(tasks, m, u) && SameIdentity(tasks[u], tasks[t]) ==> !TaskBefore(tasks, t, u)
  }

  function ActiveTasks(tasks: map<Id, Task>, m: Id): set<Id> {
    set t | t in tasks && IsActive(tasks, m, t)
  }

  /** What the store demands of a mission before it may be completed. */
  predicate Completable(db: Database, m: Id) {
    ActiveTasks(db.tasks, m) != {} &&
    forall t | t in ActiveTasks(db.tasks, m) ::
      db.tasks[t].status.ExecutionCompleted? && t in db.quality && db.quality[t].mission == m &&
      db.quality[t].status.Passed? && db.quality[t].decision.Some?
  }

  /** True when no unexpired lease covers the mission. */
  predicate LeaseLapsed(db: Database, m: Id, now: Time) {
    m in db.leases ==> db.leases[m].expiresAt <= now
  }

  /** The characters `trim` removes in JavaScript: white space and line terminators. */
  predicate Whitespace(c: char) {
    c == ' ' || '\U{9}' <= c <= '\U{d}' || c == '\U{a0}' || c == '\U{1680}' || '\U{2000}' <= c <= '\U{200a}' ||
    c == '\U{2028}' || c == '\U{2029}' || c == '\U{202f}' || c == '\U{205f}' || c == '\U{3000}' || c == '\U{feff}'
  }

  predicate Blank(s: Text) { forall i | 0 <= i < |s| :: Whitespace(s[i]) }
}
