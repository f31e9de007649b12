/**
 The guards can be passed: from any reachable state, a running mission with no
 work left in it is completed by one task that is executed and verified.
 */
module MissionPath {
  import opened Wrappers
  import opened MissionTables
  import opened MissionOps
  import opened MissionInvariant
  import opened MissionRuns

  /** The ids and contents of the path's rows. */
  datatype Work = Work(
    m: Id, t: Id, a: Id, v: Id, d: Id, executionClass: ExecutionClass, objectiveKey: Text, ttl: int, round: nat, detail: Text)

  /** None of the path's ids is taken, and every task of the mission is cancelled. */
  predicate Clear(db: Database, w: Work) {
    && w.m in db.missions && db.missions[w.m].status.Running?
    && w.t !in db.tasks && w.a !in db.attempts && w.v !in db.verifications && w.d !in db.decisions
    && (forall u | u in db.tasks :: db.tasks[u].mission == w.m ==> db.tasks[u].status.Cancelled?)
  }

  /** The one live task of the mission is at this point of the path. */
  predicate Alone(tasks: map<Id, Task>, w: Work, status: TaskStatus) {
    && w.t in tasks && tasks[w.t].mission == w.m && tasks[w.t].status == status
    && (forall u | u in tasks :: u != w.t && tasks[u].mission == w.m ==> tasks[u].status.Cancelled?)
  }

  predicate Running(db: Database, w: Work) { w.m in db.missions && db.missions[w.m].status.Running? }

  predicate Unattempted(db: Database, w: Work) {
    w.a !in db.attempts && forall x | x in db.attempts :: db.attempts[x].task != w.t
  }

  predicate NotYetVerified(db: Database, w: Work) {
    && w.v !in db.verifications && (forall x | x in db.verifications :: db.verifications[x].task != w.t)
    && w.d !in db.decisions && forall x | x in db.decisions :: db.decisions[x].verification != w.v
  }

  predicate AttemptIs(db: Database, w: Work, status: AttemptStatus) {
    w.a in db.attempts && db.attempts[w.a].task == w.t && db.attempts[w.a].mission == w.m && db.attempts[w.a].status == status
  }

  // ----- the steps -----

  function TaskOf(w: Work): TaskDraft { TaskDraft(w.m, w.executionClass, w.objectiveKey, TaskStatus.Planned, true) }

  lemma Created(db: Database, now: Time, w: Work)
    requires Inv(db) && Clear(db, w)
    ensures var r := CreateTask(db, now, w.t, TaskOf(w));
      && r.Ok? && Running(r.value, w) && Alone(r.value.tasks, w, TaskStatus.Planned) && Unattempted(r.value, w) && NotYetVerified(r.value, w)
      && r.value.leases == db.leases
  {
    hide HistoryOk, TasksOk, QualityOk, EvidenceOk, LeasesOk;
  }

  lemma Attempted(db: Database, now: Time, w: Work)
    requires Running(db, w) && Alone(db.tasks, w, TaskStatus.Planned) && Unattempted(db, w) && NotYetVerified(db, w)
    requires w.ttl > 0 && LeaseLapsed(db, w.m, now)
    ensures var r := CreateAttempt(db, now, w.a, AttemptDraft(w.t, None, w.ttl));
      && r.Ok? && Running(r.value, w) && Alone(r.value.tasks, w, TaskStatus.Running) && AttemptIs(r.value, w, AttemptStatus.Running)
      && NotYetVerified(r.value, w)
  {
    hide LeaseLapsed;
  }

  lemma Executed(db: Database, w: Work)
    requires Running(db, w) && Alone(db.tasks, w, TaskStatus.Running) && AttemptIs(db, w, AttemptStatus.Running) && NotYetVerified(db, w)
    ensures var r := FinishAttempt(db, w.a, AttemptStatus.Succeeded, None);
      && r.Ok? && Running(r.value, w) && Alone(r.value.tasks, w, ExecutionCompleted) && AttemptIs(r.value, w, AttemptStatus.Succeeded)
      && NotYetVerified(r.value, w)
  {}

  /** The open verification of the attempt, undecided. */
  predicate UnderReview(db: Database, w: Work) {
    && w.v in db.verifications
    && db.verifications[w.v] == VerificationRun(w.m, w.t, w.a, w.round, VerificationStatus.Running, None)
    && w.d !in db.decisions && forall x | x in db.decisions :: db.decisions[x].verification != w.v
  }

  lemma Opened(db: Database, w: Work)
    requires Running(db, w) && Alone(db.tasks, w, ExecutionCompleted) && AttemptIs(db, w, AttemptStatus.Succeeded) && NotYetVerified(db, w)
    ensures var r := CreateVerificationRun(db, w.v, VerificationDraft(w.m, w.t, w.a, w.round));
      && r.Ok? && Running(r.value, w) && Alone(r.value.tasks, w, ExecutionCompleted) && UnderReview(r.value, w)
  {}

  function PassOf(w: Work): DecisionDraft { DecisionDraft(w.m, w.t, w.v, w.a, w.round, Pass, w.detail, true) }

  lemma Decided(db: Database, now: Time, w: Work)
    requires Running(db, w) && Alone(db.tasks, w, ExecutionCompleted) && UnderReview(db, w)
    ensures RecordQualityDecision(db, now, w.d, PassOf(w)).Ok?
    ensures RecordQualityDecision(db, now, w.d, PassOf(w)).value.tasks == db.tasks
  {}

  lemma PassedReview(db: Database, now: Time, w: Work)
    requires Running(db, w) && Alone(db.tasks, w, ExecutionCompleted) && UnderReview(db, w)
    ensures var r := FinalizeQualityVerification(db, now, w.v, w.d, PassOf(w));
      && r.Ok? && Running(r.value, w) && Alone(r.value.tasks, w, ExecutionCompleted)
      && w.t in r.value.quality && r.value.quality[w.t] == Quality(w.m, Passed, w.round, Some(w.v), Some(w.d))
  {
    hide RecordQualityDecision;
    Decided(db, now, w);
    RecordedFacts(db, now, w.d, PassOf(w));
  }

  lemma OnlyActive(db: Database, w: Work)
    requires Alone(db.tasks, w, ExecutionCompleted)
    requires w.t in db.quality && db.quality[w.t] == Quality(w.m, Passed, w.round, Some(w.v), Some(w.d))
    ensures Completable(db, w.m)
  {
    assert w.t in ActiveTasks(db.tasks, w.m);
  }

  // ----- the path -----

  lemma FirstStep(db: Database, step: Step, rest: seq<Step>)
    ensures Run(db, [step] + rest) == Run(Apply(db, step.now, step.op).db, rest)
  {
    hide Apply;
    assert ([step] + rest)[0] == step && ([step] + rest)[1..] == rest;
  }

  function ReviewSteps(now: Time, w: Work): seq<Step> {
    [Step(now, OpTransitionMission(w.m, AwaitingReview, Boss, None))] + [Step(now, OpTransitionMission(w.m, MissionStatus.Completed, Boss, None))]
  }

  function VerificationSteps(now: Time, w: Work): seq<Step> {
    [Step(now, OpCreateVerification(w.v, VerificationDraft(w.m, w.t, w.a, w.round)))] +
    ([Step(now, OpFinalize(w.v, w.d, PassOf(w)))] + ReviewSteps(now, w))
  }

  function PathOf(now: Time, w: Work): seq<Step> {
    [Step(now, OpCreateTask(w.t, TaskOf(w)))] +
    ([Step(now, OpCreateAttempt(w.a, AttemptDraft(w.t, None, w.ttl)))] +
     ([Step(now, OpFinishAttempt(w.a, AttemptStatus.Succeeded, None))] + VerificationSteps(now, w)))
  }

  lemma TransitionLands(db: Database, now: Time, m: Id, status: MissionStatus)
    requires Inv(db) && m in db.missions && CanTransition(db.missions[m].status, status) && (status.Completed? ==> Completable(db, m))
    ensures var next := Apply(db, now, OpTransitionMission(m, status, Boss, None)).db;
      Inv(next) && m in next.missions && next.missions[m].status == status && next.tasks == db.tasks && next.quality == db.quality
  {
    hide Inv, Evolves, Completable;
    TransitionMissionOk(db, now, m, status, Boss, None);
  }

  lemma ReviewCompletes(db: Database, now: Time, w: Work)
    requires Inv(db) && Running(db, w) && Completable(db, w.m)
    ensures IsCompleted(Run(db, ReviewSteps(now, w)), w.m)
  {
    hide Inv, Evolves, Apply;
    var review := Step(now, OpTransitionMission(w.m, AwaitingReview, Boss, None));
    var complete := Step(now, OpTransitionMission(w.m, MissionStatus.Completed, Boss, None));
    TransitionLands(db, now, w.m, AwaitingReview);
    var reviewed := Apply(db, now, review.op).db;
    assert Completable(reviewed, w.m) by { SameGates(db, reviewed, w.m); }
    TransitionLands(reviewed, now, w.m, MissionStatus.Completed);
    FirstStep(db, review, [complete]);
    FirstStep(reviewed, complete, []);
    assert [complete] + [] == [complete];
  }

  lemma SameGates(a: Database, b: Database, m: Id)
    requires a.tasks == b.tasks && a.quality == b.quality && Completable(a, m)
    ensures Completable(b, m)
  {}

  lemma VerificationCompletes(db: Database, now: Time, w: Work)
    requires Inv(db) && Running(db, w) && Alone(db.tasks, w, ExecutionCompleted) && AttemptIs(db, w, AttemptStatus.Succeeded)
    requires NotYetVerified(db, w)
    ensures IsCompleted(Run(db, VerificationSteps(now, w)), w.m)
  {
    hide Inv, Evolves, Completable, CreateVerificationRun, FinalizeQualityVerification, Alone, AttemptIs, NotYetVerified, UnderReview, Running,
         PassOf, ReviewSteps, Run;
    var open := Step(now, OpCreateVerification(w.v, VerificationDraft(w.m, w.t, w.a, w.round)));
    var finalize := Step(now, OpFinalize(w.v, w.d, PassOf(w)));
    Opened(db, w);
    ApplyOk(db, now, open.op);
    var underReview := Apply(db, now, open.op).db;
    PassedReview(underReview, now, w);
    ApplyOk(underReview, now, finalize.op);
    var passed := Apply(underReview, now, finalize.op).db;
    OnlyActive(passed, w);
    ReviewCompletes(passed, now, w);
    FirstStep(db, open, [finalize] + ReviewSteps(now, w));
    FirstStep(underReview, finalize, ReviewSteps(now, w));
  }

  /** One task, executed once and verified once, completes the mission; nothing on the way is refused. */
  lemma WorkCompletes(db: Database, now: Time, w: Work)
    requires Reachable(db) && Clear(db, w) && w.ttl > 0 && LeaseLapsed(db, w.m, now)
    ensures IsCompleted(Run(db, PathOf(now, w)), w.m)
  {
    hide Reachable, Inv, Evolves, CreateTask, CreateAttempt, FinishAttempt, Clear, Alone, AttemptIs, NotYetVerified, Unattempted, Running,
         TaskOf, VerificationSteps, Run;
    ReachableInv(db);
    var create := Step(now, OpCreateTask(w.t, TaskOf(w)));
    var attempt := Step(now, OpCreateAttempt(w.a, AttemptDraft(w.t, None, w.ttl)));
    var finish := Step(now, OpFinishAttempt(w.a, AttemptStatus.Succeeded, None));
    Created(db, now, w);
    ApplyOk(db, now, create.op);
    var created := Apply(db, now, create.op).db;
    Attempted(created, now, w);
    ApplyOk(created, now, attempt.op);
    var attempted := Apply(created, now, attempt.op).db;
    Executed(attempted, w);
    ApplyOk(attempted, now, finish.op);
    var executed := Apply(attempted, now, finish.op).db;
    VerificationCompletes(executed, now, w);
    FirstStep(db, create, [attempt] + ([finish] + VerificationSteps(now, w)));
    FirstStep(created, attempt, [finish] + VerificationSteps(now, w));
    FirstStep(attempted, finish, VerificationSteps(now, w));
  }
}
