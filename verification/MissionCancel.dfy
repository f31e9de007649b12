/** The operator's cancellation: one of the actors that interfere with a running goal loop. */
module MissionCancel {
  import opened Wrappers
  import opened MissionTables
  import opened MissionInvariant
  import opened MissionRuns
  import opened MissionStore
  import opened TaskIdentity
  import opened MissionEffects
  import Ops = MissionOps

  datatype CancelResult =
    | Cancelled(target: Id)
    | AlreadyTerminal(target: Id)
    | NotFound(target: Id)
    | NoActiveMission
    | Ambiguous

  function Candidates(missions: map<Id, Mission>): set<Id> {
    set m | m in missions && (missions[m].status.Running? || missions[m].status.Active? || missions[m].status.Planned? || missions[m].status.Draft?)
  }

  predicate BeyondCancelling(status: MissionStatus) {
    status.Completed? || status.Cancelled? || status.AwaitingReview? || status.Blocked? || status.Failed?
  }

  /** Which mission a request is about, when it says so or when only one can be meant. */
  function TargetOf(missions: map<Id, Mission>, missionId: Option<Id>, owned: Option<Id>): Option<Id> {
    if missionId.Some? then missionId
    else if owned.Some? then owned
    else if |Candidates(missions)| == 1 then Some(Only(Candidates(missions)))
    else None
  }

  lemma OneElement<T>(s: set<T>, x: T)
    requires |s| == 1 && x in s
    ensures s == {x}
  {
    assert |s - {x}| == 0;
    assert s - {x} == {};
  }

  function Only(s: set<Id>): (x: Id)
    requires |s| == 1
    ensures s == {x}
  {
    assert s != {};
    assert forall x | x in s :: s == {x} by { forall x | x in s ensures s == {x} { OneElement(s, x); } }
    var x :| x in s;
    x
  }

  // ----- single steps -----

  /** A run with one more call at its end. */
  lemma {:induction false} RunOneMore(db: Database, steps: seq<Step>, step: Step)
    ensures Run(db, steps + [step]) == Ops.Apply(Run(db, steps), step.now, step.op).db
    decreases |steps|
  {
    hide Ops.Apply;
    if steps == [] {
      assert (steps + [step])[1..] == [];
    } else {
      assert (steps + [step])[0] == steps[0] && (steps + [step])[1..] == steps[1..] + [step];
      RunOneMore(Ops.Apply(db, steps[0].now, steps[0].op).db, steps[1..], step);
    }
  }

  /** Ending a running verification without a decision is never refused. */
  lemma FailureEnds(db: Database, v: Id)
    requires Inv(db) && v in db.verifications
    ensures Ops.FinalizeQualityFailure(db, v, false).Ok?
    ensures var next := Ops.FinalizeQualityFailure(db, v, false).value; var run := db.verifications[v];
      if !run.status.Running? then next == db
      else next == db.(verifications := db.verifications[v := run.(status := VerificationStatus.Blocked)],
                       quality := db.quality[run.task := Quality(run.mission, QualityStatus.Blocked, run.round, Some(v), None)])
  {
    hide HistoryOk, DecisionsOk, QualityOk, EvidenceOk, LeasesOk;
  }

  predicate AllEnded(verifications: map<Id, VerificationRun>, m: Id) {
    forall v | v in verifications :: verifications[v].mission == m ==> !verifications[v].status.Running?
  }

  predicate AtRest(status: TaskStatus) { !status.Running? && !status.Pending? }

  predicate AllAtRest(tasks: map<Id, Task>, m: Id) {
    forall t | t in tasks :: tasks[t].mission == m ==> AtRest(tasks[t].status)
  }

  /** Nothing that belongs to another mission differs. */
  predicate OthersKept(a: Database, b: Database, m: Id) {
    && (forall n | n in a.missions :: n != m ==> n in b.missions && b.missions[n] == a.missions[n])
    && (forall t | t in a.tasks :: a.tasks[t].mission != m ==> t in b.tasks && b.tasks[t] == a.tasks[t])
    && (forall v | v in a.verifications :: a.verifications[v].mission != m ==> v in b.verifications && b.verifications[v] == a.verifications[v])
    && (forall t | t in a.quality :: a.quality[t].mission != m ==> t in b.quality && b.quality[t] == a.quality[t])
    && a.attempts == b.attempts && a.evidence == b.evidence && a.leases == b.leases && a.decisions == b.decisions
  }

  /** Only rows of mission `m` differ. */
  predicate TasksOutsideKept(a: map<Id, Task>, b: map<Id, Task>, m: Id) {
    a.Keys == b.Keys && forall t | t in a :: if a[t].mission == m then b[t].mission == m else b[t] == a[t]
  }

  // ----- exactly what a cancellation changes -----

  function TasksIn(tasks: map<Id, Task>, m: Id): set<Id> { set t | t in tasks && tasks[t].mission == m }

  /** Of the tasks in `ts` exactly those that were running or pending are cancelled. */
  predicate TasksCancelled(a: map<Id, Task>, b: map<Id, Task>, ts: set<Id>) {
    && a.Keys == b.Keys
    && forall t | t in a ::
         b[t] == if t in ts && (a[t].status.Running? || a[t].status.Pending?)
                 then a[t].(status := TaskStatus.Cancelled, revision := a[t].revision + 1) else a[t]
  }

  /** Exactly the verifications in `vs` are blocked, and with each its task's quality. */
  predicate RunsBlocked(a: Database, b: Database, vs: set<Id>) {
    && a.verifications.Keys == b.verifications.Keys && a.quality.Keys == b.quality.Keys
    && (forall v | v in a.verifications ::
          b.verifications[v] == if v in vs then a.verifications[v].(status := VerificationStatus.Blocked) else a.verifications[v])
    && (forall v | v in vs && v in a.verifications && a.verifications[v].task in a.quality ::
          b.quality[a.verifications[v].task] ==
            Quality(a.verifications[v].mission, QualityStatus.Blocked, a.verifications[v].round, Some(v), None))
    && (forall t | t in a.quality ::
          (forall v | v in vs && v in a.verifications :: a.verifications[v].task != t) ==> b.quality[t] == a.quality[t])
  }

  /** The whole effect of a cancellation: the mission's status, its work at hand and its open verifications, and nothing more. */
  ghost predicate CancelledExactly(a: Database, b: Database, m: Id) {
    && b == a.(missions := b.missions, revisions := b.revisions, tasks := b.tasks, verifications := b.verifications, quality := b.quality)
    && Elsewhere(a.missions, b.missions, {m}) && m in a.missions && m in b.missions
    && OnlyStatus(a.missions[m], b.missions[m]) && b.missions[m].status.Cancelled? && b.missions[m].revision == a.missions[m].revision + 1
    && TasksCancelled(a.tasks, b.tasks, TasksIn(a.tasks, m)) && RunsBlocked(a, b, VerificationsOn(a, m))
  }

  lemma NoneCancelled(tasks: map<Id, Task>)
    ensures TasksCancelled(tasks, tasks, {})
  {}

  lemma OneMoreCancelled(a: map<Id, Task>, b: map<Id, Task>, ts: set<Id>, t: Id)
    requires TasksCancelled(a, b, ts) && t in a
    ensures var c := if AtRest(b[t].status) then b else Ops.SetStatus(b, t, TaskStatus.Cancelled); TasksCancelled(a, c, ts + {t})
  {}

  lemma NoneBlocked(db: Database)
    ensures RunsBlocked(db, db, {})
  {}

  /** Verifications that run at once are about different tasks, so blocking one more leaves the others' quality. */
  lemma OneMoreBlocked(a: Database, b: Database, vs: set<Id>, m: Id, v: Id)
    requires Inv(a) && Inv(b) && RunsBlocked(a, b, vs) && b == a.(verifications := b.verifications, quality := b.quality)
    requires vs <= VerificationsOn(a, m) && v in VerificationsOn(a, m) && v !in vs
    ensures Ops.FinalizeQualityFailure(b, v, false).Ok? && RunsBlocked(a, Ops.FinalizeQualityFailure(b, v, false).value, vs + {v})
  {
    hide Inv, Ops.FinalizeQualityFailure;
    FailureEnds(b, v);
    QualityOfRun(a, v);
    RunsAreApart(a, m);
  }

  lemma RunsAreApart(db: Database, m: Id)
    requires Inv(db)
    ensures forall v, w | v in VerificationsOn(db, m) && w in VerificationsOn(db, m) :: db.verifications[v].task == db.verifications[w].task ==> v == w
  {
    hide HistoryOk, TasksOk, AttemptsOk, DecisionsOk, QualityOk, EvidenceOk, LeasesOk;
  }

  lemma KeepsRun(db: Database, steps: seq<Step>, step: Step)
    requires Inv(db)
    ensures Inv(Run(db, steps + [step])) && Run(db, steps + [step]) == Ops.Apply(Run(db, steps), step.now, step.op).db
  {
    hide Inv, Evolves, Run, Ops.Apply;
    RunKeeps(db, steps + [step]);
    RunOneMore(db, steps, step);
  }

  lemma FinishCalled(db: Database, now: Time, t: Id)
    ensures Ops.Apply(db, now, Ops.OpFinishTask(t, TaskStatus.Cancelled, None)) ==
      Ops.Committed(db, Ops.SetTask(db, t, TaskStatus.Cancelled, None))
  {}

  method CancelTasks(store: SQLiteMissionStore, now: Time, m: Id) returns (ghost steps: seq<Step>)
    requires store.transactionDepth == 0 && Inv(store.db)
    modifies store
    ensures store.transactionDepth == 0 && Inv(store.db) && store.db == Run(old(store.db), steps)
    ensures store.db == old(store.db).(tasks := store.db.tasks)
    ensures TasksOutsideKept(old(store.db.tasks), store.db.tasks, m) && AllAtRest(store.db.tasks, m)
    ensures TasksCancelled(old(store.db.tasks), store.db.tasks, TasksIn(old(store.db.tasks), m))
  {
    hide Inv, Run, Ops.Apply, TasksCancelled;
    steps := [];
    NoneCancelled(store.db.tasks);
    ghost var done: set<Id> := {};
    ghost var start := store.db;
    NoSteps(start);
    var rows := ListTasks(store.db.tasks, m);
    var i := 0;
    while i < |rows|
      invariant 0 <= i <= |rows| && store.transactionDepth == 0 && Inv(store.db) && store.db == Run(start, steps)
      invariant store.db == start.(tasks := store.db.tasks)
      invariant TasksOutsideKept(start.tasks, store.db.tasks, m)
      invariant forall j | 0 <= j < i :: rows[j] in store.db.tasks && AtRest(store.db.tasks[rows[j]].status)
      invariant TasksCancelled(start.tasks, store.db.tasks, done)
      invariant (forall t | t in done :: t in rows) && (forall j | 0 <= j < i :: rows[j] in done)
    {
      var t := rows[i];
      assert t in rows;
      OneMoreCancelled(start.tasks, store.db.tasks, done, t);
      done := done + {t};
      if !AtRest(store.db.tasks[t].status) {
        FinishCalled(store.db, now, t);
        KeepsRun(start, steps, Step(now, Ops.OpFinishTask(t, TaskStatus.Cancelled, None)));
        var _ := store.FinishTask(t, TaskStatus.Cancelled, None);
        steps := steps + [Step(now, Ops.OpFinishTask(t, TaskStatus.Cancelled, None))];
      }
      i := i + 1;
    }
    forall t | t in store.db.tasks && store.db.tasks[t].mission == m
      ensures AtRest(store.db.tasks[t].status)
    {
      assert t in rows;
    }
    assert done == TasksIn(start.tasks, m) by {
      forall t ensures t in done <==> t in TasksIn(start.tasks, m) { assert t in rows <==> t in TasksIn(start.tasks, m); }
    }
  }

  lemma NoSteps(db: Database)
    ensures Run(db, []) == db
  {}

  predicate RunsOutsideKept(a: Database, b: Database, m: Id) {
    && a.verifications.Keys == b.verifications.Keys
    && (forall v | v in a.verifications ::
          if a.verifications[v].mission == m then b.verifications[v].mission == m else b.verifications[v] == a.verifications[v])
    && (forall t | t in a.quality :: t in b.quality &&
          if a.quality[t].mission == m then b.quality[t].mission == m else b.quality[t] == a.quality[t])
  }

  lemma RunsKeptReflexive(db: Database, m: Id)
    ensures RunsOutsideKept(db, db, m)
  {}

  lemma QualityOfRun(db: Database, v: Id)
    requires Inv(db) && v in db.verifications
    ensures db.verifications[v].task in db.quality && db.quality[db.verifications[v].task].mission == db.verifications[v].mission
  {
    hide HistoryOk, AttemptsOk, DecisionsOk, EvidenceOk, LeasesOk, Judged;
  }

  lemma BlockOne(start: Database, db: Database, m: Id, v: Id)
    requires RunsOutsideKept(start, db, m) && Inv(db)
    requires v in start.verifications && start.verifications[v].mission == m
    ensures Ops.FinalizeQualityFailure(db, v, false).Ok?
    ensures var next := Ops.FinalizeQualityFailure(db, v, false).value;
      && next == db.(verifications := next.verifications, quality := next.quality)
      && RunsOutsideKept(start, next, m)
      && v in next.verifications && !next.verifications[v].status.Running?
      && forall w | w in db.verifications :: w in next.verifications && (w != v ==> next.verifications[w] == db.verifications[w])
  {
    hide Inv, Ops.FinalizeQualityFailure;
    FailureEnds(db, v);
    QualityOfRun(db, v);
  }

  lemma EndedEverywhere(start: Database, db: Database, m: Id)
    requires RunsOutsideKept(start, db, m)
    requires forall v | v in start.verifications && start.verifications[v].mission == m :: v in db.verifications && !db.verifications[v].status.Running?
    ensures AllEnded(db.verifications, m)
  {}

  method BlockVerifications(store: SQLiteMissionStore, now: Time, m: Id) returns (ghost steps: seq<Step>)
    requires store.transactionDepth == 0 && Inv(store.db)
    modifies store
    ensures store.transactionDepth == 0 && Inv(store.db) && store.db == Run(old(store.db), steps)
    ensures store.db == old(store.db).(verifications := store.db.verifications, quality := store.db.quality)
    ensures RunsOutsideKept(old(store.db), store.db, m) && AllEnded(store.db.verifications, m)
    ensures RunsBlocked(old(store.db), store.db, VerificationsOn(old(store.db), m))
  {
    hide Inv, Run, Ops.FinalizeQualityFailure, RunsOutsideKept, RunsBlocked, Ops.Apply;
    NoneBlocked(store.db);
    steps := [];
    ghost var start := store.db;
    NoSteps(start);
    RunsKeptReflexive(start, m);
    var runs := Ops.RunningVerifications(store.db, m);
    SameOwned(store.db, m, "");
    var todo := runs;
    assert runs - todo == {};
    while todo != {}
      invariant todo <= runs && store.transactionDepth == 0 && Inv(store.db) && store.db == Run(start, steps)
      invariant store.db == start.(verifications := store.db.verifications, quality := store.db.quality)
      invariant RunsOutsideKept(start, store.db, m) && RunsBlocked(start, store.db, runs - todo)
      invariant forall v | v in start.verifications && v !in todo && start.verifications[v].mission == m ::
        v in store.db.verifications && !store.db.verifications[v].status.Running?
      decreases todo
    {
      var v :| v in todo;
      KeepsRun(start, steps, Step(now, Ops.OpFinalizeFailure(v, false)));
      FailureCalled(store.db, now, v);
      BlockOne(start, store.db, m, v);
      OneMoreBlocked(start, store.db, runs - todo, m, v);
      assert runs - (todo - {v}) == (runs - todo) + {v};
      var _ := store.FinalizeQualityFailure(v, false);
      steps := steps + [Step(now, Ops.OpFinalizeFailure(v, false))];
      todo := todo - {v};
    }
    assert runs - todo == runs;
    EndedEverywhere(start, store.db, m);
  }

  lemma FailureCalled(db: Database, now: Time, v: Id)
    ensures Ops.Apply(db, now, Ops.OpFinalizeFailure(v, false)) == Ops.Committed(db, Ops.FinalizeQualityFailure(db, v, false))
  {}

  /** Nothing of the mission is left that could still run. */
  predicate Stopped(db: Database, m: Id) {
    m in db.missions && db.missions[m].status.Cancelled? && AllAtRest(db.tasks, m) && AllEnded(db.verifications, m)
  }

  lemma {:induction false} RunAppend(db: Database, a: seq<Step>, b: seq<Step>)
    ensures Run(db, a + b) == Run(Run(db, a), b)
    decreases |b|
  {
    hide Ops.Apply;
    if b == [] {
      assert a + b == a;
    } else {
      RunOneMore(db, a, b[0]);
      assert a + b == (a + [b[0]]) + b[1..];
      RunAppend(db, a + [b[0]], b[1..]);
    }
  }

  /**
   The mission is cancelled first, then its tasks and verifications are ended
   one by one; every step is an ordinary store operation and none is refused.
   */
  method CancelMission(store: SQLiteMissionStore, now: Time, m: Id) returns (ghost steps: seq<Step>)
    requires store.transactionDepth == 0 && Inv(store.db)
    requires m in store.db.missions && !BeyondCancelling(store.db.missions[m].status)
    modifies store
    ensures store.transactionDepth == 0 && Inv(store.db) && store.db == Run(old(store.db), steps)
    ensures Stopped(store.db, m) && OthersKept(old(store.db), store.db, m) && CancelledExactly(old(store.db), store.db, m)
  {
    hide Inv, Run, TasksOutsideKept, RunsOutsideKept, AllAtRest, AllEnded, Ops.TransitionMission, OthersKept, TasksCancelled, RunsBlocked,
         CancelledExactly;
    ghost var first := [Step(now, Ops.OpTransitionMission(m, MissionStatus.Cancelled, User, None))];
    NoSteps(store.db);
    KeepsRun(store.db, [], first[0]);
    CancelTransition(store.db, now, m);
    var _ := store.TransitionMission(now, m, MissionStatus.Cancelled, User, None);
    ghost var cancelled := store.db;
    assert [] + first == first;
    ghost var second := CancelTasks(store, now, m);
    ghost var atRest := store.db;
    ghost var third := BlockVerifications(store, now, m);
    steps := first + second + third;
    RunAppend(old(store.db), first, second);
    RunAppend(old(store.db), first + second, third);
    StepsKeepOthers(old(store.db), cancelled, atRest, store.db, m);
    StepsAreExact(old(store.db), cancelled, atRest, store.db, m);
  }

  lemma StepsAreExact(a: Database, b: Database, c: Database, d: Database, m: Id)
    requires m in a.missions && m in b.missions && b == a.(missions := a.missions[m := b.missions[m]], revisions := b.revisions)
    requires OnlyStatus(a.missions[m], b.missions[m]) && b.missions[m].status.Cancelled? && b.missions[m].revision == a.missions[m].revision + 1
    requires c == b.(tasks := c.tasks) && TasksCancelled(b.tasks, c.tasks, TasksIn(b.tasks, m))
    requires d == c.(verifications := d.verifications, quality := d.quality) && RunsBlocked(c, d, VerificationsOn(c, m))
    ensures CancelledExactly(a, d, m)
  {
    hide TasksCancelled, OnlyStatus, TasksIn;
  }

  method CancelActiveMission(store: SQLiteMissionStore, now: Time, missionId: Option<Id>, owned: Option<Id>)
    returns (result: CancelResult, ghost steps: seq<Step>)
    requires store.transactionDepth == 0 && Inv(store.db)
    modifies store
    ensures store.transactionDepth == 0 && Inv(store.db) && store.db == Run(old(store.db), steps)
    ensures match TargetOf(old(store.db.missions), missionId, owned)
            case None => store.db == old(store.db) && result == if Candidates(store.db.missions) == {} then NoActiveMission else Ambiguous
            case Some(m) =>
              if m !in old(store.db.missions) then store.db == old(store.db) && result == CancelResult.NotFound(m)
              else if BeyondCancelling(old(store.db.missions)[m].status) then store.db == old(store.db) && result == AlreadyTerminal(m)
              else result == CancelResult.Cancelled(m) && Stopped(store.db, m) && OthersKept(old(store.db), store.db, m) &&
                   CancelledExactly(old(store.db), store.db, m)
  {
    hide Inv, Run, Stopped, OthersKept, CancelledExactly;
    steps := [];
    NoSteps(store.db);
    var target := missionId;
    if target.None? {
      if owned.Some? {
        target := owned;
      } else {
        var active := Candidates(store.db.missions);
        if active == {} { return NoActiveMission, []; }
        if |active| > 1 { return Ambiguous, []; }
        target := Some(Only(active));
      }
    }
    var m := target.value;
    if m !in store.db.missions { return CancelResult.NotFound(m), []; }
    if BeyondCancelling(store.db.missions[m].status) { return AlreadyTerminal(m), []; }
    steps := CancelMission(store, now, m);
    return CancelResult.Cancelled(m), steps;
  }

  lemma CancelTransition(db: Database, now: Time, m: Id)
    requires Inv(db) && m in db.missions && !BeyondCancelling(db.missions[m].status)
    ensures var r := Ops.TransitionMission(db, now, m, MissionStatus.Cancelled, User, None);
      && r.Ok? && m in r.value.missions && r.value.missions[m].status.Cancelled?
      && OnlyStatus(db.missions[m], r.value.missions[m]) && r.value.missions[m].revision == db.missions[m].revision + 1
      && r.value == db.(missions := db.missions[m := r.value.missions[m]], revisions := r.value.revisions)
  {
    hide Inv, Evolves;
    TransitionMissionOk(db, now, m, MissionStatus.Cancelled, User, None);
  }

  lemma StepsKeepOthers(a: Database, b: Database, c: Database, d: Database, m: Id)
    requires Inv(a) && m in b.missions && b == a.(missions := a.missions[m := b.missions[m]], revisions := b.revisions)
    requires c == b.(tasks := c.tasks) && TasksOutsideKept(b.tasks, c.tasks, m)
    requires d == c.(verifications := d.verifications, quality := d.quality) && RunsOutsideKept(c, d, m)
    requires AllAtRest(c.tasks, m)
    ensures OthersKept(a, d, m) && AllAtRest(d.tasks, m) && d.missions == b.missions
  {
    hide Inv;
  }
}
