/**
 The store itself: each operation runs its statements one by one inside a
 transaction that may be nested in another, and is proved to do to the tables
 exactly what MissionOps says, or to throw and roll everything back.
 */
module MissionStore {
  import opened Wrappers
  import opened MissionTables
  import opened MissionInvariant
  import opened MissionRuns
  import opened MissionRecovery
  import Ops = MissionOps

  // ----- one row at a time, for the loops -----

  /** Interrupting one more attempt extends the set of interrupted ones. */
  lemma OneMoreAttempt(db: Database, done: set<Id>, a: Id, terminalState: Text)
    requires AttemptsOk(db.tasks, db.attempts) && a in db.attempts && a !in done
    ensures var before, after := Ops.InterruptAttempts(db, done, terminalState), Ops.InterruptAttempts(db, done + {a}, terminalState);
      && a in before.attempts && before.attempts[a] == db.attempts[a] && db.attempts[a].task in before.tasks
      && after == before.(
           attempts := before.attempts[a := db.attempts[a].(status := AttemptStatus.Interrupted, terminalState := Some(terminalState))],
           tasks := before.tasks[db.attempts[a].task := Ops.InterruptedTask(before.tasks[db.attempts[a].task])])
  {
    var before, after := Ops.InterruptAttempts(db, done, terminalState), Ops.InterruptAttempts(db, done + {a}, terminalState);
    var t := db.attempts[a].task;
    assert Ops.TasksOf(db.attempts, done + {a}) == Ops.TasksOf(db.attempts, done) + {t};
    hide Ops.TasksOf, AttemptsOk;
    assert after.attempts == before.attempts[a := after.attempts[a]];
    assert after.tasks == before.tasks[t := Ops.InterruptedTask(before.tasks[t])];
  }

  /** No two running verifications are about one task, so each task is asked about its own. */
  lemma OneMoreRun(tasks: map<Id, Task>, attempts: map<Id, Attempt>, verifications: map<Id, VerificationRun>, done: set<Id>, v: Id, t: Id)
    requires VerificationsOk(tasks, attempts, verifications) && v !in done
    requires forall w | w in done + {v} :: w in verifications && verifications[w].status.Running?
    ensures Ops.RunAbout(verifications, done + {v}, t) ==
      if t == verifications[v].task then Some(v) else Ops.RunAbout(verifications, done, t)
    ensures t == verifications[v].task ==> Ops.RunAbout(verifications, done, t) == None
  {
    hide Ops.RunAbout;
    var before, after := Ops.RunAbout(verifications, done, t), Ops.RunAbout(verifications, done + {v}, t);
    assert v in done + {v};
    if before.Some? { assert before.value in done + {v}; }
    if after.Some? { assert after.value in done + {v}; }
  }

  lemma OneMoreReviewAsked(db: Database, done: set<Id>, v: Id)
    requires VerificationsOk(db.tasks, db.attempts, db.verifications) && db.quality.Keys == db.tasks.Keys && v !in done
    requires forall w | w in done + {v} :: w in db.verifications && db.verifications[w].status.Running?
    ensures v in db.verifications && db.verifications[v].task in db.quality
    ensures forall u | u in db.quality :: var t := db.verifications[v].task;
      && Ops.RunAbout(db.verifications, done + {v}, u) == (if u == t then Some(v) else Ops.RunAbout(db.verifications, done, u))
      && (u == t ==> Ops.RunAbout(db.verifications, done, u) == None)
  {
    hide Ops.RunAbout;
    assert v in done + {v};
    forall u | u in db.quality
      ensures Ops.RunAbout(db.verifications, done + {v}, u) ==
        if u == db.verifications[v].task then Some(v) else Ops.RunAbout(db.verifications, done, u)
      ensures u == db.verifications[v].task ==> Ops.RunAbout(db.verifications, done, u) == None
    {
      OneMoreRun(db.tasks, db.attempts, db.verifications, done, v, u);
    }
  }

  /** Interrupting one more verification. */
  lemma OneMoreVerification(db: Database, done: set<Id>, v: Id)
    requires VerificationsOk(db.tasks, db.attempts, db.verifications) && db.quality.Keys == db.tasks.Keys && v !in done
    requires forall w | w in done + {v} :: w in db.verifications && db.verifications[w].status.Running?
    ensures var before, after := Ops.InterruptVerifications(db, done), Ops.InterruptVerifications(db, done + {v});
      var run := db.verifications[v];
      && v in before.verifications && before.verifications[v] == run && run.task in before.quality
      && after == before.(
           verifications := before.verifications[v := run.(status := VerificationStatus.Interrupted)],
           quality := before.quality[run.task := Ops.AskReview(before.quality[run.task], v, run.round)])
  {
    hide VerificationsOk, Ops.RunAbout;
    var before, after := Ops.InterruptVerifications(db, done), Ops.InterruptVerifications(db, done + {v});
    OneMoreReviewAsked(db, done, v);
    var t := db.verifications[v].task;
    assert after.verifications == before.verifications[v := after.verifications[v]];
    assert after.quality == before.quality[t := Ops.AskReview(before.quality[t], v, db.verifications[v].round)];
  }

  lemma OneMoreRow(missions: map<Id, Mission>, now: Time, done: set<Id>, m: Id)
    requires m in missions && m !in done
    ensures Ops.ReviewRows(missions, now, done + {m}) == Ops.ReviewRows(missions, now, done)[m := Ops.SentToReview(missions[m], now)]
  {
    hide Ops.ReviewRows, Ops.SentToReview;
  }

  lemma OneMoreHistory(missions: map<Id, Mission>, revisions: map<RevisionKey, Mission>, now: Time, done: set<Id>, m: Id)
    requires m in missions && m !in done
    ensures revisions + Ops.ReviewRevisions(missions, now, done + {m}) ==
      (revisions + Ops.ReviewRevisions(missions, now, done))
        [RevisionKey(m, missions[m].revision + 1) := Ops.PlanInterrupted(missions[m], now)]
        [RevisionKey(m, missions[m].revision + 2) := Ops.SentToReview(missions[m], now)]
  {
    hide Ops.ReviewRevisions, Ops.PlanInterrupted, Ops.SentToReview, Ops.IsReviewKey;
    OneMoreReview(missions, now, done, m);
    AddTwo(revisions, Ops.ReviewRevisions(missions, now, done), RevisionKey(m, missions[m].revision + 1),
           Ops.PlanInterrupted(missions[m], now), RevisionKey(m, missions[m].revision + 2), Ops.SentToReview(missions[m], now));
  }

  /** Sending one more mission to review. */
  lemma OneMoreMission(db: Database, now: Time, done: set<Id>, m: Id)
    requires m in db.missions && m !in done
    ensures var before, after := Ops.ReviewMissions(db, now, done), Ops.ReviewMissions(db, now, done + {m});
      var row := db.missions[m];
      && m in before.missions && before.missions[m] == row
      && after == before.(
           missions := before.missions[m := Ops.SentToReview(row, now)],
           revisions := before.revisions[RevisionKey(m, row.revision + 1) := Ops.PlanInterrupted(row, now)]
                                        [RevisionKey(m, row.revision + 2) := Ops.SentToReview(row, now)])
  {
    hide Ops.ReviewRevisions, Ops.ReviewRows, Ops.PlanInterrupted, Ops.SentToReview, Ops.IsReviewKey;
    var rows, history := Ops.ReviewRows(db.missions, now, done + {m}), db.revisions + Ops.ReviewRevisions(db.missions, now, done + {m});
    OneMoreRow(db.missions, now, done, m);
    OneMoreHistory(db.missions, db.revisions, now, done, m);
    assert Ops.ReviewMissions(db, now, done + {m}) == Ops.ReviewMissions(db, now, done).(missions := rows, revisions := history);
  }

  lemma AddTwo<K, V>(a: map<K, V>, b: map<K, V>, k: K, v: V, l: K, w: V)
    ensures a + (b + map[k := v, l := w]) == (a + b)[k := v][l := w]
  {}

  /** What the two nested calls of recovery do to one affected mission. */
  lemma ReviewStep(db: Database, now: Time, done: set<Id>, m: Id)
    requires HistoryOk(db.missions, db.revisions) && m in db.missions && m !in done && Ops.Reviewable(db.missions[m].status)
    ensures var before := Ops.ReviewMissions(db, now, done);
      && m in before.missions && before.missions[m] == db.missions[m]
      && var planned := Ops.UpdateMission(before, now, m, Ops.NoPatch.(plan := Some(Ops.InterruptedPlan(db.missions[m].plan))), None);
      && planned.Ok?
      && Ops.TransitionMission(planned.value, now, m, AwaitingReview, System, None) ==
           if Ops.Stuck(db.missions[m].status) then Err(Validation) else Ok(Ops.ReviewMissions(db, now, done + {m}))
  {
    hide Ops.ReviewMissions, Ops.InterruptedPlan, Stored, TopIs, HistoryOk, Ops.IsReviewKey;
    OneMoreMission(db, now, done, m);
    FreshKeys(db, now, done, m);
    TwoSaves(Ops.ReviewMissions(db, now, done), now, m);
  }

  lemma TwoSaves(db: Database, now: Time, m: Id)
    requires m in db.missions && Ops.Reviewable(db.missions[m].status)
    requires RevisionKey(m, db.missions[m].revision + 1) !in db.revisions
    requires RevisionKey(m, db.missions[m].revision + 2) !in db.revisions
    ensures var row := db.missions[m];
      && var planned := Ops.UpdateMission(db, now, m, Ops.NoPatch.(plan := Some(Ops.InterruptedPlan(row.plan))), None);
      && planned.Ok?
      && Ops.TransitionMission(planned.value, now, m, AwaitingReview, System, None) ==
           if Ops.Stuck(row.status) then Err(Validation)
           else Ok(db.(
             missions := db.missions[m := Ops.SentToReview(row, now)],
             revisions := db.revisions[RevisionKey(m, row.revision + 1) := Ops.PlanInterrupted(row, now)]
                                      [RevisionKey(m, row.revision + 2) := Ops.SentToReview(row, now)]))
  {
    hide Ops.InterruptedPlan, Completable;
    var row := db.missions[m];
    var planned := Ops.PlanInterrupted(row, now);
    var first := db.(missions := db.missions[m := planned], revisions := db.revisions[RevisionKey(m, row.revision + 1) := planned]);
    assert Ops.UpdateMission(db, now, m, Ops.NoPatch.(plan := Some(Ops.InterruptedPlan(row.plan))), None) == Ok(first);
    assert first.missions[m := Ops.SentToReview(row, now)] == db.missions[m := Ops.SentToReview(row, now)];
  }

  lemma FreshKeys(db: Database, now: Time, done: set<Id>, m: Id)
    requires HistoryOk(db.missions, db.revisions) && m in db.missions && m !in done
    ensures RevisionKey(m, db.missions[m].revision + 1) !in Ops.ReviewMissions(db, now, done).revisions
    ensures RevisionKey(m, db.missions[m].revision + 2) !in Ops.ReviewMissions(db, now, done).revisions
  {
    hide Ops.ReviewRevisions, Stored, TopIs;
    var added := Ops.ReviewRevisions(db.missions, now, done);
    forall r: nat ensures RevisionKey(m, r) !in added {
      assert !Ops.IsReviewKey(db.missions, done, RevisionKey(m, r));
    }
  }

  lemma NoneReviewed(db: Database, now: Time)
    ensures Ops.ReviewMissions(db, now, {}) == db
  {
    hide Ops.ReviewRevisions;
    forall k ensures k !in Ops.ReviewRevisions(db.missions, now, {}) { assert !Ops.IsReviewKey(db.missions, {}, k); }
    assert Ops.ReviewMissions(db, now, {}).missions == db.missions;
    assert Ops.ReviewMissions(db, now, {}).revisions == db.revisions;
  }

  /** The verifications to interrupt do not depend on the attempts just interrupted. */
  lemma LapsedVerificationsKept(db: Database, runs: set<Id>, terminalState: Text, asOf: Time, owner: Option<Text>)
    ensures Ops.LapsedVerifications(Ops.InterruptAttempts(db, runs, terminalState), asOf, owner) == Ops.LapsedVerifications(db, asOf, owner)
    ensures forall m :: Ops.RunningVerifications(Ops.InterruptAttempts(db, runs, terminalState), m) == Ops.RunningVerifications(db, m)
  {
    hide Ops.TasksOf;
  }

  lemma OneMoreReview(missions: map<Id, Mission>, now: Time, done: set<Id>, m: Id)
    requires m in missions && m !in done
    ensures Ops.ReviewRevisions(missions, now, done + {m}) == Ops.ReviewRevisions(missions, now, done) +
      map[RevisionKey(m, missions[m].revision + 1) := Ops.PlanInterrupted(missions[m], now),
          RevisionKey(m, missions[m].revision + 2) := Ops.SentToReview(missions[m], now)]
  {
    hide Ops.ReviewRevisions, Ops.PlanInterrupted, Ops.SentToReview;
    var added := map[RevisionKey(m, missions[m].revision + 1) := Ops.PlanInterrupted(missions[m], now),
                     RevisionKey(m, missions[m].revision + 2) := Ops.SentToReview(missions[m], now)];
    var before, after := Ops.ReviewRevisions(missions, now, done), Ops.ReviewRevisions(missions, now, done + {m});
    forall k ensures (k in after <==> k in before || k in added) && (k in after ==> after[k] == (before + added)[k]) {
      assert k in after <==> Ops.IsReviewKey(missions, done + {m}, k);
      assert k in before <==> Ops.IsReviewKey(missions, done, k);
    }
  }

  class SQLiteMissionStore {
    var db: Database
    /** What ROLLBACK brings back while a transaction is open. */
    var saved: Database
    var transactionDepth: nat

    constructor ()
      ensures db == EmptyDatabase && transactionDepth == 0 && Inv(db)
    {
      db, saved, transactionDepth := EmptyDatabase, EmptyDatabase, 0;
      new;
      EmptyInv();
    }

    predicate Ready()
      reads this
    {
      transactionDepth <= 1
    }

    /**
     The contract of every operation. A call either makes the tables what the
     specification says, or throws its error; thrown out of the outermost
     transaction, the tables are as before. A nested call leaves the rollback
     image of the outer transaction alone.
     */
    twostate predicate Did(result: Result<Database>, new thrown: Option<Error>)
      reads this
    {
      && transactionDepth == old(transactionDepth)
      && (old(transactionDepth) == 1 ==> saved == old(saved))
      && match result
         case Ok(next) => thrown.None? && db == next
         case Err(error) => thrown == Some(error) && (old(transactionDepth) == 0 ==> db == old(db))
    }

    method Begin() returns (outermost: bool)
      requires Ready()
      modifies this
      ensures outermost <==> old(transactionDepth) == 0
      ensures transactionDepth == 1 && db == old(db)
      ensures saved == if outermost then old(db) else old(saved)
    {
      outermost := transactionDepth == 0;
      if outermost {
        saved := db;
        transactionDepth := 1;
      }
    }

    /** COMMIT, or ROLLBACK when the transaction's function threw; only the outermost call does either. */
    method End(outermost: bool, thrown: Option<Error>)
      requires transactionDepth == 1
      modifies this
      ensures transactionDepth == if outermost then 0 else 1
      ensures saved == old(saved)
      ensures db == if outermost && thrown.Some? then saved else old(db)
    {
      if outermost {
        if thrown.Some? { db := saved; }
        transactionDepth := 0;
      }
    }

    // ----- missions -----

    /** The row update and the snapshot insert every mission write ends with. */
    method SaveRevision(m: Id, row: Mission) returns (thrown: Option<Error>)
      modifies this`db
      ensures match Ops.SaveRevision(old(db), m, row)
              case Ok(next) => thrown.None? && db == next
              case Err(error) => thrown == Some(error)
    {
      db := db.(missions := db.missions[m := row]);
      if RevisionKey(m, row.revision) in db.revisions { return Some(Constraint); }
      db := db.(revisions := db.revisions[RevisionKey(m, row.revision) := row]);
      return None;
    }

    method CreateMission(now: Time, m: Id, draft: Ops.MissionDraft) returns (thrown: Option<Error>)
      requires Ready()
      modifies this
      ensures Did(Ops.CreateMission(old(db), now, m, draft), thrown)
    {
      if !draft.fieldsOk { return Some(Validation); }
      var outermost := Begin();
      if m in db.missions {
        thrown := Some(Validation);
      } else {
        thrown := SaveRevision(m, Ops.NewMission(now, draft));
      }
      End(outermost, thrown);
    }

    method UpdateMission(now: Time, m: Id, patch: Ops.MissionPatch, expected: Option<nat>) returns (thrown: Option<Error>)
      requires Ready()
      modifies this
      ensures Did(Ops.UpdateMission(old(db), now, m, patch, expected), thrown)
    {
      var outermost := Begin();
      if m !in db.missions {
        thrown := Some(NotFound);
      } else if !Ops.Expects(expected, db.missions[m].revision) {
        thrown := Some(Conflict);
      } else {
        thrown := SaveRevision(m, Ops.Patch(db.missions[m], now, patch));
      }
      End(outermost, thrown);
    }

    /** The loop over the active tasks that completion must pass. */
    method AssertMissionCompletable(m: Id) returns (ok: bool)
      ensures ok <==> Completable(db, m)
    {
      var active := ActiveTasks(db.tasks, m);
      if active == {} { return false; }
      var todo := active;
      while todo != {}
        invariant todo <= active
        invariant forall t | t in active - todo ::
          db.tasks[t].status.ExecutionCompleted? && t in db.quality && db.quality[t].mission == m &&
          db.quality[t].status.Passed? && db.quality[t].decision.Some?
        decreases todo
      {
        var t :| t in todo;
        if !db.tasks[t].status.ExecutionCompleted? { return false; }
        if t !in db.quality || db.quality[t].mission != m || !db.quality[t].status.Passed? || db.quality[t].decision.None? {
          return false;
        }
        todo := todo - {t};
      }
      return true;
    }

    method TransitionMission(now: Time, m: Id, status: MissionStatus, actor: Actor, expected: Option<nat>) returns (thrown: Option<Error>)
      requires Ready()
      modifies this
      ensures Did(Ops.TransitionMission(old(db), now, m, status, actor, expected), thrown)
    {
      hide Completable;
      var outermost := Begin();
      if m !in db.missions {
        thrown := Some(NotFound);
      } else if !Ops.Expects(expected, db.missions[m].revision) {
        thrown := Some(Conflict);
      } else if status.Completed? && !actor.Boss? {
        thrown := Some(Unauthorized);
      } else {
        var completable := true;
        if status.Completed? { completable := AssertMissionCompletable(m); }
        if !completable || db.missions[m].status == status || !CanTransition(db.missions[m].status, status) {
          thrown := Some(Validation);
        } else {
          thrown := SaveRevision(m, Ops.Enter(db.missions[m], now, status));
        }
      }
      End(outermost, thrown);
    }

    // ----- tasks and attempts -----

    method CreateTask(now: Time, t: Id, draft: Ops.TaskDraft) returns (thrown: Option<Error>)
      requires Ready()
      modifies this
      ensures Did(Ops.CreateTask(old(db), now, t, draft), thrown)
    {
      if draft.mission !in db.missions { return Some(NotFound); }
      var revision := db.missions[draft.mission].revision;
      var outermost := Begin();
      if t in db.tasks || !draft.fieldsOk {
        thrown := Some(Validation);
      } else {
        db := db.(tasks := db.tasks[t :=
          Task(draft.mission, revision, draft.executionClass, draft.objectiveKey, draft.status, None, 0, now)]);
        db := db.(quality := db.quality[t := Quality(draft.mission, Unverified, 0, None, None)]);
        thrown := None;
      }
      End(outermost, thrown);
    }

    method SaveTaskPacket(t: Id, expected: Option<nat>, packetOk: bool) returns (thrown: Option<Error>)
      requires Ready()
      modifies this
      ensures Did(Ops.SaveTaskPacket(old(db), t, expected, packetOk), thrown)
    {
      var outermost := Begin();
      if t !in db.tasks {
        thrown := Some(NotFound);
      } else {
        var current := db.tasks[t];
        if !Ops.Expects(expected, current.revision) {
          thrown := Some(Conflict);
        } else if !packetOk {
          thrown := Some(Validation);
        } else {
          db := db.(tasks := db.tasks[t := current.(packetRevision := current.packetRevision + 1, revision := current.revision + 1)]);
          thrown := None;
        }
      }
      End(outermost, thrown);
    }

    method SetTask(t: Id, status: TaskStatus, expected: Option<nat>) returns (thrown: Option<Error>)
      requires Ready()
      modifies this
      ensures Did(Ops.SetTask(old(db), t, status, expected), thrown)
    {
      var outermost := Begin();
      if t !in db.tasks {
        thrown := Some(NotFound);
      } else if !Ops.Expects(expected, db.tasks[t].revision) {
        thrown := Some(Conflict);
      } else {
        db := db.(tasks := db.tasks[t := db.tasks[t].(status := status, revision := db.tasks[t].revision + 1)]);
        thrown := None;
      }
      End(outermost, thrown);
    }

    method StartTask(t: Id, expected: Option<nat>) returns (thrown: Option<Error>)
      requires Ready()
      modifies this
      ensures Did(Ops.StartTask(old(db), t, expected), thrown)
    {
      if t !in db.tasks { return Some(NotFound); }
      if !Ops.Runnable(db.tasks[t].status) { return Some(Validation); }
      thrown := SetTask(t, TaskStatus.Running, expected);
    }

    method FinishTask(t: Id, status: FinishedTaskStatus, expected: Option<nat>) returns (thrown: Option<Error>)
      requires Ready()
      modifies this
      ensures Did(Ops.SetTask(old(db), t, status, expected), thrown)
    {
      thrown := SetTask(t, status, expected);
    }

    method CreateAttempt(now: Time, a: Id, draft: Ops.AttemptDraft) returns (thrown: Option<Error>)
      requires Ready()
      modifies this
      ensures Did(Ops.CreateAttempt(old(db), now, a, draft), thrown)
    {
      var outermost := Begin();
      var t := draft.task;
      if t !in db.tasks {
        thrown := Some(NotFound);
      } else {
        var task := db.tasks[t];
        var leased := !LeaseLapsed(db, task.mission, now);
        if leased && (!Ops.Named(draft.leaseOwner) || db.leases[task.mission].owner != draft.leaseOwner.value) {
          thrown := Some(LeaseError);
        } else if Ops.HasRunningAttempt(db.attempts, t) || draft.ttl <= 0 {
          thrown := Some(LeaseError);
        } else if a in db.attempts {
          thrown := Some(Validation);
        } else {
          var expires := if Ops.Named(draft.leaseOwner) then Some(now + draft.ttl) else None;
          db := db.(tasks := db.tasks[t := task.(status := TaskStatus.Running, lastRun := Some(a), revision := task.revision + 1)]);
          db := db.(attempts := db.attempts[a :=
            Attempt(t, task.mission, AttemptStatus.Running, draft.leaseOwner, expires, None)]);
          if task.executionClass.Implementation? {
            db := db.(quality := db.quality[t := Quality(task.mission, Unverified, 0, None, None)]);
          }
          thrown := None;
        }
      }
      End(outermost, thrown);
    }

    method FinishAttempt(a: Id, status: FinishedAttemptStatus, terminalState: Option<Text>) returns (thrown: Option<Error>)
      requires Ready()
      modifies this
      ensures Did(Ops.FinishAttempt(old(db), a, status, terminalState), thrown)
    {
      var outermost := Begin();
      if a !in db.attempts {
        thrown := Some(NotFound);
      } else if !db.attempts[a].status.Running? {
        thrown := Some(Validation);
      } else {
        var current := db.attempts[a];
        db := db.(attempts := db.attempts[a := current.(status := status, terminalState := terminalState)]);
        db := db.(tasks := Ops.SetStatus(db.tasks, current.task, Ops.TaskStatusAfter(status)));
        thrown := None;
      }
      End(outermost, thrown);
    }

    // ----- verification, decisions and quality -----

    method CreateVerificationRun(v: Id, draft: Ops.VerificationDraft) returns (thrown: Option<Error>)
      requires Ready()
      modifies this
      ensures Did(Ops.CreateVerificationRun(old(db), v, draft), thrown)
    {
      var outermost := Begin();
      if draft.mission !in db.missions || draft.task !in db.tasks {
        thrown := Some(NotFound);
      } else if db.tasks[draft.task].mission != draft.mission {
        thrown := Some(Validation);
      } else if draft.target !in db.attempts {
        thrown := Some(NotFound);
      } else {
        var target := db.attempts[draft.target];
        if target.mission != draft.mission || target.task != draft.task || !target.status.Succeeded? ||
           draft.round < 0 || v in db.verifications || Ops.HasRunningVerification(db.verifications, draft.mission, draft.task) {
          thrown := Some(Validation);
        } else {
          db := db.(verifications := db.verifications[v :=
            VerificationRun(draft.mission, draft.task, draft.target, draft.round, VerificationStatus.Running, None)]);
          thrown := None;
        }
      }
      End(outermost, thrown);
    }

    method UpdateVerificationRun(v: Id, patch: Ops.VerificationPatch) returns (thrown: Option<Error>)
      requires Ready()
      modifies this
      ensures Did(Ops.UpdateVerificationRun(old(db), v, patch), thrown)
    {
      var outermost := Begin();
      if v !in db.verifications {
        thrown := Some(NotFound);
      } else {
        var current := db.verifications[v];
        var status := patch.status.GetOr(current.status);
        var decision := if patch.decision.Some? then patch.decision else current.decision;
        var round := patch.round.GetOr(current.round);
        if (patch.mission.Some? && patch.mission.value != current.mission) || (patch.task.Some? && patch.task.value != current.task) ||
           (patch.target.Some? && patch.target.value != current.target) || (!current.status.Running? && status != current.status) ||
           (status.Completed? && decision.None?) || round < 0 {
          thrown := Some(Validation);
        } else {
          db := db.(verifications := db.verifications[v := current.(round := round, status := status, decision := decision)]);
          thrown := None;
        }
      }
      End(outermost, thrown);
    }

    method RecordQualityDecision(now: Time, d: Id, draft: Ops.DecisionDraft) returns (thrown: Option<Error>)
      requires Ready()
      modifies this
      ensures Did(Ops.RecordQualityDecision(old(db), now, d, draft), thrown)
    {
      hide Ops.HasDecision;
      var outermost := Begin();
      if draft.mission !in db.missions || draft.task !in db.tasks {
        thrown := Some(NotFound);
      } else if db.tasks[draft.task].mission != draft.mission {
        thrown := Some(Validation);
      } else if draft.verification !in db.verifications {
        thrown := Some(NotFound);
      } else {
        var run := db.verifications[draft.verification];
        if run.mission != draft.mission || run.task != draft.task || run.target != draft.target || !run.status.Running? ||
           Ops.HasDecision(db.decisions, draft.verification) || draft.round != run.round || d in db.decisions || !draft.fieldsOk {
          thrown := Some(Validation);
        } else {
          db := db.(decisions := db.decisions[d := Decision(draft.mission, draft.task, draft.verification, draft.target,
                                                            draft.round, draft.verdict, draft.detail, now)]);
          db := db.(verifications := db.verifications[draft.verification := run.(decision := Some(d))]);
          thrown := None;
        }
      }
      End(outermost, thrown);
    }

    method SetTaskQualityStatus(q: Ops.QualityInput) returns (thrown: Option<Error>)
      requires Ready()
      modifies this
      ensures Did(Ops.SetTaskQualityStatus(old(db), q), thrown)
    {
      hide Ops.Backed;
      var outermost := Begin();
      if q.mission !in db.missions || q.task !in db.tasks || db.tasks[q.task].mission != q.mission {
        thrown := Some(NotFound);
      } else if q.round < 0 {
        thrown := Some(Validation);
      } else if q.verification.Some? && (q.verification.value !in db.verifications ||
                db.verifications[q.verification.value].mission != q.mission || db.verifications[q.verification.value].task != q.task) {
        thrown := Some(Validation);
      } else if q.decision.Some? && (q.decision.value !in db.decisions ||
                db.decisions[q.decision.value].mission != q.mission || db.decisions[q.decision.value].task != q.task) {
        thrown := Some(Validation);
      } else if q.decision.Some? && q.verification.Some? && db.decisions[q.decision.value].verification != q.verification.value {
        thrown := Some(Validation);
      } else if !Ops.Backed(db, q) {
        thrown := Some(Validation);
      } else {
        db := db.(quality := db.quality[q.task := Quality(q.mission, q.status, q.round, q.verification, q.decision)]);
        thrown := None;
      }
      End(outermost, thrown);
    }

    /** Three nested transactions that commit or roll back as one. */
    method FinalizeQualityVerification(now: Time, v: Id, d: Id, draft: Ops.DecisionDraft) returns (thrown: Option<Error>)
      requires Ready()
      modifies this
      ensures Did(Ops.FinalizeQualityVerification(old(db), now, v, d, draft), thrown)
    {
      hide Ops.RecordQualityDecision, Ops.SetTaskQualityStatus;
      var outermost := Begin();
      thrown := RecordQualityDecision(now, d, draft);
      if thrown.None? {
        thrown := UpdateVerificationRun(v, Ops.CompletionPatch(d));
        if thrown.None? {
          var run := db.verifications[v];
          thrown := SetTaskQualityStatus(
            Ops.QualityInput(run.mission, run.task, Ops.StatusFor(draft.verdict), run.round, Some(v), Some(d)));
        }
      }
      End(outermost, thrown);
    }

    method FinalizeQualityFailure(v: Id, review: bool) returns (thrown: Option<Error>)
      requires Ready()
      modifies this
      ensures Did(Ops.FinalizeQualityFailure(old(db), v, review), thrown)
    {
      hide Ops.SetTaskQualityStatus;
      var outermost := Begin();
      if v !in db.verifications {
        thrown := Some(NotFound);
      } else if !db.verifications[v].status.Running? {
        thrown := None;
      } else {
        thrown := UpdateVerificationRun(v, Ops.FailurePatch(review));
        if thrown.None? {
          var run := db.verifications[v];
          thrown := SetTaskQualityStatus(Ops.QualityInput(run.mission, run.task,
            if review then ReviewRequired else QualityStatus.Blocked, run.round, Some(v), None));
        }
      }
      End(outermost, thrown);
    }

    // ----- evidence -----

    method AdmitEvidence(now: Time, e: Id, draft: Ops.EvidenceDraft) returns (thrown: Option<Error>)
      requires Ready()
      modifies this
      ensures Did(Ops.AdmitEvidence(old(db), now, e, draft), thrown)
    {
      var outermost := Begin();
      if draft.mission !in db.missions {
        thrown := Some(NotFound);
      } else if draft.task.Some? && (draft.task.value !in db.tasks || db.tasks[draft.task.value].mission != draft.mission) {
        thrown := Some(Validation);
      } else if draft.attempt.Some? && draft.attempt.value !in db.attempts {
        thrown := Some(NotFound);
      } else if draft.attempt.Some? && (db.attempts[draft.attempt.value].mission != draft.mission ||
                (draft.task.Some? && db.attempts[draft.attempt.value].task != draft.task.value)) {
        thrown := Some(Validation);
      } else if e in db.evidence || !draft.fieldsOk {
        thrown := Some(Validation);
      } else {
        var linked := draft.task;
        if linked.None? && draft.attempt.Some? { linked := Some(db.attempts[draft.attempt.value].task); }
        db := db.(evidence := db.evidence[e :=
          Evidence(draft.mission, linked, draft.kind, Proposed, draft.content, draft.sourceRevision, now)]);
        thrown := None;
      }
      End(outermost, thrown);
    }

    /** Outdated evidence is marked stale in a transaction of its own, which commits before the call throws. */
    method PromoteEvidence(now: Time, e: Id, itemId: Id, options: Ops.PromoteOptions) returns (thrown: Option<Error>)
      requires transactionDepth == 0
      modifies this
      ensures transactionDepth == 0
      ensures Ops.Reply(db, thrown) == Ops.PromoteEvidence(old(db), now, e, itemId, options)
    {
      if e !in db.evidence || db.evidence[e].mission !in db.missions { return Some(NotFound); }
      if !db.evidence[e].status.Proposed? { return Some(EvidenceError); }
      var m := db.evidence[e].mission;
      if Ops.Outdated(db.evidence[e], db.missions[m]) {
        var outermost := Begin();
        db := db.(evidence := db.evidence[e := db.evidence[e].(status := Stale)]);
        End(outermost, None);
        return Some(Conflict);
      }
      var outermost := Begin();
      if !Ops.Expects(options.expected, db.missions[m].revision) {
        thrown := Some(Conflict);
      } else {
        var evidence := db.evidence[e];
        var item := CanonicalItem(itemId, options.kind.GetOr(evidence.kind), evidence.content, e, now);
        var row := Ops.AppendItem(db.missions[m], now, options.target, item);
        db := db.(evidence := db.evidence[e := evidence.(status := Accepted)]);
        if itemId in db.items {
          thrown := Some(Constraint);
        } else {
          db := db.(items := db.items[itemId := ItemRow(m, row.revision, item)]);
          thrown := SaveRevision(m, row);
        }
      }
      End(outermost, thrown);
    }

    method RejectEvidence(e: Id, reasonOk: bool) returns (thrown: Option<Error>)
      requires Ready()
      modifies this
      ensures Did(Ops.RejectEvidence(old(db), e, reasonOk), thrown)
    {
      var outermost := Begin();
      if e !in db.evidence {
        thrown := Some(NotFound);
      } else if !db.evidence[e].status.Proposed? {
        thrown := Some(EvidenceError);
      } else if db.evidence[e].mission !in db.missions {
        thrown := Some(NotFound);
      } else if !reasonOk {
        thrown := Some(Validation);
      } else {
        db := db.(evidence := db.evidence[e := db.evidence[e].(status := EvidenceStatus.Rejected)]);
        thrown := None;
      }
      End(outermost, thrown);
    }

    // ----- leases -----

    method AcquireLease(now: Time, m: Id, owner: Text, ttl: int) returns (thrown: Option<Error>)
      requires Ready()
      modifies this
      ensures Did(Ops.AcquireLease(old(db), now, m, owner, ttl), thrown)
    {
      hide Blank;
      var outermost := Begin();
      if m !in db.missions {
        thrown := Some(NotFound);
      } else if Blank(owner) || ttl <= 0 {
        thrown := Some(LeaseError);
      } else {
        var exists_ := m in db.leases;
        var wasActive := exists_ && db.leases[m].expiresAt > now;
        if wasActive && db.leases[m].owner != owner {
          thrown := Some(LeaseError);
        } else {
          var recoveredFrom: Option<Text> := None;
          if exists_ && db.leases[m].owner != "" && db.leases[m].owner != owner { recoveredFrom := Some(db.leases[m].owner); }
          var acquiredAt := now;
          if exists_ && db.leases[m].owner == owner { acquiredAt := db.leases[m].acquiredAt; }
          db := db.(leases := db.leases[m := Lease(owner, acquiredAt, now, now + ttl, recoveredFrom)]);
          thrown := None;
        }
      }
      End(outermost, thrown);
    }

    method HeartbeatLease(now: Time, later: Time, m: Id, owner: Text, ttl: int) returns (thrown: Option<Error>)
      requires Ready()
      modifies this
      ensures Did(Ops.HeartbeatLease(old(db), now, later, m, owner, ttl), thrown)
    {
      var outermost := Begin();
      if m !in db.leases || db.leases[m].owner != owner || db.leases[m].expiresAt <= now || ttl <= 0 {
        thrown := Some(LeaseError);
      } else {
        var existing := db.leases[m];
        if existing.expiresAt > later {
          db := db.(leases := db.leases[m := existing.(heartbeatAt := later, expiresAt := later + ttl)]);
        }
        thrown := None;
      }
      End(outermost, thrown);
    }

    method ReleaseLease(m: Id, owner: Text) returns (thrown: Option<Error>)
      requires Ready()
      modifies this
      ensures Did(Ops.ReleaseLease(old(db), m, owner), thrown)
    {
      var outermost := Begin();
      thrown := None;
      if m in db.leases {
        if db.leases[m].owner != owner {
          thrown := Some(LeaseError);
        } else {
          db := db.(leases := db.leases - {m});
        }
      }
      End(outermost, thrown);
    }

    /** The chain of nested transitions a claim makes; the first refusal ends it. */
    method FollowPath(now: Time, m: Id, path: seq<MissionStatus>) returns (thrown: Option<Error>)
      requires transactionDepth == 1
      modifies this
      ensures Did(Ops.Follow(old(db), now, m, path), thrown)
    {
      hide Ops.TransitionMission;
      var i := 0;
      thrown := None;
      while i < |path| && thrown.None?
        invariant 0 <= i <= |path| && transactionDepth == 1 && saved == old(saved)
        invariant thrown.None? ==> Ops.Follow(old(db), now, m, path) == Ops.Follow(db, now, m, path[i..])
        invariant thrown.Some? ==> Ops.Follow(old(db), now, m, path) == Err(thrown.value)
        decreases |path| - i, if thrown.None? then 1 else 0
      {
        assert path[i..][0] == path[i] && path[i..][1..] == path[i + 1..];
        thrown := TransitionMission(now, m, path[i], System, None);
        i := i + 1;
      }
    }

    method ClaimMissionExecution(now: Time, m: Id, owner: Text, ttl: int) returns (thrown: Option<Error>)
      requires Ready()
      modifies this
      ensures Did(Ops.ClaimMissionExecution(old(db), now, m, owner, ttl), thrown)
    {
      hide Ops.Follow, Ops.AcquireLease;
      var outermost := Begin();
      if m !in db.missions {
        thrown := Some(NotFound);
      } else {
        var status := db.missions[m].status;
        if status.Completed? || status.Cancelled? || status.Failed? {
          thrown := Some(Conflict);
        } else {
          thrown := AcquireLease(now, m, owner, ttl);
          if thrown.None? { thrown := FollowPath(now, m, Ops.ClaimPath(status)); }
        }
      }
      End(outermost, thrown);
    }

    // ----- interruption and recovery -----

    method InterruptAttemptRows(runs: set<Id>, terminalState: Text)
      requires AttemptsOk(db.tasks, db.attempts) && runs <= db.attempts.Keys
      modifies this`db
      ensures db == Ops.InterruptAttempts(old(db), runs, terminalState)
    {
      hide AttemptsOk, Ops.InterruptAttempts;
      var todo := runs;
      ghost var done: set<Id> := {};
      NothingInterrupted(db, terminalState);
      while todo != {}
        invariant done !! todo && done + todo == runs
        invariant db == Ops.InterruptAttempts(old(db), done, terminalState)
        decreases todo
      {
        var a :| a in todo;
        OneMoreAttempt(old(db), done, a, terminalState);
        var current := db.attempts[a];
        db := db.(attempts := db.attempts[a := current.(status := AttemptStatus.Interrupted, terminalState := Some(terminalState))]);
        db := db.(tasks := db.tasks[current.task := Ops.InterruptedTask(db.tasks[current.task])]);
        todo := todo - {a};
        done := done + {a};
      }
      assert done == runs;
    }

    method InterruptVerificationRows(runs: set<Id>)
      requires VerificationsOk(db.tasks, db.attempts, db.verifications) && db.quality.Keys == db.tasks.Keys
      requires forall v | v in runs :: v in db.verifications && db.verifications[v].status.Running?
      modifies this`db
      ensures db == Ops.InterruptVerifications(old(db), runs)
    {
      hide VerificationsOk, Ops.InterruptVerifications;
      var todo := runs;
      ghost var done: set<Id> := {};
      NoVerificationInterrupted(db);
      while todo != {}
        invariant done !! todo && done + todo == runs
        invariant db == Ops.InterruptVerifications(old(db), done)
        decreases todo
      {
        var v :| v in todo;
        OneMoreVerification(old(db), done, v);
        var row := db.verifications[v];
        db := db.(verifications := db.verifications[v := row.(status := VerificationStatus.Interrupted)]);
        db := db.(quality := db.quality[row.task :=
          Ops.AskReview(db.quality[row.task], v, row.round)]);
        todo := todo - {v};
        done := done + {v};
      }
      assert done == runs;
    }

    /** Send every affected mission back for review; one that may not go there ends the loop with its error. */
    method ReviewRows(now: Time, affected: set<Id>) returns (thrown: Option<Error>)
      requires transactionDepth == 1 && HistoryOk(db.missions, db.revisions) && affected <= db.missions.Keys
      modifies this
      ensures transactionDepth == 1 && saved == old(saved)
      ensures if exists m | m in affected :: Ops.Stuck(old(db).missions[m].status)
              then thrown == Some(Validation)
              else thrown.None? && db == Ops.ReviewMissions(old(db), now, Ops.ReviewedMissions(old(db), affected))
    {
      hide HistoryOk, Ops.ReviewMissions, Ops.UpdateMission, Ops.TransitionMission, Ops.InterruptedPlan;
      assert HistoryOk(old(db).missions, old(db).revisions);
      var todo := affected;
      ghost var done: set<Id> := {};
      thrown := None;
      NoneReviewed(db, now);
      assert Ops.ReviewedMissions(db, {}) == {};
      while todo != {}
        invariant done !! todo && done + todo == affected && transactionDepth == 1 && saved == old(saved) && thrown.None?
        invariant forall m | m in done :: !Ops.Stuck(old(db).missions[m].status)
        invariant db == Ops.ReviewMissions(old(db), now, Ops.ReviewedMissions(old(db), done))
        decreases todo
      {
        var m :| m in todo;
        RowUntouched(old(db), now, Ops.ReviewedMissions(old(db), done), m);
        if Ops.Reviewable(db.missions[m].status) {
          ReviewStep(old(db), now, Ops.ReviewedMissions(old(db), done), m);
          thrown := UpdateMission(now, m, Ops.NoPatch.(plan := Some(Ops.InterruptedPlan(db.missions[m].plan))), None);
          if thrown.None? { thrown := TransitionMission(now, m, AwaitingReview, System, None); }
          if thrown.Some? {
            assert Ops.Stuck(old(db).missions[m].status) && m in affected;
            return;
          }
        }
        assert Ops.ReviewedMissions(old(db), done + {m}) ==
          if Ops.Reviewable(old(db).missions[m].status) then Ops.ReviewedMissions(old(db), done) + {m} else Ops.ReviewedMissions(old(db), done);
        todo := todo - {m};
        done := done + {m};
      }
      assert done == affected;
    }

    method RecoverInterrupted(now: Time, asOf: Option<Time>, owner: Option<Text>) returns (thrown: Option<Error>)
      requires Ready() && Inv(db)
      modifies this
      ensures Did(Ops.RecoverInterrupted(old(db), now, asOf, owner), thrown)
    {
      hide HistoryOk, TasksOk, AttemptsOk, VerificationsOk, DecisionsOk, QualityOk, EvidenceOk, LeasesOk, Evolves,
           Ops.InterruptAttempts, Ops.InterruptVerifications, Ops.ReviewMissions, Ops.LapsedAttempts, Ops.LapsedVerifications;
      var outermost := Begin();
      var time := asOf.GetOr(now);
      var attempts := Ops.LapsedAttempts(db, time, owner);
      LapsedAreRunning(db, time, owner);
      InterruptAttemptsOk(db, attempts, "recovered_interrupted");
      LapsedVerificationsKept(db, attempts, "recovered_interrupted", time, owner);
      InterruptAttemptRows(attempts, "recovered_interrupted");
      var verifications := Ops.LapsedVerifications(db, time, owner);
      LapsedAreRunning(db, time, owner);
      SameKeys(db);
      InterruptVerificationsOk(db, verifications);
      InterruptVerificationRows(verifications);
      var affected := Ops.AffectedMissions(db, attempts, verifications);
      AffectedKept(old(db), attempts, verifications, "recovered_interrupted");
      AffectedExist(old(db), attempts, verifications);
      assert Ops.ReviewedMissions(db, affected) == Ops.ReviewedMissions(old(db), affected);
      thrown := ReviewRows(now, affected);
      End(outermost, thrown);
    }

    method InterruptOwnedExecution(now: Time, asOf: Option<Time>, m: Id, owner: Text) returns (thrown: Option<Error>)
      requires Ready() && Inv(db)
      modifies this
      ensures Did(Ops.InterruptOwnedExecution(old(db), now, asOf, m, owner), thrown)
    {
      hide HistoryOk, TasksOk, AttemptsOk, VerificationsOk, DecisionsOk, QualityOk, EvidenceOk, LeasesOk, Evolves,
           Ops.InterruptAttempts, Ops.InterruptVerifications, Ops.TransitionMission, Ops.OwnedAttempts, Ops.RunningVerifications;
      var outermost := Begin();
      if m !in db.leases || db.leases[m].owner != owner || db.leases[m].expiresAt <= asOf.GetOr(now) {
        thrown := Some(LeaseError);
      } else {
        var attempts := Ops.OwnedAttempts(db, m, owner);
        OwnedAreRunning(db, m, owner);
        InterruptAttemptsOk(db, attempts, "interrupted_shutdown");
        LapsedVerificationsKept(db, attempts, "interrupted_shutdown", 0, None);
        InterruptAttemptRows(attempts, "interrupted_shutdown");
        var verifications := Ops.RunningVerifications(db, m);
        OwnedAreRunning(db, m, owner);
        SameKeys(db);
        InterruptVerificationRows(verifications);
        if m !in db.missions {
          thrown := Some(NotFound);
        } else {
          thrown := None;
          if Ops.Reviewable(db.missions[m].status) {
            thrown := TransitionMission(now, m, AwaitingReview, System, None);
          }
          if thrown.None? {
            db := db.(leases := db.leases - {m});
          }
        }
      }
      End(outermost, thrown);
    }

    /** One call made from outside any transaction. */
    method Execute(now: Time, op: Ops.Op) returns (thrown: Option<Error>)
      requires transactionDepth == 0 && Inv(db)
      modifies this
      ensures transactionDepth == 0 && Ops.Reply(db, thrown) == Ops.Apply(old(db), now, op)
    {
      hide Inv, Ops.CreateMission, Ops.UpdateMission, Ops.TransitionMission, Ops.CreateTask, Ops.SaveTaskPacket, Ops.SetTask, Ops.StartTask,
           Ops.CreateAttempt, Ops.FinishAttempt, Ops.CreateVerificationRun, Ops.UpdateVerificationRun, Ops.RecordQualityDecision,
           Ops.FinalizeQualityVerification, Ops.FinalizeQualityFailure, Ops.SetTaskQualityStatus, Ops.AdmitEvidence,
           Ops.PromoteEvidence, Ops.RejectEvidence, Ops.AcquireLease, Ops.HeartbeatLease, Ops.ReleaseLease,
           Ops.ClaimMissionExecution, Ops.InterruptOwnedExecution, Ops.RecoverInterrupted;
      match op
      case OpCreateMission(m, draft) => thrown := CreateMission(now, m, draft);
      case OpUpdateMission(m, patch, expected) => thrown := UpdateMission(now, m, patch, expected);
      case OpTransitionMission(m, status, actor, expected) => thrown := TransitionMission(now, m, status, actor, expected);
      case OpCreateTask(t, draft) => thrown := CreateTask(now, t, draft);
      case OpSaveTaskPacket(t, expected, packetOk) => thrown := SaveTaskPacket(t, expected, packetOk);
      case OpStartTask(t, expected) => thrown := StartTask(t, expected);
      case OpFinishTask(t, status, expected) => thrown := FinishTask(t, status, expected);
      case OpCreateAttempt(a, draft) => thrown := CreateAttempt(now, a, draft);
      case OpFinishAttempt(a, status, terminalState) => thrown := FinishAttempt(a, status, terminalState);
      case OpCreateVerification(v, draft) => thrown := CreateVerificationRun(v, draft);
      case OpUpdateVerification(v, patch) => thrown := UpdateVerificationRun(v, patch);
      case OpRecordDecision(d, draft) => thrown := RecordQualityDecision(now, d, draft);
      case OpFinalize(v, d, draft) => thrown := FinalizeQualityVerification(now, v, d, draft);
      case OpFinalizeFailure(v, review) => thrown := FinalizeQualityFailure(v, review);
      case OpSetQuality(q) => thrown := SetTaskQualityStatus(q);
      case _ => thrown := ExecuteOnEvidenceOrLease(now, op);
    }

    predicate OnEvidenceOrLease(op: Ops.Op) {
      op.OpAdmitEvidence? || op.OpPromote? || op.OpRejectEvidence? || op.OpAcquire? || op.OpHeartbeat? || op.OpRelease? ||
      op.OpClaim? || op.OpInterrupt? || op.OpRecover?
    }

    method ExecuteOnEvidenceOrLease(now: Time, op: Ops.Op) returns (thrown: Option<Error>)
      requires transactionDepth == 0 && Inv(db) && OnEvidenceOrLease(op)
      modifies this
      ensures transactionDepth == 0 && Ops.Reply(db, thrown) == Ops.Apply(old(db), now, op)
    {
      hide Inv, Ops.CreateMission, Ops.UpdateMission, Ops.TransitionMission, Ops.CreateTask, Ops.SaveTaskPacket, Ops.SetTask, Ops.StartTask,
           Ops.CreateAttempt, Ops.FinishAttempt, Ops.CreateVerificationRun, Ops.UpdateVerificationRun, Ops.RecordQualityDecision,
           Ops.FinalizeQualityVerification, Ops.FinalizeQualityFailure, Ops.SetTaskQualityStatus, Ops.AdmitEvidence,
           Ops.PromoteEvidence, Ops.RejectEvidence, Ops.AcquireLease, Ops.HeartbeatLease, Ops.ReleaseLease,
           Ops.ClaimMissionExecution, Ops.InterruptOwnedExecution, Ops.RecoverInterrupted;
      match op
      case OpAdmitEvidence(e, draft) => thrown := AdmitEvidence(now, e, draft);
      case OpPromote(e, itemId, options) => thrown := PromoteEvidence(now, e, itemId, options);
      case OpRejectEvidence(e, reasonOk) => thrown := RejectEvidence(e, reasonOk);
      case OpAcquire(m, owner, ttl) => thrown := AcquireLease(now, m, owner, ttl);
      case OpHeartbeat(m, owner, ttl, later) => thrown := HeartbeatLease(now, later, m, owner, ttl);
      case OpRelease(m, owner) => thrown := ReleaseLease(m, owner);
      case OpClaim(m, owner, ttl) => thrown := ClaimMissionExecution(now, m, owner, ttl);
      case OpInterrupt(m, owner, asOf) => thrown := InterruptOwnedExecution(now, asOf, m, owner);
      case OpRecover(asOf, owner) => thrown := RecoverInterrupted(now, asOf, owner);
    }

    /** A whole run of calls, refused ones included. */
    method ExecuteAll(steps: seq<Step>)
      requires transactionDepth == 0 && Inv(db)
      modifies this
      ensures transactionDepth == 0 && db == Run(old(db), steps)
    {
      hide Inv, Evolves, Ops.Apply;
      var i := 0;
      while i < |steps|
        invariant 0 <= i <= |steps| && transactionDepth == 0 && Inv(db)
        invariant Run(old(db), steps) == Run(db, steps[i..])
      {
        ApplyOk(db, steps[i].now, steps[i].op);
        assert steps[i..][0] == steps[i] && steps[i..][1..] == steps[i + 1..];
        var _ := Execute(steps[i].now, steps[i].op);
        i := i + 1;
      }
    }
  }

  lemma RowUntouched(db: Database, now: Time, done: set<Id>, m: Id)
    requires m in db.missions && m !in done
    ensures m in Ops.ReviewMissions(db, now, done).missions && Ops.ReviewMissions(db, now, done).missions[m] == db.missions[m]
  {}

  lemma SameKeys(db: Database)
    requires Inv(db)
    ensures db.quality.Keys == db.tasks.Keys
  {
    hide HistoryOk, TasksOk, AttemptsOk, VerificationsOk, DecisionsOk, EvidenceOk, LeasesOk, Judged;
  }

  lemma AffectedKept(db: Database, attempts: set<Id>, verifications: set<Id>, terminalState: Text)
    ensures var first := Ops.InterruptAttempts(db, attempts, terminalState);
      Ops.AffectedMissions(Ops.InterruptVerifications(first, verifications), attempts, verifications) ==
      Ops.AffectedMissions(db, attempts, verifications)
  {
    hide Ops.TasksOf, Ops.RunAbout;
    var last := Ops.InterruptVerifications(Ops.InterruptAttempts(db, attempts, terminalState), verifications);
    assert (set a | a in attempts && a in db.attempts :: db.attempts[a].mission) ==
           (set a | a in attempts && a in last.attempts :: last.attempts[a].mission);
    assert (set v | v in verifications && v in db.verifications :: db.verifications[v].mission) ==
           (set v | v in verifications && v in last.verifications :: last.verifications[v].mission);
  }

  lemma AffectedExist(db: Database, attempts: set<Id>, verifications: set<Id>)
    requires Inv(db)
    ensures Ops.AffectedMissions(db, attempts, verifications) <= db.missions.Keys
  {
    hide HistoryOk, DecisionsOk, QualityOk, EvidenceOk, LeasesOk;
  }

  lemma NothingInterrupted(db: Database, terminalState: Text)
    ensures Ops.InterruptAttempts(db, {}, terminalState) == db
  {
    assert Ops.InterruptAttempts(db, {}, terminalState).attempts == db.attempts;
    assert Ops.InterruptAttempts(db, {}, terminalState).tasks == db.tasks;
  }

  lemma NoVerificationInterrupted(db: Database)
    ensures Ops.InterruptVerifications(db, {}) == db
  {
    assert Ops.InterruptVerifications(db, {}).verifications == db.verifications;
    assert Ops.InterruptVerifications(db, {}).quality == db.quality;
  }
}
