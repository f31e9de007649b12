/**
 How a run of the goal loop ends: the outcome is recorded in the mission's
 plan, then the mission is moved to the status that stands for it. The calls
 are separate transactions, so a refused one leaves the earlier ones in place.
 */
module BossTerminal {
  import opened Wrappers
  import opened MissionTables
  import opened MissionInvariant
  import opened MissionRuns
  import opened BossState
  import opened BossQuality
  import Ops = MissionOps

  function StatusFor(t: Terminal): (status: MissionStatus)
    ensures status.Completed? || status.Cancelled? || status.AwaitingReview? || status.Blocked?
  {
    match t
    case Completed => MissionStatus.Completed
    case Cancelled => MissionStatus.Cancelled
    case AwaitingUser => AwaitingReview
    case Interrupted => AwaitingReview
    case _ => MissionStatus.Blocked
  }

  function PlanPatch(plan: Json): Ops.MissionPatch { Ops.NoPatch.(plan := Some(plan)) }

  /** The status change that follows the recording of the outcome; `revision` is the last one the loop saw. */
  function Settle(db: Database, now: Time, m: Id, revision: nat, status: MissionStatus): Ops.Reply
    requires m in db.missions
  {
    if db.missions[m].status == status then Ops.Reply(db, None)
    else Ops.Committed(db, Ops.TransitionMission(db, now, m, status, Boss, Some(revision)))
  }

  /** A running mission goes through review before it is completed. */
  function Conclude(db: Database, now: Time, m: Id, status: MissionStatus): Ops.Reply
    requires m in db.missions
  {
    if status.Completed? && db.missions[m].status.Running? then
      match Ops.TransitionMission(db, now, m, AwaitingReview, Boss, Some(db.missions[m].revision))
      case Err(e) => Ops.Reply(db, Some(e))
      case Ok(reviewed) => Settle(reviewed, now, m, reviewed.missions[m].revision, status)
    else Settle(db, now, m, db.missions[m].revision, status)
  }

  function TerminalRun(db: Database, now: Time, m: Id, revision: nat, plan: Json, status: MissionStatus): Ops.Reply {
    match Ops.UpdateMission(db, now, m, PlanPatch(plan), Some(revision))
    case Err(e) => Ops.Reply(db, Some(e))
    case Ok(recorded) => Conclude(recorded, now, m, status)
  }

  predicate HasStatus(db: Database, m: Id, status: MissionStatus) { m in db.missions && db.missions[m].status == status }

  /** From this status the loop can bring the mission to `status`. */
  predicate CanConclude(db: Database, m: Id, status: MissionStatus)
    requires m in db.missions
  {
    var from := db.missions[m].status;
    from == status ||
    (if status.Completed? then (from.Running? || from.AwaitingReview?) && Completable(db, m) else CanTransition(from, status))
  }

  /** The loop's copy is current, and the mission can be brought to `status`. */
  predicate CanEnd(db: Database, m: Id, revision: nat, status: MissionStatus) {
    m in db.missions && db.missions[m].revision == revision && CanConclude(db, m, status)
  }

  // ----- single calls -----

  lemma SameGate(a: Database, b: Database, m: Id)
    requires a.tasks == b.tasks && a.quality == b.quality
    ensures Completable(a, m) <==> Completable(b, m)
  {}

  /** A transition the store accepts changes the status and the history, and nothing the gates read. */
  lemma TransitionEffect(db: Database, now: Time, m: Id, status: MissionStatus, revision: nat)
    requires Inv(db) && m in db.missions && revision == db.missions[m].revision
    ensures var r := Ops.TransitionMission(db, now, m, status, Boss, Some(revision));
      && (r.Ok? <==> CanTransition(db.missions[m].status, status) && (status.Completed? ==> Completable(db, m)))
      && (r.Ok? ==> Keeps(db, r.value) && r.value.tasks == db.tasks && r.value.quality == db.quality &&
                    m in r.value.missions && r.value.missions[m] == Ops.Enter(db.missions[m], now, status))
  {
    hide Inv, Evolves, Completable;
    TransitionMissionOk(db, now, m, status, Boss, Some(revision));
  }

  lemma PersistEffect(db: Database, now: Time, m: Id, revision: nat, plan: Json)
    requires Inv(db) && m in db.missions
    ensures var r := Ops.UpdateMission(db, now, m, PlanPatch(plan), Some(revision));
      && (r.Ok? <==> db.missions[m].revision == revision)
      && (r.Err? ==> r.error == Conflict)
      && (r.Ok? ==> Keeps(db, r.value) && r.value.tasks == db.tasks && r.value.quality == db.quality &&
                    m in r.value.missions && r.value.missions[m].status == db.missions[m].status &&
                    r.value.missions[m].revision == revision + 1 && r.value.missions[m].plan == plan)
  {
    hide Inv, Evolves;
    UpdateMissionOk(db, now, m, PlanPatch(plan), Some(revision));
  }

  // ----- the whole ending -----

  lemma SettleEnds(db: Database, now: Time, m: Id, status: MissionStatus)
    requires Inv(db) && m in db.missions
    ensures var r := Settle(db, now, m, db.missions[m].revision, status);
      && (r.thrown.None? <==>
            (db.missions[m].status == status ||
             (CanTransition(db.missions[m].status, status) && (status.Completed? ==> Completable(db, m)))))
      && Keeps(db, r.db) && m in r.db.missions && r.db.tasks == db.tasks && r.db.quality == db.quality
      && (r.thrown.None? ==> r.db.missions[m].status == status && r.db.missions[m].plan == db.missions[m].plan)
  {
    hide Inv, Evolves, Completable, Ops.TransitionMission;
    KeepsReflexive(db);
    TransitionEffect(db, now, m, status, db.missions[m].revision);
  }

  lemma ConcludeEnds(db: Database, now: Time, m: Id, status: MissionStatus)
    requires Inv(db) && m in db.missions
    ensures var r := Conclude(db, now, m, status);
      && (r.thrown.None? <==> CanConclude(db, m, status))
      && Keeps(db, r.db) && m in r.db.missions && r.db.tasks == db.tasks && r.db.quality == db.quality
      && (r.thrown.None? ==> r.db.missions[m].status == status && r.db.missions[m].plan == db.missions[m].plan)
  {
    hide Keeps, Inv, Completable, Ops.TransitionMission, Settle;
    KeepsReflexive(db);
    SettleEnds(db, now, m, status);
    if status.Completed? && db.missions[m].status.Running? {
      var r := Ops.TransitionMission(db, now, m, AwaitingReview, Boss, Some(db.missions[m].revision));
      TransitionEffect(db, now, m, AwaitingReview, db.missions[m].revision);
      var reviewed := r.value;
      KeepsInv(db, reviewed);
      SettleEnds(reviewed, now, m, status);
      SameGate(db, reviewed, m);
      KeepsTransitive(db, reviewed, Settle(reviewed, now, m, reviewed.missions[m].revision, status).db);
    }
  }

  lemma KeepsInv(a: Database, b: Database)
    requires Keeps(a, b)
    ensures Inv(b)
  {}

  /** An ending succeeds exactly when it can, and then the row has the status and the record that were asked for. */
  lemma TerminalEnds(db: Database, now: Time, m: Id, revision: nat, plan: Json, status: MissionStatus)
    requires Inv(db) && m in db.missions
    ensures var r := TerminalRun(db, now, m, revision, plan, status);
      && (r.thrown.None? <==> CanEnd(db, m, revision, status))
      && Keeps(db, r.db) && m in r.db.missions && r.db.tasks == db.tasks && r.db.quality == db.quality
      && (r.thrown.None? ==> r.db.missions[m].status == status && r.db.missions[m].plan == plan)
  {
    hide Keeps, Inv, Completable, Ops.UpdateMission, Conclude;
    KeepsReflexive(db);
    PersistEffect(db, now, m, revision, plan);
    if db.missions[m].revision == revision {
      var recorded := Ops.UpdateMission(db, now, m, PlanPatch(plan), Some(revision)).value;
      KeepsInv(db, recorded);
      ConcludeEnds(recorded, now, m, status);
      SameGate(db, recorded, m);
      KeepsTransitive(db, recorded, Conclude(recorded, now, m, status).db);
    }
  }

  /**
   When the gates hold on a running or reviewed mission that nobody has moved
   on, declaring it complete always ends with the row completed; on any other
   status but `completed` itself, or when a gate fails, it never does.
   */
  lemma CompletionAlwaysLands(db: Database, now: Time, m: Id, revision: nat, plan: Json)
    requires Reachable(db) && m in db.missions && db.missions[m].revision == revision && !db.missions[m].status.Completed?
    ensures var r := TerminalRun(db, now, m, revision, plan, StatusFor(Terminal.Completed));
      && (r.thrown.None? <==> AllVerified(db, m) && (db.missions[m].status.Running? || db.missions[m].status.AwaitingReview?))
      && (r.thrown.None? ==> HasStatus(r.db, m, MissionStatus.Completed))
  {
    hide Reachable, Inv, Keeps, AllVerified, Completable, TerminalRun;
    ReachableInv(db);
    GatesAgree(db, m);
    TerminalEnds(db, now, m, revision, plan, StatusFor(Terminal.Completed));
  }

  /**
   A refused ending is not undone: on a mission someone cancelled, the record
   of another outcome is committed before the status change is refused.
   */
  lemma RefusedEndingLeavesItsRecord(db: Database, now: Time, m: Id, plan: Json, status: MissionStatus)
    requires Inv(db) && m in db.missions && db.missions[m].status.Cancelled? && !status.Cancelled?
    ensures var r := TerminalRun(db, now, m, db.missions[m].revision, plan, status);
      r.thrown.Some? && m in r.db.missions && r.db.missions[m].plan == plan && r.db.missions[m].status.Cancelled?
  {
    hide Inv, Evolves, Completable, Ops.UpdateMission;
    var revision := db.missions[m].revision;
    PersistEffect(db, now, m, revision, plan);
    var recorded := Ops.UpdateMission(db, now, m, PlanPatch(plan), Some(revision)).value;
  }
}
