/**
 Mission leases over timed runs: at most one owner holds an unexpired grant,
 and while it does nobody else can acquire, claim, heartbeat, interrupt or
 start an attempt.
 */
module MissionLeases {
  import opened Wrappers
  import opened MissionTables
  import opened MissionOps

  datatype Holder = Holder(mission: Id, owner: Text)

  /** A call that starts at `now` and has returned by `end`, on the clock all owners share. */
  datatype TimedOp = TimedOp(now: Time, end: Time, op: Op)

  /** The expiry each owner was last told, until it releases the mission or shuts it down. */
  type Grants = map<Holder, Time>

  ghost predicate Succeeds(db: Database, step: TimedOp) { Apply(db, step.now, step.op).thrown.None? }

  ghost function Told(g: Grants, db: Database, step: TimedOp): Grants {
    if !Succeeds(db, step) then g
    else
      match step.op
      case OpAcquire(m, owner, ttl) => g[Holder(m, owner) := step.now + (if ttl > 0 then ttl else 0)]
      case OpClaim(m, owner, ttl) => g[Holder(m, owner) := step.now + (if ttl > 0 then ttl else 0)]
      case OpHeartbeat(m, owner, ttl, later) => g[Holder(m, owner) := later + (if ttl > 0 then ttl else 0)]
      case OpRelease(m, owner) => g - {Holder(m, owner)}
      case OpInterrupt(m, owner, asOf) => g - {Holder(m, owner)}
      case _ => g
  }

  /** The clock never runs backwards, between calls or within one. */
  predicate Timely(start: Time, step: TimedOp) {
    start <= step.now <= step.end && (step.op.OpHeartbeat? ==> step.now <= step.op.later <= step.end)
  }

  /** A heartbeat whose second clock reading still falls before the expiry it found. */
  predicate Punctual(db: Database, op: Op) {
    op.OpHeartbeat? && op.m in db.leases ==> op.later < db.leases[op.m].expiresAt
  }

  /** Every unexpired grant is the lease row. */
  predicate Granted(leases: map<Id, Lease>, g: Grants, now: Time) {
    forall h | h in g && now < g[h] ::
      h.mission in leases && leases[h.mission].owner == h.owner && leases[h.mission].expiresAt == g[h]
  }

  /** What each operation does to the lease rows. */
  lemma LeaseWrites(db: Database, now: Time, op: Op)
    ensures !(op.OpAcquire? || op.OpClaim? || op.OpHeartbeat? || op.OpRelease? || op.OpInterrupt?) ==>
      Apply(db, now, op).db.leases == db.leases
    ensures op.OpClaim? && Apply(db, now, op).thrown.None? ==>
      AcquireLease(db, now, op.m, op.owner, op.ttl).Ok? &&
      Apply(db, now, op).db.leases == AcquireLease(db, now, op.m, op.owner, op.ttl).value.leases
    ensures op.OpInterrupt? && Apply(db, now, op).thrown.None? ==>
      op.m in db.leases && db.leases[op.m].owner == op.owner && Apply(db, now, op).db.leases == db.leases - {op.m}
    ensures !Apply(db, now, op).thrown.None? ==> Apply(db, now, op).db.leases == db.leases
  {
    hide CreateMission, UpdateMission, TransitionMission, CreateTask, SaveTaskPacket, SetTask, CreateAttempt,
         FinishAttempt, CreateVerificationRun, UpdateVerificationRun, RecordQualityDecision, FinalizeQualityVerification,
         FinalizeQualityFailure, SetTaskQualityStatus, AdmitEvidence, AcceptEvidence, RejectEvidence, AcquireLease, HeartbeatLease,
         ReleaseLease, Follow, InterruptAttempts, InterruptVerifications, ReviewRevisions,
         LapsedAttempts, LapsedVerifications, AffectedMissions, OwnedAttempts, RunningVerifications;
  }

  lemma GrantsAge(leases: map<Id, Lease>, g: Grants, start: Time, end: Time)
    requires Granted(leases, g, start) && start <= end
    ensures Granted(leases, g, end)
  {}

  lemma AcquireKeepsGrants(db: Database, g: Grants, start: Time, now: Time, end: Time, m: Id, owner: Text, ttl: int)
    requires Granted(db.leases, g, start) && start <= now <= end
    ensures AcquireLease(db, now, m, owner, ttl).Ok? ==>
      ttl > 0 && Granted(AcquireLease(db, now, m, owner, ttl).value.leases, g[Holder(m, owner) := now + ttl], end)
    ensures Granted(db.leases, g, end)
  {}

  lemma HeartbeatKeepsGrants(db: Database, g: Grants, start: Time, now: Time, later: Time, end: Time, m: Id, owner: Text, ttl: int)
    requires Granted(db.leases, g, start) && start <= now <= later <= end
    requires m in db.leases ==> later < db.leases[m].expiresAt
    ensures HeartbeatLease(db, now, later, m, owner, ttl).Ok? ==>
      ttl > 0 && Granted(HeartbeatLease(db, now, later, m, owner, ttl).value.leases, g[Holder(m, owner) := later + ttl], end)
    ensures Granted(db.leases, g, end)
  {}

  lemma DropKeepsGrants(leases: map<Id, Lease>, g: Grants, start: Time, end: Time, m: Id, owner: Text)
    requires Granted(leases, g, start) && start <= end
    ensures m !in leases || leases[m].owner == owner ==> Granted(leases - {m}, g - {Holder(m, owner)}, end)
    ensures m !in leases ==> Granted(leases, g - {Holder(m, owner)}, end)
    ensures Granted(leases, g, end)
  {}

  /** One call keeps every unexpired grant equal to its row, provided heartbeats are punctual. */
  lemma StepKeepsGrants(db: Database, g: Grants, start: Time, step: TimedOp)
    requires Granted(db.leases, g, start) && Timely(start, step) && Punctual(db, step.op)
    ensures Granted(Apply(db, step.now, step.op).db.leases, Told(g, db, step), step.end)
  {
    hide CreateMission, UpdateMission, TransitionMission, CreateTask, SaveTaskPacket, SetTask, CreateAttempt, StartTask,
         FinishAttempt, CreateVerificationRun, UpdateVerificationRun, RecordQualityDecision, FinalizeQualityVerification,
         FinalizeQualityFailure, SetTaskQualityStatus, AdmitEvidence, PromoteEvidence, RejectEvidence,
         ClaimMissionExecution, InterruptOwnedExecution, RecoverInterrupted, AcquireLease, Granted, Blank;
    LeaseWrites(db, step.now, step.op);
    match step.op
    case OpAcquire(m, owner, ttl) => AcquireKeepsGrants(db, g, start, step.now, step.end, m, owner, ttl);
    case OpClaim(m, owner, ttl) => AcquireKeepsGrants(db, g, start, step.now, step.end, m, owner, ttl);
    case OpHeartbeat(m, owner, ttl, later) => HeartbeatKeepsGrants(db, g, start, step.now, later, step.end, m, owner, ttl);
    case OpRelease(m, owner) => DropKeepsGrants(db.leases, g, start, step.end, m, owner);
    case OpInterrupt(m, owner, asOf) => DropKeepsGrants(db.leases, g, start, step.end, m, owner);
    case _ => GrantsAge(db.leases, g, start, step.end);
  }

  ghost function RunTimed(db: Database, steps: seq<TimedOp>): Database
    decreases |steps|
  {
    if steps == [] then db else RunTimed(Apply(db, steps[0].now, steps[0].op).db, steps[1..])
  }

  ghost function ToldBy(db: Database, g: Grants, steps: seq<TimedOp>): Grants
    decreases |steps|
  {
    if steps == [] then g else ToldBy(Apply(db, steps[0].now, steps[0].op).db, Told(g, db, steps[0]), steps[1..])
  }

  /** The run keeps time and every heartbeat in it is punctual. */
  ghost predicate Orderly(db: Database, start: Time, steps: seq<TimedOp>)
    decreases |steps|
  {
    steps == [] || (Timely(start, steps[0]) && Punctual(db, steps[0].op) &&
                    Orderly(Apply(db, steps[0].now, steps[0].op).db, steps[0].end, steps[1..]))
  }

  function EndOf(start: Time, steps: seq<TimedOp>): Time {
    if steps == [] then start else steps[|steps| - 1].end
  }

  lemma {:induction false} RunKeepsGrants(db: Database, g: Grants, start: Time, steps: seq<TimedOp>)
    requires Granted(db.leases, g, start) && Orderly(db, start, steps)
    ensures Granted(RunTimed(db, steps).leases, ToldBy(db, g, steps), EndOf(start, steps))
    decreases |steps|
  {
    hide Apply, Told, Granted, Punctual;
    if steps != [] {
      StepKeepsGrants(db, g, start, steps[0]);
      RunKeepsGrants(Apply(db, steps[0].now, steps[0].op).db, Told(g, db, steps[0]), steps[0].end, steps[1..]);
    }
  }

  /** At the end of any orderly run, two unexpired grants of one mission belong to one owner. */
  lemma MutualExclusion(steps: seq<TimedOp>, m: Id, a: Text, b: Text)
    requires Orderly(EmptyDatabase, 0, steps)
    requires var g := ToldBy(EmptyDatabase, map[], steps);
      Holder(m, a) in g && g[Holder(m, a)] > EndOf(0, steps) && Holder(m, b) in g && g[Holder(m, b)] > EndOf(0, steps)
    ensures a == b
  {
    hide Orderly, ToldBy, RunTimed;
    RunKeepsGrants(EmptyDatabase, map[], 0, steps);
  }

  /** An operation that only the lease holder may get through. */
  predicate LeaseGuarded(db: Database, op: Op, m: Id, owner: Text) {
    match op
    case OpAcquire(n, other, _) => n == m && other != owner
    case OpClaim(n, other, _) => n == m && other != owner
    case OpHeartbeat(n, other, _, _) => n == m && other != owner
    case OpInterrupt(n, other, _) => n == m && other != owner
    case OpCreateAttempt(_, draft) => draft.task in db.tasks && db.tasks[draft.task].mission == m && draft.leaseOwner != Some(owner)
    case _ => false
  }

  /** While an owner's grant is unexpired, every guarded call by anyone else is refused and changes nothing. */
  lemma HolderExcludesOthers(steps: seq<TimedOp>, m: Id, owner: Text, now: Time, op: Op)
    requires Orderly(EmptyDatabase, 0, steps) && EndOf(0, steps) <= now
    requires var g := ToldBy(EmptyDatabase, map[], steps); Holder(m, owner) in g && g[Holder(m, owner)] > now
    requires LeaseGuarded(RunTimed(EmptyDatabase, steps), op, m, owner)
    ensures !Apply(RunTimed(EmptyDatabase, steps), now, op).thrown.None?
    ensures Apply(RunTimed(EmptyDatabase, steps), now, op).db == RunTimed(EmptyDatabase, steps)
  {
    hide Orderly, ToldBy, RunTimed, HasRunningAttempt, Follow, InterruptAttempts, InterruptVerifications;
    RunKeepsGrants(EmptyDatabase, map[], 0, steps);
    var db := RunTimed(EmptyDatabase, steps);
    assert db.leases[m].owner == owner && db.leases[m].expiresAt > now;
  }

  // ----- the heartbeat's two clock readings -----

  /** A successful heartbeat tells its caller the truth exactly when it was punctual. */
  lemma HeartbeatTruth(db: Database, g: Grants, start: Time, step: TimedOp)
    requires Granted(db.leases, g, start) && Timely(start, step) && step.op.OpHeartbeat? && Succeeds(db, step)
    requires step.op.later + step.op.ttl > step.end
    ensures Granted(Apply(db, step.now, step.op).db.leases, Told(g, db, step), step.end) <==> Punctual(db, step.op)
  {
    var h := Holder(step.op.m, step.op.owner);
    assert h in Told(g, db, step) && Told(g, db, step)[h] == step.op.later + step.op.ttl;
    if Punctual(db, step.op) { StepKeepsGrants(db, g, start, step); }
  }

  lemma StalledHeartbeat(db: Database, m: Id, a: Text, b: Text)
    requires m in db.missions && m !in db.leases && !Blank(a) && !Blank(b) && a != b
    ensures AcquireLease(db, 0, m, a, 10).Ok?
    ensures var db1 := AcquireLease(db, 0, m, a, 10).value;
      HeartbeatLease(db1, 5, 20, m, a, 100) == Ok(db1) && AcquireLease(db1, 21, m, b, 100).Ok?
  {
    hide Blank;
  }

  lemma AcquireCalled(db: Database, now: Time, m: Id, owner: Text, ttl: int)
    ensures Apply(db, now, OpAcquire(m, owner, ttl)) == Committed(db, AcquireLease(db, now, m, owner, ttl))
  {}

  lemma HeartbeatCalled(db: Database, now: Time, m: Id, owner: Text, ttl: int, later: Time)
    ensures Apply(db, now, OpHeartbeat(m, owner, ttl, later)) == Committed(db, HeartbeatLease(db, now, later, m, owner, ttl))
  {}

  /** Without punctuality exclusion fails: a heartbeat that stalls past the expiry is still told it holds the lease. */
  lemma StalledHeartbeatOverlaps(db: Database, m: Id, a: Text, b: Text)
    requires m in db.missions && m !in db.leases && !Blank(a) && !Blank(b) && a != b
    ensures var first, second, third :=
        TimedOp(0, 0, OpAcquire(m, a, 10)), TimedOp(5, 20, OpHeartbeat(m, a, 100, 20)), TimedOp(21, 21, OpAcquire(m, b, 100));
      && Timely(0, first) && Timely(0, second) && Timely(20, third)
      && var db1 := Apply(db, 0, first.op).db; var db2 := Apply(db1, 5, second.op).db;
      && var g := Told(Told(Told(map[], db, first), db1, second), db2, third);
      && Holder(m, a) in g && g[Holder(m, a)] > 21 && Holder(m, b) in g && g[Holder(m, b)] > 21
  {
    hide Blank, Apply, AcquireLease, HeartbeatLease;
    StalledHeartbeat(db, m, a, b);
    AcquireCalled(db, 0, m, a, 10);
    var db1 := Apply(db, 0, OpAcquire(m, a, 10)).db;
    HeartbeatCalled(db1, 5, m, a, 100, 20);
    AcquireCalled(db1, 21, m, b, 100);
  }
}
