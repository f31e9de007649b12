/**
 Claiming, interrupting and recovering executions: when each commits, what it
 leaves alone, and that recovery at one time is done after doing it once.
 */
module MissionRecovery {
  import opened Wrappers
  import opened MissionTables
  import opened MissionOps
  import opened MissionInvariant
  import opened MissionRuns

  /** Everything that belongs to the executions of mission `m` is the same in both databases. */
  predicate SameExecutions(a: Database, b: Database, m: Id) {
    && (m in a.missions ==> m in b.missions && b.missions[m] == a.missions[m])
    && (forall t | t in a.tasks :: a.tasks[t].mission == m ==> t in b.tasks && b.tasks[t] == a.tasks[t])
    && (forall r | r in a.attempts :: a.attempts[r].mission == m ==> r in b.attempts && b.attempts[r] == a.attempts[r])
    && (forall v | v in a.verifications :: a.verifications[v].mission == m ==> v in b.verifications && b.verifications[v] == a.verifications[v])
    && (forall t | t in a.quality :: a.quality[t].mission == m ==> t in b.quality && b.quality[t] == a.quality[t])
  }

  lemma AttemptsElsewhere(db: Database, runs: set<Id>, terminalState: Text, m: Id)
    requires AttemptsOk(db.tasks, db.attempts)
    requires forall a | a in runs :: a in db.attempts && db.attempts[a].mission != m
    ensures SameExecutions(db, InterruptAttempts(db, runs, terminalState), m)
  {}

  lemma VerificationsElsewhere(db: Database, runs: set<Id>, m: Id)
    requires QualityOk(db.tasks, db.verifications, db.decisions, db.quality)
    requires VerificationsOk(db.tasks, db.attempts, db.verifications)
    requires forall v | v in runs :: v in db.verifications && db.verifications[v].mission != m
    ensures SameExecutions(db, InterruptVerifications(db, runs), m)
  {
    hide Judged;
  }

  lemma AffectedHaveLapsed(db: Database, asOf: Time, m: Id)
    requires !LeaseLapsed(db, m, asOf)
    ensures forall a | a in LapsedAttempts(db, asOf, None) :: db.attempts[a].mission != m
    ensures forall v | v in LapsedVerifications(db, asOf, None) :: db.verifications[v].mission != m
    ensures m !in AffectedMissions(db, LapsedAttempts(db, asOf, None), LapsedVerifications(db, asOf, None))
  {
    hide LeaseLapsed, AttemptLapsed;
  }

  /** Ownerless recovery never touches a mission with an unexpired lease. */
  lemma RecoveryRespectsLiveLeases(db: Database, now: Time, asOf: Option<Time>, m: Id)
    requires Reachable(db) && !LeaseLapsed(db, m, asOf.GetOr(now))
    ensures SameExecutions(db, Apply(db, now, OpRecover(asOf, None)).db, m)
  {
    hide Reachable, Inv, LeaseLapsed, Committed, RecoverInterrupted, SameExecutions;
    ReachableInv(db);
    CommittedCases(db, RecoverInterrupted(db, now, asOf, None));
    if RecoverInterrupted(db, now, asOf, None).Ok? {
      RecoveryElsewhere(db, now, asOf, m);
    } else {
      SameExecutionsReflexive(db, m);
    }
  }

  lemma RecoveryElsewhere(db: Database, now: Time, asOf: Option<Time>, m: Id)
    requires Inv(db) && !LeaseLapsed(db, m, asOf.GetOr(now)) && RecoverInterrupted(db, now, asOf, None).Ok?
    ensures SameExecutions(db, RecoverInterrupted(db, now, asOf, None).value, m)
  {
    hide Inv, LeaseLapsed, LapsedAttempts, LapsedVerifications, AffectedMissions, SameExecutions, ReviewedMissions,
         InterruptAttempts, InterruptVerifications, ReviewMissions, Stuck;
    var time := asOf.GetOr(now);
    var attempts, verifications := LapsedAttempts(db, time, None), LapsedVerifications(db, time, None);
    var first := InterruptAttempts(db, attempts, "recovered_interrupted");
    var second := InterruptVerifications(first, verifications);
    var reviewed := ReviewedMissions(db, AffectedMissions(db, attempts, verifications));
    InterruptionElsewhere(db, time, m);
    AffectedHaveLapsed(db, time, m);
    NotReviewed(db, AffectedMissions(db, attempts, verifications), m);
    ReviewElsewhere(second, now, reviewed, m);
    SameExecutionsTransitive(db, second, ReviewMissions(second, now, reviewed), m);
  }

  lemma InterruptionElsewhere(db: Database, time: Time, m: Id)
    requires Inv(db) && !LeaseLapsed(db, m, time)
    ensures SameExecutions(db, InterruptVerifications(
      InterruptAttempts(db, LapsedAttempts(db, time, None), "recovered_interrupted"), LapsedVerifications(db, time, None)), m)
  {
    hide HistoryOk, TasksOk, AttemptsOk, VerificationsOk, DecisionsOk, QualityOk, EvidenceOk, LeasesOk, Evolves, LeaseLapsed, SameExecutions,
         LapsedAttempts, LapsedVerifications, AffectedMissions, InterruptAttempts, InterruptVerifications;
    AffectedHaveLapsed(db, time, m);
    LapsedAreRunning(db, time, None);
    var first := InterruptAttempts(db, LapsedAttempts(db, time, None), "recovered_interrupted");
    AttemptsElsewhere(db, LapsedAttempts(db, time, None), "recovered_interrupted", m);
    InterruptAttemptsOk(db, LapsedAttempts(db, time, None), "recovered_interrupted");
    VerificationsStillRunning(db, LapsedAttempts(db, time, None), "recovered_interrupted");
    VerificationsElsewhere(first, LapsedVerifications(db, time, None), m);
    SameExecutionsTransitive(db, first, InterruptVerifications(first, LapsedVerifications(db, time, None)), m);
  }

  lemma NotReviewed(db: Database, affected: set<Id>, m: Id)
    requires m !in affected
    ensures m !in ReviewedMissions(db, affected)
  {}

  lemma SameExecutionsReflexive(db: Database, m: Id)
    ensures SameExecutions(db, db, m)
  {}

  lemma ReviewElsewhere(db: Database, now: Time, ms: set<Id>, m: Id)
    requires m !in ms
    ensures SameExecutions(db, ReviewMissions(db, now, ms), m)
  {
    hide ReviewRows, ReviewRevisions;
  }

  lemma SameExecutionsTransitive(a: Database, b: Database, c: Database, m: Id)
    requires SameExecutions(a, b, m) && SameExecutions(b, c, m)
    ensures SameExecutions(a, c, m)
  {}

  lemma CommittedCases(db: Database, r: Result<Database>)
    ensures Committed(db, r).db == if r.Ok? then r.value else db
    ensures Committed(db, r).thrown.None? <==> r.Ok?
  {}

  lemma LapsedAreRunning(db: Database, asOf: Time, owner: Option<Text>)
    ensures forall a | a in LapsedAttempts(db, asOf, owner) :: a in db.attempts && db.attempts[a].status.Running?
    ensures forall v | v in LapsedVerifications(db, asOf, owner) :: v in db.verifications && db.verifications[v].status.Running?
  {}

  /** What recovery leaves running: nothing it would take again at the same time. */
  lemma NothingLeftToRecover(db: Database, now: Time, asOf: Option<Time>, owner: Option<Text>)
    requires RecoverInterrupted(db, now, asOf, owner).Ok?
    ensures var next := RecoverInterrupted(db, now, asOf, owner).value;
      LapsedAttempts(next, asOf.GetOr(now), owner) == {} && LapsedVerifications(next, asOf.GetOr(now), owner) == {}
  {
    hide ReviewRevisions, AffectedMissions, LeaseLapsed, AttemptLapsed;
    var next := RecoverInterrupted(db, now, asOf, owner).value;
    SameLapse(db, next, asOf.GetOr(now));
  }

  lemma SameLapse(a: Database, b: Database, asOf: Time)
    requires a.leases == b.leases
    ensures forall m :: LeaseLapsed(a, m, asOf) <==> LeaseLapsed(b, m, asOf)
  {}

  /** Recovery is idempotent at a fixed time: running it again commits and changes nothing. */
  lemma RecoveryIsIdempotent(db: Database, now: Time, later: Time, asOf: Time, owner: Option<Text>)
    requires RecoverInterrupted(db, now, Some(asOf), owner).Ok?
    ensures var next := RecoverInterrupted(db, now, Some(asOf), owner).value;
      RecoverInterrupted(next, later, Some(asOf), owner) == Ok(next)
  {
    hide LapsedAttempts, LapsedVerifications, InterruptAttempts, InterruptVerifications, ReviewMissions;
    var next := RecoverInterrupted(db, now, Some(asOf), owner).value;
    NothingLeftToRecover(db, now, Some(asOf), owner);
    assert AffectedMissions(next, {}, {}) == {};
    assert ReviewedMissions(next, {}) == {};
    NoAttempts(next, "recovered_interrupted");
    NoVerifications(next);
    NoReviews(next, later);
  }

  lemma NoAttempts(db: Database, terminalState: Text)
    ensures InterruptAttempts(db, {}, terminalState) == db
  {
    assert InterruptAttempts(db, {}, terminalState).attempts == db.attempts;
    assert InterruptAttempts(db, {}, terminalState).tasks == db.tasks;
  }

  lemma NoVerifications(db: Database)
    ensures InterruptVerifications(db, {}) == db
  {
    assert InterruptVerifications(db, {}).verifications == db.verifications;
    assert InterruptVerifications(db, {}).quality == db.quality;
  }

  lemma NoReviews(db: Database, now: Time)
    ensures ReviewMissions(db, now, {}) == db
  {
    hide ReviewRevisions, ReviewRow;
    forall k ensures k !in ReviewRevisions(db.missions, now, {}) { assert !IsReviewKey(db.missions, {}, k); }
    assert ReviewMissions(db, now, {}).missions == db.missions;
    assert ReviewMissions(db, now, {}).revisions == db.revisions;
  }

  /** Shutdown commits exactly when the caller holds the lease and the mission is not planned, paused or blocked. */
  lemma InterruptCommits(db: Database, now: Time, asOf: Option<Time>, m: Id, owner: Text)
    requires Reachable(db)
    ensures InterruptOwnedExecution(db, now, asOf, m, owner).Ok? <==>
      && m in db.leases && db.leases[m].owner == owner && asOf.GetOr(now) < db.leases[m].expiresAt
      && m in db.missions && !Stuck(db.missions[m].status)
  {
    hide Reachable, HistoryOk, TasksOk, AttemptsOk, VerificationsOk, DecisionsOk, QualityOk, EvidenceOk, TransitionMission,
         InterruptAttempts, InterruptVerifications, OwnedAttempts, RunningVerifications, Evolves;
    ReachableInv(db);
    if m in db.leases {
      OwnedAreRunning(db, m, owner);
      InterruptAttemptsOk(db, OwnedAttempts(db, m, owner), "interrupted_shutdown");
      var first := InterruptAttempts(db, OwnedAttempts(db, m, owner), "interrupted_shutdown");
      VerificationsStillRunning(db, OwnedAttempts(db, m, owner), "interrupted_shutdown");
      InterruptVerificationsOk(first, RunningVerifications(db, m));
      TransitionMissionOk(InterruptVerifications(first, RunningVerifications(db, m)), now, m, AwaitingReview, System, None);
    }
  }

  lemma OwnedAreRunning(db: Database, m: Id, owner: Text)
    ensures forall a | a in OwnedAttempts(db, m, owner) :: a in db.attempts && db.attempts[a].status.Running?
    ensures forall v | v in RunningVerifications(db, m) :: v in db.verifications && db.verifications[v].status.Running?
  {}

  /** Each status of the path may follow the one before it, and none is `completed`. */
  predicate Open(from: MissionStatus, path: seq<MissionStatus>)
    decreases |path|
  {
    path == [] || (!path[0].Completed? && CanTransition(from, path[0]) && Open(path[0], path[1..]))
  }

  lemma ClaimPathOpen(status: MissionStatus)
    requires !Closed(status)
    ensures Open(status, ClaimPath(status))
    ensures ClaimPath(status) == [] ==> status.Running?
    ensures ClaimPath(status) != [] ==> ClaimPath(status)[|ClaimPath(status)| - 1].Running?
  {
    var path := ClaimPath(status);
    assert Open(Active, [MissionStatus.Running]);
    if |path| == 3 {
      assert path[1..] == [Active, MissionStatus.Running] && path[1..][1..] == [MissionStatus.Running];
      assert Open(MissionStatus.Planned, path[1..]);
    } else if |path| == 2 {
      assert path[1..] == [MissionStatus.Running];
    }
  }

  /** An open path can be followed to its end. */
  lemma {:induction false} PathIsFollowed(db: Database, now: Time, m: Id, path: seq<MissionStatus>)
    requires Inv(db) && m in db.missions && Open(db.missions[m].status, path)
    ensures Follow(db, now, m, path).Ok? && m in Follow(db, now, m, path).value.missions
    ensures Follow(db, now, m, path).value.missions[m].status == if path == [] then db.missions[m].status else path[|path| - 1]
    decreases |path|
  {
    hide Inv, Evolves, Completable;
    if path != [] {
      TransitionMissionOk(db, now, m, path[0], System, None);
      PathIsFollowed(TransitionMission(db, now, m, path[0], System, None).value, now, m, path[1..]);
    }
  }

  /** A claim commits exactly when the mission is open and its lease can be taken, and leaves the mission running. */
  lemma ClaimCommits(db: Database, now: Time, m: Id, owner: Text, ttl: int)
    requires Reachable(db)
    ensures ClaimMissionExecution(db, now, m, owner, ttl).Ok? <==>
      m in db.missions && !Closed(db.missions[m].status) && AcquireLease(db, now, m, owner, ttl).Ok?
    ensures ClaimMissionExecution(db, now, m, owner, ttl).Ok? ==>
      var next := ClaimMissionExecution(db, now, m, owner, ttl).value;
      m in next.missions && next.missions[m].status.Running? && m in next.leases && next.leases[m].owner == owner
  {
    hide Reachable, Inv, Evolves, Follow, Blank, Open;
    ReachableInv(db);
    if m in db.missions && !Closed(db.missions[m].status) && AcquireLease(db, now, m, owner, ttl).Ok? {
      AcquireLeaseOk(db, now, m, owner, ttl);
      ClaimPathOpen(db.missions[m].status);
      PathIsFollowed(AcquireLease(db, now, m, owner, ttl).value, now, m, ClaimPath(db.missions[m].status));
    }
  }
}
