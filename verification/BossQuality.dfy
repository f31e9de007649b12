/**
 What the goal loop reads from the store about quality: the gates a completion
 must pass, and the fingerprint that tells one rejection from another.
 */
module BossQuality {
  import opened Wrappers
  import opened MissionTables
  import opened MissionInvariant
  import opened MissionRuns
  import opened TaskIdentity

  // ----- completion gates -----

  /** Executed, and passed by verification. */
  predicate TaskVerified(db: Database, t: Id) {
    t in db.tasks && db.tasks[t].status.ExecutionCompleted? && t in db.quality && db.quality[t].status.Passed?
  }

  predicate AllVerified(db: Database, m: Id) {
    ActiveTasks(db.tasks, m) != {} && forall t | t in ActiveTasks(db.tasks, m) :: TaskVerified(db, t)
  }

  /** The loop's reading of the tables and the store's own guard agree in every state a run can reach. */
  lemma GatesAgree(db: Database, m: Id)
    requires Inv(db)
    ensures AllVerified(db, m) <==> Completable(db, m)
  {
    hide HistoryOk, AttemptsOk, VerificationsOk, DecisionsOk, EvidenceOk, LeasesOk, IsActive;
    ActiveAreRows(db, m);
  }

  lemma ActiveAreRows(db: Database, m: Id)
    ensures forall t | t in ActiveTasks(db.tasks, m) :: t in db.tasks && db.tasks[t].mission == m
  {}

  lemma GatesAgreeReachable(db: Database, m: Id)
    requires Reachable(db)
    ensures AllVerified(db, m) <==> Completable(db, m)
  {
    hide Reachable, Inv, AllVerified, Completable;
    ReachableInv(db);
    GatesAgree(db, m);
  }

  /** An active task list stands for the set of active tasks. */
  lemma ListedVerified(db: Database, m: Id, active: seq<Id>)
    requires forall t :: t in active <==> t in ActiveTasks(db.tasks, m)
    ensures AllVerified(db, m) <==> |active| > 0 && forall i | 0 <= i < |active| :: TaskVerified(db, active[i])
  {
    hide TaskVerified, ActiveTasks;
    if |active| > 0 { assert active[0] in active; }
    if forall i | 0 <= i < |active| :: TaskVerified(db, active[i]) {
      forall t | t in ActiveTasks(db.tasks, m) ensures TaskVerified(db, t) { assert t in active; }
    }
    if AllVerified(db, m) {
      var t :| t in ActiveTasks(db.tasks, m);
      assert t in active;
      forall i | 0 <= i < |active| ensures TaskVerified(db, active[i]) { assert active[i] in active; }
    }
  }

  method CompletedAndVerified(db: Database, m: Id) returns (ok: bool)
    ensures ok <==> AllVerified(db, m)
  {
    hide ActiveTasks, AllVerified;
    var active := ActiveMissionTasks(db.tasks, m);
    ListedVerified(db, m, active);
    var i := 0;
    while i < |active|
      invariant 0 <= i <= |active| && forall j | 0 <= j < i :: TaskVerified(db, active[j])
    {
      if !TaskVerified(db, active[i]) { return false; }
      i := i + 1;
    }
    return |active| > 0;
  }

  // ----- the last decision and the last evidence about a task -----

  /** Where a row stands in a listing: by round, then time, then id. */
  datatype Rank = Rank(round: nat, time: Time, id: Id)

  predicate Below(a: Rank, b: Rank) {
    a.round < b.round || (a.round == b.round && (a.time < b.time || (a.time == b.time && a.id < b.id)))
  }

  predicate IsLast(ranks: set<Rank>, last: Rank) {
    last in ranks && forall r | r in ranks :: r == last || Below(r, last)
  }

  lemma {:induction false} HasLast(ranks: set<Rank>)
    requires ranks != {}
    ensures exists last :: IsLast(ranks, last)
    decreases ranks
  {
    var r :| r in ranks;
    if ranks - {r} == {} {
      assert ranks == {r} && IsLast(ranks, r);
    } else {
      HasLast(ranks - {r});
      var last :| IsLast(ranks - {r}, last);
      var top := if Below(last, r) then r else last;
      forall x | x in ranks ensures x == top || Below(x, top) { assert x == r || x in ranks - {r}; }
      assert IsLast(ranks, top);
    }
  }

  /** The last row of a listing. */
  function Last(ranks: set<Rank>): (last: Option<Rank>)
    ensures last.None? <==> ranks == {}
    ensures last.Some? ==> IsLast(ranks, last.value)
  {
    if ranks == {} then None
    else
      HasLast(ranks);
      var last :| last in ranks && IsLast(ranks, last);
      Some(last)
  }

  function DecisionRanks(decisions: map<Id, Decision>, m: Id, t: Id): set<Rank> {
    set d | d in decisions && decisions[d].mission == m && decisions[d].task == t :: Rank(decisions[d].round, decisions[d].createdAt, d)
  }

  function LatestDecision(decisions: map<Id, Decision>, m: Id, t: Id): (latest: Option<Decision>)
    ensures latest.None? <==> forall d | d in decisions :: !(decisions[d].mission == m && decisions[d].task == t)
    ensures latest.Some? ==> exists rank :: IsLast(DecisionRanks(decisions, m, t), rank) && rank.id in decisions && latest.value == decisions[rank.id]
  {
    assert forall d | d in decisions :: decisions[d].mission == m && decisions[d].task == t ==>
      Rank(decisions[d].round, decisions[d].createdAt, d) in DecisionRanks(decisions, m, t);
    match Last(DecisionRanks(decisions, m, t))
    case None => None
    case Some(rank) => Some(decisions[rank.id])
  }

  function EvidenceRanks(evidence: map<Id, Evidence>, m: Id, t: Id): set<Rank> {
    set e | e in evidence && evidence[e].mission == m && evidence[e].task == Some(t) :: Rank(0, evidence[e].admittedAt, e)
  }

  function LatestEvidenceKind(evidence: map<Id, Evidence>, m: Id, t: Id): Option<Text> {
    match Last(EvidenceRanks(evidence, m, t))
    case None => None
    case Some(rank) => Some(evidence[rank.id].kind)
  }

  // ----- rejection fingerprints -----

  /** What a fingerprint is computed from; the digest itself is a parameter of the loop. */
  datatype RejectionFacts =
    | WorkerIncomplete(task: Id, outcome: Text, attempt: AttemptStatus)
    | NotPassed(task: Id, verdict: Verdict, detail: Text, evidenceKind: Option<Text>, instruction: Text)

  function StatusText(status: AttemptStatus): Text {
    match status
    case Running => "running"
    case Succeeded => "succeeded"
    case Failed => "failed"
    case Interrupted => "interrupted"
    case Cancelled => "cancelled"
    case TimedOut => "timed-out"
    case Unknown => "unknown"
  }

  function LastAttempt(db: Database, t: Id): Option<Attempt> {
    if t in db.tasks && db.tasks[t].lastRun.Some? && db.tasks[t].lastRun.value in db.attempts
    then Some(db.attempts[db.tasks[t].lastRun.value]) else None
  }

  /** The facts of the last refusal of a task, when there is one to speak of. */
  function Rejection(db: Database, m: Id, t: Id, instruction: Text): Option<RejectionFacts> {
    var decision := LatestDecision(db.decisions, m, t);
    if decision.None? || decision.value.verdict.Pass? then
      var attempt := LastAttempt(db, t);
      if attempt.None? || attempt.value.status.Succeeded? then None
      else Some(WorkerIncomplete(t, attempt.value.terminalState.GetOr(StatusText(attempt.value.status)), attempt.value.status))
    else
      Some(NotPassed(t, decision.value.verdict, decision.value.detail, LatestEvidenceKind(db.evidence, m, t), instruction))
  }

  function Fingerprint(digest: RejectionFacts -> Text, db: Database, m: Id, t: Id, instruction: Text): Option<Text> {
    match Rejection(db, m, t, instruction)
    case None => None
    case Some(facts) => Some(digest(facts))
  }

  /** How often one rejection may be recorded before the mission goes back to the user. */
  function RepeatThreshold(db: Database, t: Id): (n: nat)
    ensures n == 1 || n == 2
  {
    var attempt := LastAttempt(db, t);
    if attempt.Some? && attempt.value.terminalState == Some("no_eligible_route") then 1 else 2
  }

  // ----- why a completion is refused -----

  datatype Preclusion =
    | NoDurableTasks
    | QualityBlocked(task: Id, detail: Text, fingerprint: Option<Text>)
    | NotYetVerified(task: Id, detail: Text, fingerprint: Option<Text>)

  /** The first active task that is not verified stands in the way; nothing does when all are. */
  method QualityPrecludesComplete(digest: RejectionFacts -> Text, db: Database, m: Id) returns (precluded: Option<Preclusion>)
    ensures precluded.None? <==> AllVerified(db, m)
    ensures precluded == Some(NoDurableTasks) <==> ActiveTasks(db.tasks, m) == {}
    ensures precluded.Some? && !precluded.value.NoDurableTasks? ==>
      precluded.value.task in ActiveTasks(db.tasks, m) && !TaskVerified(db, precluded.value.task)
  {
    hide ActiveTasks, AllVerified, Fingerprint, LatestDecision;
    var active := ActiveMissionTasks(db.tasks, m);
    ListedVerified(db, m, active);
    if |active| == 0 {
      assert ActiveTasks(db.tasks, m) == {};
      return Some(NoDurableTasks);
    }
    assert active[0] in active;
    var i := 0;
    while i < |active|
      invariant 0 <= i <= |active| && forall j | 0 <= j < i :: TaskVerified(db, active[j])
    {
      var t := active[i];
      if !TaskVerified(db, t) {
        assert t in active;
        var decision := LatestDecision(db.decisions, m, t);
        var detail := if decision.Some? then decision.value.detail else "";
        var objective := if t in db.tasks then db.tasks[t].objectiveKey else "";
        var fingerprint := Fingerprint(digest, db, m, t, objective);
        if t in db.quality && db.quality[t].status.Blocked? { return Some(QualityBlocked(t, detail, fingerprint)); }
        return Some(NotYetVerified(t, detail, fingerprint));
      }
      i := i + 1;
    }
    return None;
  }
}
