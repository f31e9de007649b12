/**
 Single steps of the goal loop: what each call on the store does to what the
 loop keeps, and why each way of ending a run is explained by what the run
 heard.
 */
module BossSteps {
  import opened Wrappers
  import opened MissionTables
  import opened MissionInvariant
  import opened MissionRuns
  import opened TaskIdentity
  import opened BossState
  import opened BossRoutes
  import opened BossQuality
  import opened BossTerminal
  import opened BossTrace
  import Ops = MissionOps

  datatype Invoked = Decided(decision: BossDecision) | Undecided(failure: Failure) | Broke(error: Error)

  /** How the verification block ends: normally, by leaving the run, or by an exception its handler catches. */
  datatype Tried = Fell(verified: Verified) | Left(outcome: Outcome) | Raised(cause: Failure) | RaisedError(error: Error)

  // ----- about single steps -----

  lemma UpdateCalled(db: Database, now: Time, m: Id, patch: Ops.MissionPatch, revision: nat)
    ensures Ops.Apply(db, now, Ops.OpUpdateMission(m, patch, Some(revision))) ==
      Ops.Committed(db, Ops.UpdateMission(db, now, m, patch, Some(revision)))
  {}

  lemma TransitionCalled(db: Database, now: Time, m: Id, status: MissionStatus, revision: nat)
    ensures Ops.Apply(db, now, Ops.OpTransitionMission(m, status, Boss, Some(revision))) ==
      Ops.Committed(db, Ops.TransitionMission(db, now, m, status, Boss, Some(revision)))
  {}

  lemma StillThere(a: Database, b: Database, m: Id)
    requires Inv(a) && Keeps(a, b) && m in a.missions
    ensures Inv(b) && m in b.missions
  {
    hide Inv, Evolves;
    RowsAdvance(a, b, m);
  }

  /** What every await leads to. */
  lemma Awaits(w: Scene, v: View, e: Event)
    requires e.Asked? || e.Dispatched? || e.Judged?
    ensures var next := Next(w, v, e);
      && next.db == Run(v.db, w.env(v.turns).steps) && next.revision == v.revision
      && next.turns == v.turns + 1 && next.aborted == (v.aborted || w.env(v.turns).aborts)
  {
    hide Run, Refused, Ops.Apply, PlannedBy, FailureIn, BeginsCycle;
  }

  /** What has been answered stays answered. */
  lemma SoundLater(w: Scene, a: nat, b: nat, s: BossState)
    requires Sound(w, a, s) && a <= b
    ensures Sound(w, b, s)
  {
    hide Chain, FirstRecord, AnswersFailure;
  }

  lemma SoundSame(w: Scene, n: nat, a: BossState, b: BossState)
    requires Sound(w, n, a) && a.fallbackHistory == b.fallbackHistory && a.assignment == b.assignment
    ensures Sound(w, n, b)
  {
    hide Chain, Answered, FirstRecord;
  }

  /** A hop to a route not yet used, in answer to the last reply, keeps the record sound. */
  lemma SoundHop(w: Scene, n: nat, s: BossState, next: Assignment, hop: Hop)
    requires Sound(w, n, s) && s.assignment.Some? && hop.fromRoute == s.assignment.value.routeId && hop.toRoute == next.routeId
    requires hop.toRoute !in Used(s.fallbackHistory, Some(hop.fromRoute)) && n > 0 && AnswersFailure(w.env(n - 1).decision, hop)
    ensures Sound(w, n, s.(assignment := Some(next), fallbackHistory := s.fallbackHistory + [hop]))
  {
    hide Chain, FirstRecord, AnswersFailure, Used;
    if Chain(s.fallbackHistory, Some(hop.fromRoute)) { ChainGrows(s.fallbackHistory, hop.fromRoute, hop.toRoute, hop.reason); }
    assert Answered(w, n, hop);
  }

  lemma OneMoreFailure(failures: seq<Text>, next: Text)
    ensures Tail(failures + [next]) == if failures != [] && failures[|failures| - 1] == next then Tail(failures) + 1 else 1
  {
    assert (failures + [next])[..|failures|] == failures;
  }

  // ----- why a run ends -----

  lemma ThrowIsExplained(w: Scene, v: View, r: Outcome)
    requires r.Threw? && Reports(w, v, r)
    ensures Explained(w, v, r)
  {}

  lemma CancelExplains(w: Scene, v: View, r: Outcome)
    requires w.m in w.origin.missions && Reports(w, v, r) && (r.Returned? ==> r.terminal.Cancelled?)
    requires r.Returned? ==>
      if v.asked.Nothing? then v.turns == 0 && w.aborted && r.cycles == FirstRecord(w).cycle
      else (v.aborted || Cancels(v.last)) && v.asked.FromBoss? && v.cycle - 1 <= r.cycles <= v.cycle
    ensures Explained(w, v, r)
  {
    hide FirstRecord, Cancels, HandsBack, Capable;
  }

  lemma SafetyExplains(w: Scene, v: View, r: Outcome)
    requires w.m in w.origin.missions && Reports(w, v, r) && (r.Returned? ==> r.terminal.SafetyStop?)
    requires Unsafe(v.last) && v.asked.FromBoss? && (r.Returned? ==> v.cycle - 1 <= r.cycles <= v.cycle)
    ensures Explained(w, v, r)
  {
    hide FirstRecord, Unsafe, HandsBack, Capable;
  }

  lemma CompletionExplains(w: Scene, v: View, r: Outcome)
    requires w.m in w.origin.missions && Reports(w, v, r) && v.asked.FromBoss?
    requires BossSaid(v.last, Complete) && v.last.decision.value.acceptanceSatisfied
    requires r.Returned? ==> r.terminal.Completed? && r.cycles == v.cycle
    ensures Explained(w, v, r)
  {
    hide FirstRecord, HandsBack, Capable;
  }

  lemma BlockedExplains(w: Scene, v: View, r: Outcome)
    requires w.m in w.origin.missions && Reports(w, v, r) && v.asked.FromBoss? && BossSaid(v.last, Action.Blocked)
    requires r.Returned? ==> r.terminal.Blocked? && r.cycles == v.cycle
    ensures Explained(w, v, r)
  {
    hide FirstRecord, HandsBack, Capable;
  }

  lemma NoCyclesExplains(w: Scene, v: View, r: Outcome)
    requires w.m in w.origin.missions && Reports(w, v, r) && v.asked.Nothing? && v.turns == 0 && Capable(w)
    requires r.Returned? ==> r.terminal.AwaitingUser? && FirstRecord(w).cycle >= w.config.maxCycles == r.cycles
    ensures Explained(w, v, r)
  {
    hide FirstRecord, Capable;
  }

  lemma IncapableExplains(w: Scene, v: View, r: Outcome)
    requires w.m in w.origin.missions && Reports(w, v, r) && v.asked.Nothing? && v.turns == 0 && !Capable(w)
    requires r.Returned? ==> r.terminal.AwaitingUser? && r.cycles == FirstRecord(w).cycle
    ensures Explained(w, v, r)
  {
    hide FirstRecord, Capable;
  }

  lemma NoRouteExplains(w: Scene, v: View, r: Outcome)
    requires w.m in w.origin.missions && Reports(w, v, r) && v.asked.Nothing? && v.turns == 0
    requires FirstRecord(w).assignment.None? && SelectEntry(w.config.pick, w.config.entries) == None
    requires r.Returned? ==> r.terminal.Blocked? && r.cycles == 0
    ensures Explained(w, v, r)
  {
    hide FirstRecord, Capable, SelectEntry;
  }

  /** The reason given for a safety stop. */
  function SafetyReason(message: Text): Text {
    if Take(Trim(message), 240) == "" then "Safety policy stopped Mission orchestration" else Take(Trim(message), 240)
  }

  lemma HandBackExplains(w: Scene, before: View, v: View, r: Outcome)
    requires w.m in w.origin.missions && Reports(w, v, r) && v == before.(db := v.db, revision := v.revision, refused := v.refused)
    requires v.db.tasks == before.db.tasks && v.db.quality == before.db.quality
    requires r.Returned? ==> r.terminal.AwaitingUser? && HandsBack(w, before, r.cycles)
    ensures Explained(w, v, r)
  {
    hide FirstRecord, Capable, Exhausts, Overdone, ReadState, AllVerified, Justified;
    JustifiedSame(w, before, v);
  }

  /** The record that was written names the routes the loop has used. */
  lemma ProviderExplains(w: Scene, v: View, r: Outcome, s: BossState, ended: BossState)
    requires w.m in w.origin.missions && Reports(w, v, r) && r.Returned? && r.terminal.Blocked? && ProviderFailed(v.last)
    requires v.asked.FromBoss? && v.cycle - 1 <= r.cycles <= v.cycle
    requires NoRouteIn(w.config, s) && ended.fallbackHistory == s.fallbackHistory && ended.assignment == s.assignment
    requires ReadState(w.config.readers, r.row.plan) == Bounded(w.config.readers, ended)
    ensures Explained(w, v, r)
  {
    hide FirstRecord, ReadState, SelectFallback, HandsBack, Used, BoundedHops, Clean, Cut, Cleaned, BoundedFeedback;
    BoundedUsed(s.fallbackHistory, RouteOf(s.assignment));
    SameFallback(w.config.entries, s.fallbackHistory, BoundedHops(s.fallbackHistory), s.assignment.value.routeId);
  }

  lemma BoundedUsed(hops: seq<Hop>, current: Option<RouteId>)
    ensures Used(BoundedHops(hops), current) == Used(hops, current)
  {
    hide Used;
    forall r ensures r in Used(BoundedHops(hops), current) <==> r in Used(hops, current) {
      UsedNames(hops, current, r);
      UsedNames(BoundedHops(hops), current, r);
      assert forall i | 0 <= i < |hops| :: BoundedHops(hops)[i] == BoundedHop(hops[i]);
    }
  }

  lemma {:induction false} SameFallback(entries: seq<Route>, a: seq<Hop>, b: seq<Hop>, current: RouteId)
    requires Used(a, Some(current)) == Used(b, Some(current))
    ensures SelectFallback(entries, a, current) == SelectFallback(entries, b, current)
  {
    hide Used;
    if entries != [] { SameFallback(entries[1..], a, b, current); }
  }

  /** A record with a diagnostic, when there is one. */
  function Noted(s: BossState, invocation: Option<Json>): BossState {
    if invocation.Some? then s.(lastInvocation := invocation) else s
  }

  function Merged(config: Config, before: Option<Json>, usage: Option<Json>): Option<Json> {
    var merged := config.mergeUsage(before, usage);
    if merged.Some? then merged else before
  }

  /** The record after a reply: token usage counts unless no reply came, and a failure leaves its diagnostic. */
  function Observed(config: Config, s: BossState, turn: Turn): BossState {
    match turn.decision
    case Resolved(_) => s.(tokenUsage := Merged(config, s.tokenUsage, turn.usage))
    case Rejected(OtherCause(message, actionable)) =>
      Noted(s.(tokenUsage := Merged(config, s.tokenUsage, turn.usage)), config.diagnostic(OtherCause(message, actionable), None))
    case Rejected(Infrastructure(message)) => Noted(s, config.diagnostic(Infrastructure(message), None))
    case _ => s
  }

  /** The reply that led to this result. */
  function ReplyOf(r: Invoked): Awaited<BossDecision>
    requires !r.Broke?
  {
    if r.Decided? then Resolved(r.decision) else Awaited.Rejected(r.failure)
  }

  predicate ReplyUsable(r: Invoked) { r.Decided? || (r.Undecided? && r.failure.OtherCause?) }

  /** Where in the run a cancellation was noticed. */
  datatype Moment = Outset | BeforeCycle | Planning | BeforeWork | Working | Verifying | BeforeEvaluation | Evaluating

  function CancelReason(when: Moment): Text {
    match when
    case Outset => "Mission cancelled by user or AbortSignal"
    case BeforeCycle => "Mission cancelled before the next Boss cycle"
    case Planning => "Mission cancelled during Boss planning"
    case BeforeWork => "Mission cancelled before worker dispatch"
    case Working => "Mission cancelled during worker progression"
    case Verifying => "Mission cancelled during verification progression"
    case BeforeEvaluation => "Mission cancelled before Boss evaluation"
    case Evaluating => "Mission cancelled during Boss evaluation"
  }

  /** Why a mission is blocked when the provider fails and no route is left. */
  function Unavailable(when: Moment, message: Text): Text {
    message + (if when.Evaluating? then " during evaluation" else "") + "; no configured fallback remains"
  }

  /** Why a run ends without a completion, a cancellation or a failure. */
  datatype Why = Said(summary: Text) | Repeated(message: Text) | NoPlan | NoEvaluation | BudgetSpent | NoCycles | SameRefusal | NoRoute | NotCapable

  function Reason(why: Why): Text {
    match why
    case Said(summary) => summary
    case Repeated(message) => "Boss planning repeated identical protocol failure: " + message
    case NoPlan => "Boss planning did not produce a valid actionable plan"
    case NoEvaluation => "Boss evaluation did not complete within the safety bound"
    case BudgetSpent => "Mission safety budget exhausted before the goal and acceptance criteria were proven"
    case NoCycles => "Mission loop ended without a terminal acceptance decision"
    case SameRefusal => "Identical rejection and repair strategy repeated"
    case NoRoute => "Boss profile is disabled, unconfigured, or has no eligible weighted route"
    case NotCapable => "capability mismatch"
  }

  /** A justified claim of completion: the gates are open, and nobody has moved the mission on. */
  predicate Earned(db: Database, m: Id, revision: nat, decision: BossDecision) {
    decision.action.Complete? && decision.acceptanceSatisfied && AllVerified(db, m) &&
    m in db.missions && db.missions[m].revision == revision &&
    (db.missions[m].status.Running? || db.missions[m].status.AwaitingReview?)
  }

  lemma EarnedCanEnd(db: Database, m: Id, revision: nat, decision: BossDecision)
    requires Inv(db)
    ensures Earned(db, m, revision, decision) ==> CanEnd(db, m, revision, MissionStatus.Completed)
  {
    hide AllVerified, Completable, Inv;
    GatesAgree(db, m);
  }

  lemma EarnedIsCurrent(db: Database, m: Id, revision: nat, decision: BossDecision)
    ensures Earned(db, m, revision, decision) ==> m in db.missions && db.missions[m].revision == revision
  {
    hide AllVerified;
  }

  /** Writing the record keeps the claim, at the new revision. */
  lemma EarnedKept(a: Database, b: Database, m: Id, r: nat, s: nat, decision: BossDecision)
    requires a.tasks == b.tasks && a.quality == b.quality && m in a.missions && m in b.missions
    requires a.missions[m].status == b.missions[m].status
    ensures Earned(a, m, r, decision) && b.missions[m].revision == s ==> Earned(b, m, s, decision)
  {
    hide AllVerified;
    if AllVerified(a, m) { SameVerified(a, b, m); }
  }

  lemma SameVerified(a: Database, b: Database, m: Id)
    requires a.tasks == b.tasks && a.quality == b.quality && AllVerified(a, m)
    ensures AllVerified(b, m)
  {}

  /** Feedback for the Boss. */
  function Note(kind: Text, summary: Text): Json { Obj(map["kind" := Str(kind), "summary" := Str(summary)]) }

  lemma PromoteCalled(db: Database, now: Time, e: Id, itemId: Id, options: Ops.PromoteOptions)
    ensures Ops.Apply(db, now, Ops.OpPromote(e, itemId, options)) == Ops.PromoteEvidence(db, now, e, itemId, options)
  {}

  /** The worker's turn ended in a cancellation, or in an abort. */
  predicate StopsWork(turn: Turn) {
    turn.aborts || (turn.outcome.Rejected? && turn.outcome.failure.CancellationCause?) ||
    (turn.outcome.Resolved? && turn.outcome.value.Cancelled?)
  }

  predicate SafetyStops(turn: Turn) { turn.outcome.Rejected? && turn.outcome.failure.SafetyCause? }

  predicate StillOurs(before: map<Id, Evidence>, after: map<Id, Evidence>, e: Id)
    requires e in before
  {
    e in after && after[e].mission == before[e].mission
  }

  lemma EvidenceStays(a: Database, b: Database)
    requires Keeps(a, b)
    ensures forall e | e in a.evidence :: StillOurs(a.evidence, b.evidence, e)
  {
    hide Inv;
  }

  lemma SameRefusalOf(w: Scene, reply: Awaited<Verified>, a: View, b: View, t: Id, instruction: Text)
    requires a.turns > 0 && a.turns == b.turns && a.db == b.db && a.revision == b.revision && a.aborted == b.aborted
    ensures RefusalOf(w, reply, a, t, instruction) == RefusalOf(w, reply, b, t, instruction)
  {
    hide Fingerprint;
  }

  lemma CreateKeeps(db: Database, now: Time, m: Id, op: Ops.Op)
    requires Inv(db) && m in db.missions
    ensures var next := Ops.Apply(db, now, op).db; Inv(next) && m in next.missions
  {
    hide Inv, Keeps, Ops.Apply;
    ApplyOk(db, now, op);
    StillThere(db, Ops.Apply(db, now, op).db, m);
  }

  /** A new row is one the plan names only if it has the id that was named. */
  lemma CreatedSuits(db: Database, now: Time, m: Id, spec: TaskSpec, t: Id)
    requires !Names(db, m, spec)
    ensures var r := Ops.Apply(db, now, Ops.OpCreateTask(t, DraftOf(m, spec)));
      r.thrown.None? && Names(r.db, m, spec) ==> spec.taskId == Some(t)
  {}

  lemma CreatedFiles(w: Scene, db: Database, now: Time, t: Id, spec: TaskSpec)
    ensures var next := Ops.Apply(db, now, Ops.OpCreateTask(t, DraftOf(w.m, spec))).db;
      next.missions == db.missions && forall s :: FiledAs(w, next, s) <==> FiledAs(w, db, s)
  {
    hide ReadState, Bounded;
  }

  function Later(tasks: map<Id, Task>, t: Id): set<Id>
    requires t in tasks
  {
    set u | u in tasks && TaskBefore(tasks, t, u)
  }

  /** Among the live tasks of one identity there is one that counts. */
  lemma {:induction false} OneCounts(tasks: map<Id, Task>, m: Id, t: Id)
    requires Live(tasks, m, t)
    ensures exists u :: IsActive(tasks, m, u) && SameIdentity(tasks[u], tasks[t])
    decreases if t in tasks then Later(tasks, t) else {}
  {
    if !IsActive(tasks, m, t) {
      var u :| u in tasks && Live(tasks, m, u) && SameIdentity(tasks[u], tasks[t]) && TaskBefore(tasks, t, u);
      assert u in Later(tasks, t) && u !in Later(tasks, u) && Later(tasks, u) <= Later(tasks, t);
      OneCounts(tasks, m, u);
    }
  }

  /** A task is created only where all live ones of its identity are running, so the mission is not verified then. */
  lemma CreatedUnverified(db: Database, now: Time, m: Id, spec: TaskSpec, t: Id)
    requires forall u | u in db.tasks :: Matches(db.tasks, m, spec, u) ==> db.tasks[u].status.Running?
    ensures var r := Ops.Apply(db, now, Ops.OpCreateTask(t, DraftOf(m, spec))); r.thrown.None? ==> !AllVerified(r.db, m)
  {
    var r := Ops.Apply(db, now, Ops.OpCreateTask(t, DraftOf(m, spec)));
    if r.thrown.None? {
      OneCounts(r.db.tasks, m, t);
      var u :| IsActive(r.db.tasks, m, u) && SameIdentity(r.db.tasks[u], r.db.tasks[t]);
      assert u in ActiveTasks(r.db.tasks, m) && (u == t || Matches(db.tasks, m, spec, u));
    }
  }

  lemma PromoteEffect(db: Database, now: Time, m: Id, e: Id, itemId: Id, options: Ops.PromoteOptions)
    requires Inv(db) && m in db.missions
    ensures var r := Ops.PromoteEvidence(db, now, e, itemId, options);
      && Ops.Apply(db, now, Ops.OpPromote(e, itemId, options)) == r
      && Inv(r.db) && m in r.db.missions && forall e | e in db.evidence :: StillOurs(db.evidence, r.db.evidence, e)
  {
    hide Inv, Keeps, Ops.PromoteEvidence, Ops.Apply;
    PromoteCalled(db, now, e, itemId, options);
    ApplyOk(db, now, Ops.OpPromote(e, itemId, options));
    StillThere(db, Ops.Apply(db, now, Ops.OpPromote(e, itemId, options)).db, m);
    EvidenceStays(db, Ops.Apply(db, now, Ops.OpPromote(e, itemId, options)).db);
  }

  /** How often the loop has recorded a refusal once it comes in with this fingerprint. */
  function NextCount(s: BossState, fingerprint: Text): nat {
    if s.lastFingerprint == Some(fingerprint) then s.repeatedRejections.GetOr(1) + 1 else 1
  }

  /** The record with its terminal fields set. */
  function Ended(s: BossState, t: Terminal, reason: Text, provenance: Option<Text>): BossState {
    s.(terminal := Some(t), terminalReason := Some(Take(reason, 240)),
       terminalProvenance := if provenance.Some? then Some(Take(provenance.value, 64)) else s.terminalProvenance)
  }

  lemma EndingIsRecorded(readers: Readers, s: BossState, t: Terminal, reason: Text, provenance: Option<Text>)
    ensures Bounded(readers, Ended(s, t, reason, provenance)).terminal == Some(t)
  {
    hide BoundedHops, Clean, Cut, Cleaned, BoundedFeedback;
  }

  lemma PersistFrame(db: Database, now: Time, m: Id, revision: nat, plan: Json)
    ensures var r := Ops.UpdateMission(db, now, m, PlanPatch(plan), Some(revision));
      r.Ok? ==> r.value == db.(missions := r.value.missions, revisions := r.value.revisions) &&
                 m in r.value.missions && m in db.missions && SameGoal(r.value.missions[m], db.missions[m])
  {}

  predicate SameGoal(a: Mission, b: Mission) { a.goal == b.goal && a.acceptanceCriteria == b.acceptanceCriteria }

  /** A mission that may be set running by whoever knows its revision. */
  predicate CanStart(db: Database, m: Id, revision: nat) {
    m in db.missions && db.missions[m].revision == revision && CanTransition(db.missions[m].status, MissionStatus.Running)
  }

  lemma StartEffect(db: Database, now: Time, m: Id, revision: nat)
    requires Inv(db) && m in db.missions
    ensures var r := Ops.TransitionMission(db, now, m, MissionStatus.Running, Boss, Some(revision));
      && (r.Ok? <==> CanStart(db, m, revision))
      && (r.Ok? ==> Keeps(db, r.value) && m in r.value.missions && r.value.missions[m] == Ops.Enter(db.missions[m], now, MissionStatus.Running))
  {
    hide Inv, Evolves, Completable;
    if db.missions[m].revision == revision { TransitionEffect(db, now, m, MissionStatus.Running, revision); }
    TransitionMissionOk(db, now, m, MissionStatus.Running, Boss, Some(revision));
  }

  lemma CriteriaWritten(db: Database, now: Time, m: Id, criteria: seq<Text>, revision: nat)
    ensures var r := Ops.UpdateMission(db, now, m, Ops.NoPatch.(acceptanceCriteria := Some(criteria)), Some(revision));
      r.Ok? ==>
        && m in r.value.missions && m in db.missions
        && r.value.missions[m].goal == db.missions[m].goal && r.value.missions[m].acceptanceCriteria == criteria
  {}

  /** The plan already names an assignment under its current key. */
  predicate HoldsAssignment(plan: Json) {
    "orchestration" in Fields(plan) && "bossAssignment" in Fields(Fields(plan)["orchestration"]) &&
    Fields(Fields(plan)["orchestration"])["bossAssignment"].Obj?
  }

  lemma ChainFromNothing(history: seq<Hop>, next: Option<RouteId>)
    ensures Chain(history, None) ==> Chain(history, next)
  {}

  lemma UnusedShrinks(entries: seq<Route>, history: seq<Hop>, chosen: RouteId)
    ensures |Unused(entries, history, Some(chosen))| <= |Unused(entries, history, None)|
  {
    var a, b := Unused(entries, history, Some(chosen)), Unused(entries, history, None);
    assert a <= b;
    assert b == a + (b - a) && |b| == |a| + |b - a|;
  }

  lemma OneMoreTime(n: nat, k: nat)
    ensures n * (k + 1) == n * k + n
  {}

  lemma Within(n: nat, k: nat, l: nat)
    requires k <= l
    ensures n * k <= n * l
  {}
}
