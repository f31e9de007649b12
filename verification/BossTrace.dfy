/**
 A run of the goal loop as the list of what it did: each of its own calls on
 the store and each await, with what other actors did meanwhile and what the
 callback replied. What holds over whole runs is said about these lists.
 */
module BossTrace {
  import opened Wrappers
  import opened MissionTables
  import opened MissionInvariant
  import opened MissionRuns
  import opened TaskIdentity
  import opened BossState
  import opened BossRoutes
  import opened BossQuality
  import opened BossTerminal
  import Ops = MissionOps

  // ----- what the callbacks may do -----

  datatype Failure =
    | Infrastructure(message: Text)
    | CancellationCause
    | SafetyCause(message: Text, code: Text)
    | OtherCause(message: Text, actionable: bool)

  datatype Awaited<+T> = Resolved(value: T) | Rejected(failure: Failure)

  datatype BossDecision = BossDecision(action: Action, summary: Text, tasks: seq<TaskSpec>, acceptanceSatisfied: bool)

  datatype TaskOutcome = Succeeded | Failed | Blocked | Cancelled

  datatype Verified = Pass | Reject | Blocked | Cancelled

  /**
   One await: what the other actors do meanwhile, whether the run is aborted,
   the time after it, and the reply. A reply the Boss gave in a form that
   cannot be used is an `OtherCause`, and its token usage counts too.
   */
  datatype Turn = Turn(
    steps: seq<Step>, aborts: bool, now: Time,
    decision: Awaited<BossDecision>, usage: Option<Json>, outcome: Awaited<TaskOutcome>, verified: Awaited<Verified>)

  datatype Outcome =
    | Returned(status: MissionStatus, terminal: Terminal, cycles: nat, row: Mission)
    | Threw(error: Error)

  /** The parts of the environment that are plain functions. */
  datatype Config = Config(
    entries: seq<Route>, maxCycles: int, maxTasks: int,
    pick: seq<Route> -> nat,
    digest: RejectionFacts -> Text,
    readers: Readers,
    mergeUsage: (Option<Json>, Option<Json>) -> Option<Json>,
    diagnostic: (Failure, Option<RouteId>) -> Option<Json>,
    criteriaFor: Text -> (seq<Text>, Provenance),
    inferProvenance: (Text, seq<Text>) -> Provenance,
    capable: (Text, seq<Text>) -> bool,
    newId: nat -> Id,
    iso: Time -> Text)

  predicate InRange(c: Config) { 1 <= c.maxCycles <= 16 && 1 <= c.maxTasks <= 32 }

  function HopReason(message: Text): Text { if Blank(message) then "infrastructure failure" else Take(Trim(message), 240) }

  function ActionText(a: Action): Text {
    match a
    case Dispatch => "dispatch"
    case Replan => "replan"
    case Complete => "complete"
    case Blocked => "blocked"
    case AwaitingUser => "awaiting_user"
  }

  /** Where a run starts: the tables, the mission, what surrounds it, and whether it is aborted from the outset. */
  datatype Scene = Scene(origin: Database, m: Id, config: Config, env: nat -> Turn, aborted: bool)

  /** The record a run starts from. */
  function RecordOf(config: Config, row: Mission): BossState { ReadState(config.readers, row.plan) }

  function FirstRecord(w: Scene): BossState {
    if w.m in w.origin.missions then RecordOf(w.config, w.origin.missions[w.m]) else DefaultState
  }

  // ----- events -----

  datatype Event =
    /** A write whose result becomes the loop's copy of the mission, if it is accepted. */
    | Own(step: Step)
    /** Any other call of the loop on the store. */
    | Other(step: Step)
    /** The loop takes the mission as it is now. */
    | Reread
    /** The loop turns to a planned task, which is this row. */
    | Took(spec: TaskSpec, t: Id)
    /** The three awaits. */
    | Asked(phase: Phase)
    | Dispatched(t: Id)
    | Judged(t: Id, instruction: Text)

  /** A recorded refusal: the await it came from, the task, and the tables and the loop's revision at that moment. */
  datatype Refusal = Refusal(turn: nat, t: Id, fingerprint: Text, db: Database, revision: nat)

  /** Whom the loop last waited for, and the reply. */
  datatype Heard =
    | Nothing
    | FromBoss(phase: Phase, decision: Awaited<BossDecision>)
    | FromWorker(outcome: Awaited<TaskOutcome>)
    | FromVerifier(verdict: Awaited<Verified>)

  /** A task that has to be dispatched, unless it was refused before with this fingerprint as often as the threshold says. */
  datatype Due = Due(t: Id, fingerprint: Option<Text>, threshold: nat)

  /** Everything a run has led to so far. */
  datatype View = View(
    db: Database,
    /** The revision of the loop's copy of the mission. */
    revision: nat,
    turns: nat, aborted: bool,
    requests: nat, dispatches: nat, verifications: nat,
    /** The error of the loop's own call just made, if it was refused. */
    refused: Option<Error>,
    /** The number of the next cycle to begin. */
    cycle: nat,
    /** The last reply of the Boss, and the last reply of anyone. */
    asked: Heard, last: Heard,
    /** The tasks of the plan at hand, how many of them the loop has turned to, and the one it has not yet dispatched. */
    planned: seq<TaskSpec>, taken: nat, due: Option<Due>,
    /** The evidence of the work just passed that has yet to be offered for promotion. */
    owed: set<Id>,
    /** The protocol failures and the refusals so far. */
    failures: seq<Text>, refusals: seq<Refusal>)

  function RevisionIn(db: Database, m: Id): nat { if m in db.missions then db.missions[m].revision else 0 }

  function FirstView(w: Scene): View {
    View(w.origin, RevisionIn(w.origin, w.m), 0, w.aborted, 0, 0, 0, None, FirstRecord(w).cycle, Nothing, Nothing, [], 0, None, {}, [], [])
  }

  /** Other actors run any operations while the loop waits. */
  ghost function AfterAwait(w: Scene, v: View): View {
    v.(db := Run(v.db, w.env(v.turns).steps), refused := None, turns := v.turns + 1, aborted := v.aborted || w.env(v.turns).aborts)
  }

  /** A decision or a failure that does not end the run by itself. */
  predicate GoesOn(reply: Awaited<BossDecision>) {
    if reply.Resolved? then !reply.value.action.Blocked? && !reply.value.action.AwaitingUser? else reply.failure.OtherCause?
  }

  predicate ProviderFailed(heard: Heard) {
    heard.FromBoss? && heard.decision.Rejected? && heard.decision.failure.Infrastructure?
  }

  /** Asking for a plan begins a cycle, unless it repeats a request that the provider failed. */
  predicate BeginsCycle(v: View, phase: Phase) { phase.Plan? && !ProviderFailed(v.asked) }

  /** A reply of the Boss that cannot be used is noted by the beginning of its message. */
  function FailureIn(reply: Awaited<BossDecision>, aborted: bool): seq<Text> {
    if reply.Rejected? && reply.failure.OtherCause? && !aborted then [Take(reply.failure.message, 240)] else []
  }

  /** How many of the last failures are the same. */
  function Tail(failures: seq<Text>): nat {
    var n := |failures|;
    if n == 0 then 0 else if n > 1 && failures[n - 2] == failures[n - 1] then Tail(failures[..n - 1]) + 1 else 1
  }

  function PlannedBy(phase: Phase, reply: Awaited<BossDecision>): seq<TaskSpec> {
    if phase.Plan? && reply.Resolved? && GoesOn(reply) then reply.value.tasks else []
  }

  predicate Refuses(reply: Awaited<Verified>) { reply.Resolved? && (reply.value.Reject? || reply.value.Blocked?) }

  /** A verification is refused when its verdict is, it can be told apart by a fingerprint, and the run was not aborted. */
  function RefusalOf(w: Scene, reply: Awaited<Verified>, v: View, t: Id, instruction: Text): seq<Refusal>
    requires v.turns > 0
  {
    var fingerprint := Fingerprint(w.config.digest, v.db, w.m, t, instruction);
    if Refuses(reply) && !v.aborted && fingerprint.Some? then [Refusal(v.turns - 1, t, fingerprint.value, v.db, v.revision)] else []
  }

  /** Evidence the work on a task has proposed. */
  predicate ProposedFor(db: Database, m: Id, t: Id, e: Id) {
    e in db.evidence && db.evidence[e].mission == m && db.evidence[e].task == Some(t) && db.evidence[e].status.Proposed?
  }

  /** A pass owes the task's work the promotion of what it proposed. */
  function OwedFor(w: Scene, v: View, t: Id, reply: Awaited<Verified>): set<Id> {
    if reply == Resolved(Verified.Pass) && !v.aborted then set e | e in v.db.evidence && ProposedFor(v.db, w.m, t, e) else {}
  }

  /** The refusal a verification begun with this view leads to, if any. */
  ghost function Refused(w: Scene, v: View, t: Id, instruction: Text): seq<Refusal> {
    RefusalOf(w, w.env(v.turns).verified, AfterAwait(w, v), t, instruction)
  }

  /** What is left to do about a task the loop turns to: nothing when it is verified already. */
  function DueOn(w: Scene, v: View, spec: TaskSpec, t: Id): Option<Due> {
    if TaskVerified(v.db, t) then None
    else Some(Due(t, Fingerprint(w.config.digest, v.db, w.m, t, spec.objectiveKey), RepeatThreshold(v.db, t)))
  }

  ghost function AfterReply(w: Scene, v: View, phase: Phase): View {
    var next := AfterAwait(w, v);
    var reply := w.env(v.turns).decision;
    next.(requests := v.requests + 1, cycle := v.cycle + (if BeginsCycle(v, phase) then 1 else 0),
          asked := FromBoss(phase, reply), last := FromBoss(phase, reply),
          planned := PlannedBy(phase, reply), taken := 0, failures := v.failures + FailureIn(reply, next.aborted))
  }

  ghost function Next(w: Scene, v: View, e: Event): View {
    match e
    case Own(step) =>
      var r := Ops.Apply(v.db, step.now, step.op);
      v.(db := r.db, refused := r.thrown, revision := if r.thrown.None? then RevisionIn(r.db, w.m) else v.revision)
    case Other(step) =>
      var r := Ops.Apply(v.db, step.now, step.op);
      v.(db := r.db, refused := r.thrown, owed := if step.op.OpPromote? then v.owed - {step.op.e} else v.owed)
    case Reread => v.(refused := None, revision := RevisionIn(v.db, w.m))
    case Took(spec, t) => v.(refused := None, taken := v.taken + 1, due := DueOn(w, v, spec, t))
    case Asked(phase) => AfterReply(w, v, phase)
    case Dispatched(_) => AfterAwait(w, v).(dispatches := v.dispatches + 1, due := None, last := FromWorker(w.env(v.turns).outcome))
    case Judged(t, instruction) =>
      AfterAwait(w, v).(verifications := v.verifications + 1, last := FromVerifier(w.env(v.turns).verified),
                        owed := OwedFor(w, AfterAwait(w, v), t, w.env(v.turns).verified),
                        refusals := v.refusals + Refused(w, v, t, instruction))
  }

  // ----- what the recorded refusals amount to -----

  /** The last fingerprint and how often it was recorded, from the record the run starts from and the refusals since. */
  function Recall(first: BossState, refusals: seq<Refusal>): (Option<Text>, Option<nat>) {
    if refusals == [] then (first.lastFingerprint, first.repeatedRejections)
    else
      var before := Recall(first, refusals[..|refusals| - 1]);
      var fingerprint := refusals[|refusals| - 1].fingerprint;
      (Some(fingerprint), Some(if before.0 == Some(fingerprint) then before.1.GetOr(1) + 1 else 1))
  }

  /** The pending task was refused like this as often as it may be. */
  predicate Exhausts(first: BossState, refusals: seq<Refusal>, due: Due) {
    due.fingerprint.Some? && Recall(first, refusals).0 == due.fingerprint && Recall(first, refusals).1.GetOr(0) >= due.threshold
  }

  /** The last refusal has been recorded as often as it may be. */
  predicate Overdone(first: BossState, refusals: seq<Refusal>) {
    refusals != [] && Recall(first, refusals).1.GetOr(0) >= RepeatThreshold(refusals[|refusals| - 1].db, refusals[|refusals| - 1].t)
  }

  // ----- what the loop may do -----

  /** The reply was the infrastructure failure the hop names as its reason. */
  predicate AnswersFailure(reply: Awaited<BossDecision>, hop: Hop) {
    reply.Rejected? && reply.failure.Infrastructure? && hop.reason == HopReason(reply.failure.message)
  }

  ghost predicate Answered(w: Scene, turns: nat, hop: Hop) { exists n: nat :: n < turns && AnswersFailure(w.env(n).decision, hop) }

  /**
   A record that continues the first one: its fallbacks extend the first
   one's, stay a chain of distinct routes if they were one, and each that is
   new answers an infrastructure failure of this run.
   */
  ghost predicate Sound(w: Scene, turns: nat, s: BossState) {
    var first := FirstRecord(w);
    && (Chain(first.fallbackHistory, RouteOf(first.assignment)) ==> Chain(s.fallbackHistory, RouteOf(s.assignment)))
    && first.fallbackHistory <= s.fallbackHistory
    && forall i | |first.fallbackHistory| <= i < |s.fallbackHistory| :: Answered(w, turns, s.fallbackHistory[i])
  }

  ghost predicate SoundPlan(w: Scene, turns: nat, plan: Json) { Sound(w, turns, ReadState(w.config.readers, plan)) }

  /** The loop's own calls: it writes its mission only over the revision it knows, and only sound records. */
  ghost predicate LoopCall(w: Scene, v: View, op: Ops.Op) {
    match op
    case OpUpdateMission(m, patch, expected) =>
      m == w.m && expected == Some(v.revision) && (patch.plan.Some? ==> SoundPlan(w, v.turns, patch.plan.value))
    case OpTransitionMission(m, _, actor, expected) => m == w.m && actor.Boss? && expected.Some?
    case OpCreateTask(_, draft) => draft.mission == w.m
    case OpPromote(e, _, options) => e in v.db.evidence && v.db.evidence[e].mission == w.m && options.target == Ops.CompletedWork
    case _ => false
  }

  predicate JustTook(trace: seq<Event>, spec: TaskSpec, t: Id) { |trace| >= 1 && trace[|trace| - 1] == Took(spec, t) }

  predicate JustDispatched(trace: seq<Event>, spec: TaskSpec, t: Id) {
    |trace| >= 2 && trace[|trace| - 2] == Took(spec, t) && trace[|trace| - 1] == Dispatched(t)
  }

  /** The next task of the plan at hand, and still within the bound. */
  predicate IsNextTask(w: Scene, v: View, spec: TaskSpec) {
    v.taken < |v.planned| && v.taken < w.config.maxTasks && spec == v.planned[v.taken]
  }

  /** The row the plan names, or one with the identity of the planned task. */
  predicate Suits(db: Database, m: Id, spec: TaskSpec, t: Id) {
    if Names(db, m, spec) then t == spec.taskId.value else Matches(db.tasks, m, spec, t)
  }

  /** A worker's reply that leaves its work to be verified. */
  predicate WorkEnded(outcome: Awaited<TaskOutcome>) {
    if outcome.Resolved? then !outcome.value.Cancelled? else !outcome.failure.CancellationCause? && !outcome.failure.SafetyCause?
  }

  /** A record the mission's row holds, up to the bounds within which it is read back. */
  predicate FiledAs(w: Scene, db: Database, s: BossState) {
    w.m in db.missions && RecordOf(w.config, db.missions[w.m]) == Bounded(w.config.readers, s)
  }

  /** A record that tells of this reply. */
  predicate Tells(s: BossState, phase: Phase, reply: Awaited<BossDecision>) {
    match reply
    case Resolved(decision) => s.lastDecision == Some(LastDecision(phase, ActionText(decision.action), decision.summary))
    case Rejected(Infrastructure(_)) => s.fallbackHistory != [] && AnswersFailure(reply, s.fallbackHistory[|s.fallbackHistory| - 1])
    case Rejected(OtherCause(message, _)) => s.lastProtocolError == Some(Take(message, 240))
    case _ => true
  }

  /** If the Boss was heard last, its reply is on file. */
  ghost predicate OnFile(w: Scene, v: View) {
    v.last.FromBoss? ==> exists s :: FiledAs(w, v.db, s) && Tells(s, v.last.phase, v.last.decision)
  }

  /** A run that starts from what is on file takes up this cycle, and knows of all failures and refusals so far. */
  ghost predicate Resumable(w: Scene, v: View) {
    exists s :: FiledAs(w, v.db, s) && s.cycle == v.cycle && Recorded(FirstRecord(w), v.refusals, s) &&
      s.protocolFailures == FirstRecord(w).protocolFailures + |v.failures|
  }

  /** The last thing heard is a claim of completion that the gates bear out. */
  predicate Justified(w: Scene, v: View) { BossSaid(v.last, Complete) && v.last.decision.value.acceptanceSatisfied && AllVerified(v.db, w.m) }

  /**
   Nothing is left half done: no call was refused unless it was about a
   verdict, no evidence is owed, what the Boss said last is on file, and
   nothing heard has ended the run.
   */
  ghost predicate MayGoOn(w: Scene, v: View) {
    && !v.aborted && v.due.None? && v.owed == {} && !v.last.FromWorker? && (v.refused.Some? ==> v.last.FromVerifier?)
    && (v.last.FromVerifier? && v.last.verdict.Rejected? ==>
          !v.last.verdict.failure.CancellationCause? && !v.last.verdict.failure.SafetyCause?)
    && !Justified(w, v) && OnFile(w, v)
  }

  /** What was heard last has been put on file and does not complete the mission, and no call was refused since. */
  ghost predicate Unhindered(w: Scene, v: View) { v.refused.None? && !Justified(w, v) && OnFile(w, v) }

  lemma JustifiedSame(w: Scene, a: View, b: View)
    requires a.last == b.last && a.db.tasks == b.db.tasks && a.db.quality == b.db.quality
    ensures Justified(w, a) <==> Justified(w, b)
  {}

  /** Every task of the plan has been turned to, up to the bound. */
  predicate WorkedOff(w: Scene, v: View) { v.taken == |v.planned| <= w.config.maxTasks || v.taken == w.config.maxTasks <= |v.planned| }

  /** Another cycle is left to the run, and the one before it is over. */
  predicate MayBegin(w: Scene, v: View) {
    v.cycle < w.config.maxCycles && !ProviderFailed(v.asked) &&
    (v.asked.FromBoss? ==> GoesOn(v.asked.decision) && (v.asked.phase.Plan? ==> v.asked.decision.Rejected?))
  }

  /**
   A plan is asked for at the start of a cycle that is left to the run, once
   the record is such that a new run would start there too; an evaluation
   once the plan is worked off; and either again when the provider failed.
   */
  ghost predicate MayAsk(w: Scene, v: View, phase: Phase) {
    if ProviderFailed(v.asked) then v.asked.phase == phase
    else
      match phase
      case Plan => MayBegin(w, v) && Resumable(w, v)
      case Evaluate => v.asked.FromBoss? && v.asked.phase.Plan? && v.asked.decision.Resolved? && GoesOn(v.asked.decision) && WorkedOff(w, v)
  }

  /** After `trace`, with this view, the loop may do `e`. */
  ghost predicate Allowed(w: Scene, v: View, trace: seq<Event>, e: Event) {
    match e
    case Own(step) => LoopCall(w, v, step.op)
    case Other(step) => LoopCall(w, v, step.op)
    case Reread => true
    case Took(spec, t) => MayGoOn(w, v) && IsNextTask(w, v, spec) && Live(v.db.tasks, w.m, t) && Suits(v.db, w.m, spec, t)
    case Asked(phase) => MayGoOn(w, v) && MayAsk(w, v, phase)
    case Dispatched(t) =>
      !v.aborted && (exists spec :: JustTook(trace, spec, t)) &&
      !v.last.FromWorker? && v.due.Some? && v.due.value.t == t && !Exhausts(FirstRecord(w), v.refusals, v.due.value)
    case Judged(t, instruction) =>
      !v.aborted && (exists spec :: JustDispatched(trace, spec, t) && spec.objectiveKey == instruction) &&
      v.last.FromWorker? && WorkEnded(v.last.outcome)
  }

  ghost predicate FollowsAt(w: Scene, trace: seq<Event>, views: seq<View>, i: nat)
    requires i < |trace| && |views| == |trace| + 1
  {
    Allowed(w, views[i], trace[..i], trace[i]) && views[i + 1] == Next(w, views[i], trace[i])
  }

  /** The views begin where the run starts, and each event is allowed and leads from one to the next. */
  ghost predicate Traced(w: Scene, trace: seq<Event>, views: seq<View>) {
    && |views| == |trace| + 1 && views[0] == FirstView(w)
    && forall i: nat :: i < |trace| ==> FollowsAt(w, trace, views, i)
  }

  lemma NothingYet(w: Scene)
    ensures Traced(w, [], [FirstView(w)])
  {}

  lemma OneMore(w: Scene, trace: seq<Event>, views: seq<View>, e: Event)
    requires Traced(w, trace, views) && Allowed(w, views[|trace|], trace, e)
    ensures Traced(w, trace + [e], views + [Next(w, views[|trace|], e)])
  {
    hide Next, Allowed;
    var longer, all := trace + [e], views + [Next(w, views[|trace|], e)];
    forall i: nat | i < |longer| ensures FollowsAt(w, longer, all, i) {
      if i < |trace| {
        assert FollowsAt(w, trace, views, i);
        assert longer[..i] == trace[..i];
      } else {
        assert longer[..i] == trace;
      }
    }
  }

  // ----- what holds of every trace -----

  lemma NextKeeps(w: Scene, v: View, e: Event)
    requires Inv(v.db)
    ensures Keeps(v.db, Next(w, v, e).db)
  {
    hide Inv, Evolves, Ops.Apply, Run;
    KeepsReflexive(v.db);
    if e.Own? || e.Other? { ApplyOk(v.db, e.step.now, e.step.op); }
    if e.Asked? || e.Dispatched? || e.Judged? { RunKeeps(v.db, w.env(v.turns).steps); }
  }

  /** What the tables showed at one point, they keep to any later one. */
  lemma {:induction false} ViewsKeep(w: Scene, trace: seq<Event>, views: seq<View>, i: nat, j: nat)
    requires Inv(w.origin) && Traced(w, trace, views) && i <= j <= |trace|
    ensures Keeps(views[i].db, views[j].db)
    decreases j
  {
    hide Inv, Evolves, FollowsAt;
    if j == 0 {
      KeepsReflexive(w.origin);
    } else {
      ViewsKeep(w, trace, views, 0, j - 1);
      assert FollowsAt(w, trace, views, j - 1);
      ViewAdvances(w, trace, views, j - 1);
      if i < j {
        ViewsKeep(w, trace, views, i, j - 1);
        KeepsTransitive(views[i].db, views[j - 1].db, views[j].db);
      } else {
        KeepsReflexive(views[j].db);
      }
    }
  }

  lemma ViewAdvances(w: Scene, trace: seq<Event>, views: seq<View>, i: nat)
    requires i < |trace| && |views| == |trace| + 1 && FollowsAt(w, trace, views, i) && Inv(views[i].db)
    ensures Keeps(views[i].db, views[i + 1].db)
  {
    hide Inv, Keeps, Next, Allowed;
    NextKeeps(w, views[i], trace[i]);
  }

  /** At some point of the run the tables showed the mission cancelled. */
  ghost predicate EverCancelled(views: seq<View>, m: Id) { exists v :: v in views && HasStatus(v.db, m, MissionStatus.Cancelled) }

  lemma CancelledStays(w: Scene, trace: seq<Event>, views: seq<View>)
    requires Inv(w.origin) && Traced(w, trace, views) && EverCancelled(views, w.m)
    ensures HasStatus(views[|trace|].db, w.m, MissionStatus.Cancelled)
  {
    hide Inv, Evolves, FollowsAt;
    var v :| v in views && HasStatus(v.db, w.m, MissionStatus.Cancelled);
    var i :| 0 <= i < |views| && views[i] == v;
    ViewsKeep(w, trace, views, 0, i);
    ViewsKeep(w, trace, views, i, |trace|);
    RowsAdvance(views[i].db, views[|trace|].db, w.m);
  }

  /** Every await is of one of the three kinds, and every dispatch but one still under way is verified once. */
  lemma {:induction false} AwaitsCounted(w: Scene, trace: seq<Event>, views: seq<View>, i: nat)
    requires Traced(w, trace, views) && i <= |trace|
    ensures views[i].turns == views[i].requests + views[i].dispatches + views[i].verifications
    ensures views[i].dispatches == views[i].verifications + (if views[i].last.FromWorker? then 1 else 0)
    ensures FirstRecord(w).cycle <= views[i].cycle <= FirstRecord(w).cycle + views[i].requests
    ensures if views[i].asked.Nothing? then NothingHeard(views[i]) && views[i].aborted == w.aborted && views[i].cycle == FirstRecord(w).cycle
            else views[i].asked.FromBoss? && FirstRecord(w).cycle < views[i].cycle <= w.config.maxCycles
  {
    hide FollowsAt, FirstRecord;
    if i > 0 {
      AwaitsCounted(w, trace, views, i - 1);
      assert FollowsAt(w, trace, views, i - 1);
      CountsAt(w, trace, views, i - 1);
      RoundsAt(w, trace, views, i - 1);
    }
  }

  /** Nothing was asked yet, so nothing was planned, dispatched or verified. */
  predicate NothingHeard(v: View) { v.asked.Nothing? && v.last.Nothing? && v.turns == 0 && v.planned == [] && v.due.None? }

  lemma RoundsAt(w: Scene, trace: seq<Event>, views: seq<View>, i: nat)
    requires i < |trace| && |views| == |trace| + 1 && FollowsAt(w, trace, views, i)
    ensures if trace[i].Asked? then views[i + 1].asked == views[i + 1].last == FromBoss(trace[i].phase, w.env(views[i].turns).decision)
            else views[i + 1].asked == views[i].asked
    ensures views[i + 1].cycle == views[i].cycle + (if trace[i].Asked? && BeginsCycle(views[i], trace[i].phase) then 1 else 0)
    ensures views[i + 1].cycle > views[i].cycle ==> views[i].cycle < w.config.maxCycles
    ensures trace[i].Asked? && views[i].asked.Nothing? ==> views[i + 1].cycle == views[i].cycle + 1
    ensures !trace[i].Asked? && !trace[i].Dispatched? && !trace[i].Judged? ==> views[i + 1].aborted == views[i].aborted
    ensures (trace[i].Took? ==> views[i].planned != []) && (views[i + 1].due.Some? ==> trace[i].Took? || views[i].due.Some?)
    ensures (trace[i].Dispatched? ==> views[i].due.Some?) && (trace[i].Judged? ==> views[i].last.FromWorker?)
    ensures !trace[i].Asked? && !trace[i].Dispatched? && !trace[i].Judged? ==> views[i + 1].last == views[i].last
  {
    hide Ops.Apply, Run, Refused, LoopCall, Live, Suits, FirstRecord, GoesOn, WorkedOff, Exhausts, DueOn, FailureIn,
         PlannedBy;
  }

  lemma CountsAt(w: Scene, trace: seq<Event>, views: seq<View>, i: nat)
    requires i < |trace| && |views| == |trace| + 1 && FollowsAt(w, trace, views, i)
    ensures views[i + 1].requests == views[i].requests + (if trace[i].Asked? then 1 else 0)
    ensures views[i + 1].dispatches == views[i].dispatches + (if trace[i].Dispatched? then 1 else 0)
    ensures views[i + 1].verifications == views[i].verifications + (if trace[i].Judged? then 1 else 0)
    ensures views[i + 1].turns == views[i].turns + (if trace[i].Asked? || trace[i].Dispatched? || trace[i].Judged? then 1 else 0)
    ensures views[i + 1].last.FromWorker? == (trace[i].Dispatched? || (!trace[i].Asked? && !trace[i].Judged? && views[i].last.FromWorker?))
    ensures (trace[i].Dispatched? ==> !views[i].last.FromWorker?) && (trace[i].Judged? ==> views[i].last.FromWorker?)
    ensures trace[i].Asked? ==> !views[i].last.FromWorker?
    ensures views[i].aborted ==> views[i + 1].aborted && views[i + 1].turns == views[i].turns
    ensures trace[i].Asked? ==> views[i + 1].planned == PlannedBy(trace[i].phase, w.env(views[i].turns).decision)
    ensures !trace[i].Asked? ==> views[i + 1].planned == views[i].planned
  {
    hide Ops.Apply, Run, Refused, LoopCall, Live, Suits, PlannedBy;
  }

  /** The plan at hand is the task list of a reply the Boss gave. */
  lemma {:induction false} PlanWasGiven(w: Scene, trace: seq<Event>, views: seq<View>, i: nat)
    requires Traced(w, trace, views) && i <= |trace| && views[i].planned != []
    ensures exists n: nat :: n < views[i].turns && w.env(n).decision.Resolved? && views[i].planned == w.env(n).decision.value.tasks
  {
    hide FollowsAt;
    if i > 0 {
      assert FollowsAt(w, trace, views, i - 1);
      CountsAt(w, trace, views, i - 1);
      if trace[i - 1].Asked? {
        assert w.env(views[i - 1].turns).decision.Resolved?;
      } else {
        PlanWasGiven(w, trace, views, i - 1);
      }
    }
  }

  predicate PlannedTask(w: Scene, n: nat, k: nat) {
    w.env(n).decision.Resolved? && k < |w.env(n).decision.value.tasks| && k < w.config.maxTasks
  }

  /** A worker is only ever sent what the Boss planned: one of the first `maxTasks` tasks of a reply, on a live row. */
  lemma DispatchWasPlanned(w: Scene, trace: seq<Event>, views: seq<View>, i: nat)
    requires Traced(w, trace, views) && i < |trace| && trace[i].Dispatched?
    ensures i > 0 && Live(views[i - 1].db.tasks, w.m, trace[i].t)
    ensures exists n: nat, k: nat :: PlannedTask(w, n, k) && trace[i - 1] == Took(w.env(n).decision.value.tasks[k], trace[i].t)
  {
    hide Live, Suits, FollowsAt;
    assert FollowsAt(w, trace, views, i);
    TookBefore(w, trace, views, i);
    assert FollowsAt(w, trace, views, i - 1);
    TaskAt(w, trace, views, i - 1);
    PlanWasGiven(w, trace, views, i - 1);
    var n: nat :| w.env(n).decision.Resolved? && views[i - 1].planned == w.env(n).decision.value.tasks;
    assert PlannedTask(w, n, views[i - 1].taken);
  }

  lemma TookBefore(w: Scene, trace: seq<Event>, views: seq<View>, i: nat)
    requires i < |trace| && |views| == |trace| + 1 && FollowsAt(w, trace, views, i) && trace[i].Dispatched?
    ensures i > 0 && trace[i - 1].Took? && trace[i - 1].t == trace[i].t
  {
    hide Next;
  }

  lemma TaskAt(w: Scene, trace: seq<Event>, views: seq<View>, i: nat)
    requires i < |trace| && |views| == |trace| + 1 && FollowsAt(w, trace, views, i) && trace[i].Took?
    ensures views[i].taken < |views[i].planned| && views[i].taken < w.config.maxTasks
    ensures trace[i].spec == views[i].planned[views[i].taken] && Live(views[i].db.tasks, w.m, trace[i].t)
  {
    hide Next, Live, Suits;
  }

  /** Once the run is aborted nothing is asked, dispatched or verified any more. */
  lemma {:induction false} NothingAfterAbort(w: Scene, trace: seq<Event>, views: seq<View>, i: nat, j: nat)
    requires Traced(w, trace, views) && i <= j <= |trace| && views[i].aborted
    ensures views[j].aborted && views[j].turns == views[i].turns
    decreases j
  {
    hide FollowsAt;
    if i < j {
      NothingAfterAbort(w, trace, views, i, j - 1);
      assert FollowsAt(w, trace, views, j - 1);
      CountsAt(w, trace, views, j - 1);
    }
  }

  // ----- what the plan says after a write of the loop -----

  lemma {:induction false} HopsAreShort(items: seq<Json>)
    ensures forall i | 0 <= i < |ReadHops(items)| :: |ReadHops(items)[i].reason| <= 240
  {
    if items != [] { HopsAreShort(items[1..]); }
  }

  lemma RecordIsShort(readers: Readers, plan: Json)
    ensures var s := ReadState(readers, plan); forall i | 0 <= i < |s.fallbackHistory| :: |s.fallbackHistory[i].reason| <= 240
  {
    hide ReadHops, ReadAssignment, Clean, BoundedFeedback, Cleaned;
    if plan.Obj? && "orchestration" in plan.fields && plan.fields["orchestration"].Obj? {
      var history := Get(plan.fields["orchestration"].fields, "fallbackHistory");
      if history.Some? && history.value.Arr? { HopsAreShort(history.value.items); }
    }
  }

  lemma SoundHopsAreShort(w: Scene, turns: nat, s: BossState)
    requires Sound(w, turns, s)
    ensures forall i | 0 <= i < |s.fallbackHistory| :: |s.fallbackHistory[i].reason| <= 240
  {
    hide Chain, ReadState, Trim, Blank;
    var first := FirstRecord(w);
    if w.m in w.origin.missions { RecordIsShort(w.config.readers, w.origin.missions[w.m].plan); }
    forall i | 0 <= i < |s.fallbackHistory| ensures |s.fallbackHistory[i].reason| <= 240 {
      if i < |first.fallbackHistory| {
        assert s.fallbackHistory[i] == first.fallbackHistory[i];
      } else {
        assert Answered(w, turns, s.fallbackHistory[i]);
      }
    }
  }

  /** A sound record is still sound when it is read back. */
  lemma SoundWritten(w: Scene, turns: nat, plan: Json, s: BossState)
    requires Sound(w, turns, s)
    ensures SoundPlan(w, turns, PlanWithState(plan, s))
  {
    hide Chain, ReadState, PlanWithState, FirstRecord, Answered, BoundedHops, Clean, Cut, Cleaned, BoundedFeedback;
    SoundHopsAreShort(w, turns, s);
    HopsKeep(s.fallbackHistory);
    ReadWritten(w.config.readers, plan, s);
    ChainSurvivesReentry(w.config.readers, plan, s);
  }

  /** An accepted write of the loop's record. */
  ghost predicate WritesRecord(v: View, e: Event) {
    (e.Own? || e.Other?) && e.step.op.OpUpdateMission? && e.step.op.patch.plan.Some? && Ops.Apply(v.db, e.step.now, e.step.op).thrown.None?
  }

  /** What a new run would read from the mission after any such write continues the first record. */
  lemma WrittenRecordIsSound(w: Scene, trace: seq<Event>, views: seq<View>, i: nat)
    requires Traced(w, trace, views) && i < |trace| && WritesRecord(views[i], trace[i])
    ensures w.m in views[i + 1].db.missions && Sound(w, views[i + 1].turns, RecordOf(w.config, views[i + 1].db.missions[w.m]))
  {
    hide Sound, ReadState;
    assert FollowsAt(w, trace, views, i);
  }

  /**
   A run that is cut off after it has asked for a plan is taken up where it
   stopped: a run that starts from the tables as they were then begins with
   the same cycle.
   */
  lemma RestartTakesUp(w: Scene, trace: seq<Event>, views: seq<View>, i: nat, later: Scene)
    requires Traced(w, trace, views) && i < |trace| && trace[i].Asked? && trace[i].phase.Plan? && !ProviderFailed(views[i].asked)
    requires InRange(w.config) && later.origin == views[i].db && later.m == w.m && later.config == w.config
    ensures FirstView(later).cycle == views[i].cycle < w.config.maxCycles
  {
    hide Sound, ReadState, Recall, LoopCall, Next, GoesOn, Justified, OnFile, BoundedHops, Clean, Cut, Cleaned,
         BoundedFeedback;
    assert FollowsAt(w, trace, views, i);
    var s :| FiledAs(w, views[i].db, s) && s.cycle == views[i].cycle;
  }

  // ----- what the recorded refusals say -----

  /** The loop's record carries what the refusals amount to. */
  predicate Recorded(first: BossState, refusals: seq<Refusal>, s: BossState) {
    (s.lastFingerprint, s.repeatedRejections) == Recall(first, refusals)
  }

  predicate HandedBack(r: Option<Outcome>) { r.Some? && r.value.Returned? && r.value.terminal.AwaitingUser? }

  /**
   No refusal has been recorded as often as it may be, unless the store would
   not let the run end there, or the run did end there with the mission back
   at the user.
   */
  predicate Settled(first: BossState, refusals: seq<Refusal>, m: Id, r: Option<Outcome>) {
    forall i | 0 < i <= |refusals| ::
      (Overdone(first, refusals[..i]) && CanEnd(refusals[i - 1].db, m, refusals[i - 1].revision, AwaitingReview))
      ==> (i == |refusals| && HandedBack(r))
  }

  lemma StaysSettled(first: BossState, refusals: seq<Refusal>, m: Id, r: Option<Outcome>)
    requires Settled(first, refusals, m, None)
    ensures Settled(first, refusals, m, r)
  {}

  lemma OneMoreRefusal(first: BossState, refusals: seq<Refusal>, m: Id, next: Refusal, r: Option<Outcome>)
    requires Settled(first, refusals, m, None)
    requires (Overdone(first, refusals + [next]) && CanEnd(next.db, m, next.revision, AwaitingReview)) ==> HandedBack(r)
    ensures Settled(first, refusals + [next], m, r)
  {
    hide CanEnd, Overdone;
    var all := refusals + [next];
    assert all[..|all|] == all;
    assert forall i | 0 < i <= |refusals| :: all[..i] == refusals[..i] && all[i - 1] == refusals[i - 1];
  }

  lemma OneMoreRecalled(first: BossState, refusals: seq<Refusal>, next: Refusal)
    ensures Recall(first, refusals + [next]) ==
      (Some(next.fingerprint), Some(if Recall(first, refusals).0 == Some(next.fingerprint) then Recall(first, refusals).1.GetOr(1) + 1 else 1))
  {
    assert (refusals + [next])[..|refusals|] == refusals;
  }

  /** The last fingerprint before refusal `i`: the one before it, or for the first that of the stored record, if that counts. */
  function FingerprintBefore(first: BossState, refusals: seq<Refusal>, i: nat): Option<Text>
    requires i <= |refusals|
  {
    if i > 0 then Some(refusals[i - 1].fingerprint) else if first.repeatedRejections == Some(0) then None else first.lastFingerprint
  }

  /** A refusal that repeats the one before it has been recorded as often as it may be. */
  lemma RepeatsAreOverdone(first: BossState, refusals: seq<Refusal>, i: nat)
    requires i < |refusals| && FingerprintBefore(first, refusals, i) == Some(refusals[i].fingerprint)
    ensures Overdone(first, refusals[..i + 1])
  {
    var upTo := refusals[..i + 1];
    assert upTo[..|upTo| - 1] == refusals[..i];
    if i > 0 { RecalledOnce(first, refusals[..i]); }
  }

  lemma RecalledOnce(first: BossState, refusals: seq<Refusal>)
    requires refusals != []
    ensures Recall(first, refusals).0 == Some(refusals[|refusals| - 1].fingerprint)
    ensures Recall(first, refusals).1.Some? && Recall(first, refusals).1.value >= 1
  {}

  // ----- why a run ended -----

  /** The goal and the criteria a run starts with are within the capabilities. */
  predicate Capable(w: Scene)
    requires w.m in w.origin.missions
  {
    w.config.capable(w.origin.missions[w.m].goal, Criteria(w.config, w.origin.missions[w.m]))
  }

  /** The acceptance criteria of a mission: its own, or those its goal suggests. */
  function Criteria(config: Config, row: Mission): seq<Text> {
    if row.acceptanceCriteria == [] then config.criteriaFor(row.goal).0 else row.acceptanceCriteria
  }

  /** No enabled route is left to the run. */
  predicate NoRouteIn(config: Config, s: BossState) {
    s.assignment.Some? && SelectFallback(config.entries, s.fallbackHistory, s.assignment.value.routeId) == None
  }

  predicate BossSaid(heard: Heard, action: Action) { heard.FromBoss? && heard.decision.Resolved? && heard.decision.value.action == action }

  predicate Cancels(heard: Heard) {
    match heard
    case Nothing => false
    case FromBoss(_, d) => d.Rejected? && d.failure.CancellationCause?
    case FromWorker(o) => if o.Rejected? then o.failure.CancellationCause? else o.value.Cancelled?
    case FromVerifier(v) => if v.Rejected? then v.failure.CancellationCause? else v.value.Cancelled?
  }

  predicate Unsafe(heard: Heard) {
    match heard
    case Nothing => false
    case FromBoss(_, d) => d.Rejected? && d.failure.SafetyCause?
    case FromWorker(o) => o.Rejected? && o.failure.SafetyCause?
    case FromVerifier(v) => v.Rejected? && v.failure.SafetyCause?
  }

  /** As many protocol failures in a row were the same as a run bears. */
  predicate FailedAlike(w: Scene, v: View) {
    v.last.FromBoss? && v.last.phase.Plan? && v.last.decision.Rejected? && v.last.decision.failure.OtherCause? &&
    (Tail(v.failures) >= w.config.maxCycles || Tail(v.failures) >= 4)
  }

  /** The last cycle left to the run is over, and nothing it heard ended the run before. */
  predicate CyclesSpent(w: Scene, v: View) {
    v.cycle >= w.config.maxCycles && v.last.FromBoss? && GoesOn(v.last.decision) && !Justified(w, v) &&
    (v.last.phase.Plan? ==> v.last.decision.Rejected?)
  }

  /** The same work was refused for the same reason too often: just now, or when it was planned again. */
  predicate RefusedTooOften(w: Scene, v: View) {
    || (v.last.FromVerifier? && Overdone(FirstRecord(w), v.refusals) && v.refusals[|v.refusals| - 1].turn + 1 == v.turns)
    || (v.due.Some? && Exhausts(FirstRecord(w), v.refusals, v.due.value))
  }

  /** Why a mission goes back to the user when the run is in its cycles. */
  predicate HandsBack(w: Scene, v: View, cycles: nat) {
    && v.asked.FromBoss? && cycles == v.cycle
    && (BossSaid(v.last, Action.AwaitingUser) || FailedAlike(w, v) || CyclesSpent(w, v) || RefusedTooOften(w, v))
  }

  /** Why a run may end before it has asked for anything. */
  predicate EndsBeforeCycles(w: Scene, v: View, r: Outcome)
    requires r.Returned? && w.m in w.origin.missions
  {
    v.turns == 0 &&
    match r.terminal
    case Cancelled => w.aborted && r.cycles == FirstRecord(w).cycle
    case Blocked => FirstRecord(w).assignment.None? && SelectEntry(w.config.pick, w.config.entries) == None && r.cycles == 0
    case AwaitingUser =>
      if Capable(w) then FirstRecord(w).cycle >= w.config.maxCycles == r.cycles else r.cycles == FirstRecord(w).cycle
    case _ => false
  }

  /** Why a run may end once it is in its cycles. */
  predicate EndsInCycles(w: Scene, v: View, r: Outcome)
    requires r.Returned?
  {
    && v.asked.FromBoss? && v.cycle - 1 <= r.cycles <= v.cycle
    && match r.terminal
       case Completed => r.cycles == v.cycle && BossSaid(v.last, Complete) && v.last.decision.value.acceptanceSatisfied
       case Cancelled => v.aborted || Cancels(v.last)
       case SafetyStop => Unsafe(v.last)
       case Blocked => BossSaid(v.last, Action.Blocked) || (ProviderFailed(v.last) && NoRouteIn(w.config, RecordOf(w.config, r.row)))
       case AwaitingUser => HandsBack(w, v, r.cycles)
       case Interrupted => false
  }

  /** An error thrown is that of the loop's own call just refused, and an outcome returned is the one on record. */
  predicate Reports(w: Scene, v: View, r: Outcome) {
    if r.Threw? then v.refused == Some(r.error) else RecordOf(w.config, r.row).terminal == Some(r.terminal)
  }

  /** What a run returns is explained by what it last heard and by what it has counted, and what it throws by a refused call. */
  predicate Explained(w: Scene, v: View, r: Outcome) {
    && Reports(w, v, r)
    && (r.Returned? ==> w.m in w.origin.missions && if v.asked.Nothing? then EndsBeforeCycles(w, v, r) else EndsInCycles(w, v, r))
  }

  /**
   A claim of completion that the gates bear out is not passed over: if it is
   the last thing heard when the run returns, the mission is completed, unless
   the run was aborted.
   */
  lemma ClaimCompletes(w: Scene, v: View, r: Outcome)
    requires Explained(w, v, r) && r.Returned? && v.asked == v.last && v.due.None? && Justified(w, v)
    ensures r.terminal.Completed? || (v.aborted && r.terminal.Cancelled?)
  {
    hide AllVerified, FirstRecord, ReadState, Overdone;
  }
}
