/**
 The goal loop's own record, kept in the mission's plan: how it is written,
 how it is read back after a crash, and what reading back preserves.
 */
module BossState {
  import opened Wrappers
  import opened MissionTables

  type RouteId = Text

  datatype Effort = Auto | Low | Medium | High | XHigh | Max

  datatype Assignment = Assignment(
    routeId: RouteId, remoteModelId: Option<Text>, effort: Effort, weight: int, assignedAt: Text,
    fallbackFrom: Option<RouteId>, fallbackReason: Option<Text>)

  datatype Hop = Hop(fromRoute: RouteId, toRoute: RouteId, reason: Text)

  datatype Action = Dispatch | Replan | Complete | Blocked | AwaitingUser

  datatype Phase = Plan | Evaluate

  /** The action is kept as text: reading back accepts any name. */
  datatype LastDecision = LastDecision(phase: Phase, action: Text, summary: Text)

  datatype Terminal = Completed | Blocked | AwaitingUser | Cancelled | SafetyStop | Interrupted

  datatype Provenance = Explicit | LabelledGoal | DerivedFromGoal

  datatype BossState = BossState(
    cycle: nat,
    repairCycles: nat,
    protocolFailures: nat,
    actionablePlanFailures: nat,
    productiveCycles: nat,
    assignment: Option<Assignment>,
    fallbackHistory: seq<Hop>,
    lastDecision: Option<LastDecision>,
    lastProtocolError: Option<Text>,
    lastFeedback: Option<Json>,
    lastInvocation: Option<Json>,
    tokenUsage: Option<Json>,
    lastFingerprint: Option<Text>,
    repeatedRejections: Option<nat>,
    criteriaProvenance: Option<Provenance>,
    terminal: Option<Terminal>,
    terminalReason: Option<Text>,
    terminalProvenance: Option<Text>)

  const DefaultState: BossState :=
    BossState(0, 0, 0, 0, 0, None, [], None, None, None, None, None, None, None, None, None, None, None)

  /**
   What reading back asks of its helpers: whether a feedback is short enough
   to keep, and what is left of a token count or a diagnostic once cleaned.
   */
  datatype Readers = Readers(fits: Json -> bool, usage: Json -> Option<Json>, invocation: Json -> Option<Json>)

  // ----- JSON pieces -----

  function Put(fields: map<Text, Json>, key: Text, value: Option<Json>): map<Text, Json> {
    if value.Some? then fields[key := value.value] else fields
  }

  function Get(fields: map<Text, Json>, key: Text): Option<Json> {
    if key in fields then Some(fields[key]) else None
  }

  function Take(s: Text, n: nat): Text { if |s| <= n then s else s[..n] }

  function MAX_SAFE(): nat { 9007199254740991 }

  function ReadNat(j: Option<Json>): Option<nat> {
    if j.Some? && j.value.Num? && 0 <= j.value.n <= MAX_SAFE() then Some(j.value.n) else None
  }

  function ReadText(j: Option<Json>): Option<Text> {
    if j.Some? && j.value.Str? then Some(j.value.s) else None
  }

  // ----- writing -----

  function EffortText(e: Effort): Text {
    match e
    case Auto => "auto"
    case Low => "low"
    case Medium => "medium"
    case High => "high"
    case XHigh => "xhigh"
    case Max => "max"
  }

  function WriteText(t: Option<Text>): Option<Json> { if t.Some? then Some(Str(t.value)) else None }

  function WriteAssignment(a: Assignment): Json {
    var f := map["routeId" := Str(a.routeId), "assignedAt" := Str(a.assignedAt), "thinkingEffort" := Str(EffortText(a.effort)),
                 "weight" := Num(a.weight)];
    var f := Put(f, "remoteModelId", WriteText(a.remoteModelId));
    var f := Put(f, "fallbackFromRouteId", WriteText(a.fallbackFrom));
    Obj(Put(f, "fallbackReason", WriteText(a.fallbackReason)))
  }

  function ReadEffort(j: Option<Json>): Effort {
    match ReadText(j)
    case None => Auto
    case Some(t) =>
      if t == "low" then Low else if t == "medium" then Medium else if t == "high" then High
      else if t == "xhigh" then XHigh else if t == "max" then Max else Auto
  }

  function ReadAssignment(j: Option<Json>): Option<Assignment> {
    if j.None? || !j.value.Obj? then None
    else
      var f := j.value.fields;
      var routeId, assignedAt := ReadText(Get(f, "routeId")), ReadText(Get(f, "assignedAt"));
      if routeId.None? || assignedAt.None? then None
      else
        var weight := Get(f, "weight");
        var reason := ReadText(Get(f, "fallbackReason"));
        Some(Assignment(
          routeId.value, ReadText(Get(f, "remoteModelId")), ReadEffort(Get(f, "thinkingEffort")),
          if weight.Some? && weight.value.Num? then weight.value.n else 1, assignedAt.value,
          ReadText(Get(f, "fallbackFromRouteId")), if reason.Some? then Some(Take(reason.value, 240)) else None))
  }

  function BoundedAssignment(a: Assignment): Assignment {
    a.(fallbackReason := if a.fallbackReason.Some? then Some(Take(a.fallbackReason.value, 240)) else None)
  }

  lemma EffortRoundTrip(e: Effort)
    ensures ReadEffort(Some(Str(EffortText(e)))) == e
  {}

  lemma AssignmentRoundTrip(a: Assignment)
    ensures ReadAssignment(Some(WriteAssignment(a))) == Some(BoundedAssignment(a))
  {
    hide EffortText, ReadEffort;
    EffortRoundTrip(a.effort);
  }

  // ----- the other parts of the record -----

  function TrimStart(s: Text): Text {
    if s != "" && Whitespace(s[0]) then TrimStart(s[1..]) else s
  }

  function TrimEnd(s: Text): Text {
    if s != "" && Whitespace(s[|s| - 1]) then TrimEnd(s[..|s| - 1]) else s
  }

  function Trim(s: Text): Text { TrimEnd(TrimStart(s)) }

  /** A string that is not blank, trimmed and then cut. */
  function Clean(t: Option<Text>, n: nat): Option<Text> {
    if t.Some? && Trim(t.value) != "" then Some(Take(Trim(t.value), n)) else None
  }

  function Cut(t: Option<Text>, n: nat): Option<Text> { if t.Some? then Some(Take(t.value, n)) else None }

  function WriteOptionalNat(n: Option<nat>): Option<Json> { if n.Some? then Some(Num(n.value)) else None }

  function SafeNat(n: nat): nat { if n <= MAX_SAFE() then n else 0 }

  function WriteHop(h: Hop): Json { Obj(map["fromRouteId" := Str(h.fromRoute), "toRouteId" := Str(h.toRoute), "reason" := Str(h.reason)]) }

  function ReadHop(j: Json): Option<Hop> {
    if !j.Obj? then None
    else
      var from, target, reason := ReadText(Get(j.fields, "fromRouteId")), ReadText(Get(j.fields, "toRouteId")), ReadText(Get(j.fields, "reason"));
      if from.None? || target.None? || reason.None? then None else Some(Hop(from.value, target.value, Take(reason.value, 240)))
  }

  function BoundedHop(h: Hop): Hop { h.(reason := Take(h.reason, 240)) }

  lemma HopRoundTrip(h: Hop)
    ensures ReadHop(WriteHop(h)) == Some(BoundedHop(h))
  {}

  function WriteHops(hops: seq<Hop>): seq<Json> {
    if hops == [] then [] else [WriteHop(hops[0])] + WriteHops(hops[1..])
  }

  /** Entries that are no hop are dropped. */
  function ReadHops(items: seq<Json>): seq<Hop> {
    if items == [] then []
    else
      var hop := ReadHop(items[0]);
      (if hop.Some? then [hop.value] else []) + ReadHops(items[1..])
  }

  function BoundedHops(hops: seq<Hop>): (bounded: seq<Hop>)
    ensures |bounded| == |hops| && forall i | 0 <= i < |hops| :: bounded[i] == BoundedHop(hops[i])
  {
    seq(|hops|, i requires 0 <= i < |hops| => BoundedHop(hops[i]))
  }

  lemma {:induction false} HopsRoundTrip(hops: seq<Hop>)
    ensures ReadHops(WriteHops(hops)) == BoundedHops(hops)
  {
    hide ReadHop, WriteHop, BoundedHop;
    if hops != [] {
      HopRoundTrip(hops[0]);
      HopsRoundTrip(hops[1..]);
      assert WriteHops(hops)[1..] == WriteHops(hops[1..]);
      assert BoundedHops(hops) == [BoundedHop(hops[0])] + BoundedHops(hops[1..]);
    }
  }

  function PhaseText(p: Phase): Text { if p.Plan? then "plan" else "evaluate" }

  function WriteDecision(d: LastDecision): Json {
    Obj(map["phase" := Str(PhaseText(d.phase)), "action" := Str(d.action), "summary" := Str(d.summary)])
  }

  function ReadDecision(j: Option<Json>): Option<LastDecision> {
    if j.None? || !j.value.Obj? then None
    else
      var phase, action, summary :=
        ReadText(Get(j.value.fields, "phase")), ReadText(Get(j.value.fields, "action")), ReadText(Get(j.value.fields, "summary"));
      if (phase != Some("plan") && phase != Some("evaluate")) || action.None? || summary.None? then None
      else Some(LastDecision(if phase == Some("plan") then Plan else Evaluate, action.value, Take(summary.value, 2000)))
  }

  function BoundedDecision(d: LastDecision): LastDecision { d.(summary := Take(d.summary, 2000)) }

  lemma DecisionRoundTrip(d: LastDecision)
    ensures ReadDecision(Some(WriteDecision(d))) == Some(BoundedDecision(d))
  {}

  function TerminalText(t: Terminal): Text {
    match t
    case Completed => "COMPLETED"
    case Blocked => "BLOCKED"
    case AwaitingUser => "AWAITING_USER"
    case Cancelled => "CANCELLED"
    case SafetyStop => "SAFETY_STOP"
    case Interrupted => "INTERRUPTED"
  }

  function ReadTerminal(j: Option<Json>): Option<Terminal> {
    match ReadText(j)
    case None => None
    case Some(t) =>
      if t == "COMPLETED" then Some(Terminal.Completed) else if t == "BLOCKED" then Some(Terminal.Blocked)
      else if t == "AWAITING_USER" then Some(Terminal.AwaitingUser) else if t == "CANCELLED" then Some(Terminal.Cancelled)
      else if t == "SAFETY_STOP" then Some(Terminal.SafetyStop) else if t == "INTERRUPTED" then Some(Terminal.Interrupted) else None
  }

  lemma TerminalRoundTrip(t: Terminal)
    ensures ReadTerminal(Some(Str(TerminalText(t)))) == Some(t)
  {}

  function ProvenanceText(p: Provenance): Text {
    match p
    case Explicit => "explicit"
    case LabelledGoal => "labelled-goal"
    case DerivedFromGoal => "derived-from-goal"
  }

  function ReadProvenance(j: Option<Json>): Option<Provenance> {
    match ReadText(j)
    case None => None
    case Some(t) =>
      if t == "explicit" then Some(Explicit) else if t == "labelled-goal" then Some(LabelledGoal)
      else if t == "derived-from-goal" then Some(DerivedFromGoal) else None
  }

  lemma ProvenanceRoundTrip(p: Provenance)
    ensures ReadProvenance(Some(Str(ProvenanceText(p)))) == Some(p)
  {}

  // ----- the whole record -----

  function Counters(s: BossState): map<Text, Json> {
    map["cycle" := Num(s.cycle), "repairCycles" := Num(s.repairCycles), "protocolFailures" := Num(s.protocolFailures),
        "actionablePlanFailures" := Num(s.actionablePlanFailures), "productiveCycles" := Num(s.productiveCycles)]
  }

  function WithRoutes(f: map<Text, Json>, s: BossState): map<Text, Json> {
    var f := f["fallbackHistory" := Arr(WriteHops(s.fallbackHistory))];
    Put(f, "bossAssignment", if s.assignment.Some? then Some(WriteAssignment(s.assignment.value)) else None)
  }

  function WithProgress(f: map<Text, Json>, s: BossState): map<Text, Json> {
    var f := Put(f, "lastDecision", if s.lastDecision.Some? then Some(WriteDecision(s.lastDecision.value)) else None);
    var f := Put(f, "lastProtocolError", WriteText(s.lastProtocolError));
    Put(f, "lastFeedback", s.lastFeedback)
  }

  function WithDiagnostics(f: map<Text, Json>, s: BossState): map<Text, Json> {
    Put(Put(f, "lastInvocation", s.lastInvocation), "tokenUsage", s.tokenUsage)
  }

  function WithRejections(f: map<Text, Json>, s: BossState): map<Text, Json> {
    var f := Put(f, "lastRejectionFingerprint", WriteText(s.lastFingerprint));
    var f := Put(f, "repeatedRejectionCount", WriteOptionalNat(s.repeatedRejections));
    Put(f, "acceptanceCriteriaProvenance",
        if s.criteriaProvenance.Some? then Some(Str(ProvenanceText(s.criteriaProvenance.value))) else None)
  }

  function WithTerminal(f: map<Text, Json>, s: BossState): map<Text, Json> {
    var f := Put(f, "terminal", if s.terminal.Some? then Some(Str(TerminalText(s.terminal.value))) else None);
    var f := Put(f, "terminalReason", WriteText(s.terminalReason));
    Put(f, "terminalProvenance", WriteText(s.terminalProvenance))
  }

  function WriteState(s: BossState): (j: Json)
    ensures j.Obj?
  {
    Obj(WithTerminal(WithRejections(WithDiagnostics(WithProgress(WithRoutes(Counters(s), s), s), s), s), s))
  }

  /** Feedback too long to keep is replaced by a mark. */
  function BoundedFeedback(readers: Readers, feedback: Option<Json>): Option<Json> {
    if feedback.None? || readers.fits(feedback.value) then feedback else Some(Obj(map["kind" := Str("truncated-feedback")]))
  }

  function Cleaned(clean: Json -> Option<Json>, j: Option<Json>): Option<Json> { if j.Some? then clean(j.value) else None }

  function ReadRecord(readers: Readers, f: map<Text, Json>): BossState {
    var history := Get(f, "fallbackHistory");
    var current, legacy := Get(f, "bossAssignment"), Get(f, "assignment");
    BossState(
      ReadNat(Get(f, "cycle")).GetOr(0),
      ReadNat(Get(f, "repairCycles")).GetOr(0),
      ReadNat(Get(f, "protocolFailures")).GetOr(0),
      ReadNat(Get(f, "actionablePlanFailures")).GetOr(0),
      ReadNat(Get(f, "productiveCycles")).GetOr(0),
      ReadAssignment(if current.Some? && current.value.Obj? then current else legacy),
      if history.Some? && history.value.Arr? then ReadHops(history.value.items) else [],
      ReadDecision(Get(f, "lastDecision")),
      Clean(ReadText(Get(f, "lastProtocolError")), 240),
      BoundedFeedback(readers, Get(f, "lastFeedback")),
      Cleaned(readers.invocation, Get(f, "lastInvocation")),
      Cleaned(readers.usage, Get(f, "tokenUsage")),
      Clean(ReadText(Get(f, "lastRejectionFingerprint")), 64),
      ReadNat(Get(f, "repeatedRejectionCount")),
      ReadProvenance(Get(f, "acceptanceCriteriaProvenance")),
      ReadTerminal(Get(f, "terminal")),
      Cut(ReadText(Get(f, "terminalReason")), 240),
      Cut(ReadText(Get(f, "terminalProvenance")), 64))
  }

  function PlanWithState(plan: Json, s: BossState): Json {
    Obj(Fields(plan)["orchestration" := WriteState(s)])
  }

  function ReadState(readers: Readers, plan: Json): BossState {
    if plan.Obj? && "orchestration" in plan.fields && plan.fields["orchestration"].Obj?
    then ReadRecord(readers, plan.fields["orchestration"].fields)
    else DefaultState
  }

  /** What reading back makes of a record: every text cut to its bound, every count within the safe integers. */
  function Bounded(readers: Readers, s: BossState): BossState {
    BossState(
      SafeNat(s.cycle), SafeNat(s.repairCycles), SafeNat(s.protocolFailures), SafeNat(s.actionablePlanFailures), SafeNat(s.productiveCycles),
      if s.assignment.Some? then Some(BoundedAssignment(s.assignment.value)) else None,
      BoundedHops(s.fallbackHistory),
      if s.lastDecision.Some? then Some(BoundedDecision(s.lastDecision.value)) else None,
      Clean(s.lastProtocolError, 240),
      BoundedFeedback(readers, s.lastFeedback),
      Cleaned(readers.invocation, s.lastInvocation),
      Cleaned(readers.usage, s.tokenUsage),
      Clean(s.lastFingerprint, 64),
      if s.repeatedRejections.Some? && s.repeatedRejections.value <= MAX_SAFE() then s.repeatedRejections else None,
      s.criteriaProvenance, s.terminal, Cut(s.terminalReason, 240), Cut(s.terminalProvenance, 64))
  }

  // ----- reading back what was written -----

  predicate TerminalKey(k: Text) { k == "terminal" || k == "terminalReason" || k == "terminalProvenance" }

  predicate RejectionKey(k: Text) {
    k == "lastRejectionFingerprint" || k == "repeatedRejectionCount" || k == "acceptanceCriteriaProvenance"
  }

  predicate DiagnosticKey(k: Text) { k == "lastInvocation" || k == "tokenUsage" }

  predicate ProgressKey(k: Text) { k == "lastDecision" || k == "lastProtocolError" || k == "lastFeedback" }

  predicate RouteKey(k: Text) { k == "fallbackHistory" || k == "bossAssignment" }

  lemma TerminalFields(f: map<Text, Json>, s: BossState)
    requires forall k | TerminalKey(k) :: k !in f
    ensures var g := WithTerminal(f, s);
      && Get(g, "terminal") == (if s.terminal.Some? then Some(Str(TerminalText(s.terminal.value))) else None)
      && Get(g, "terminalReason") == WriteText(s.terminalReason)
      && Get(g, "terminalProvenance") == WriteText(s.terminalProvenance)
      && forall k :: !TerminalKey(k) ==> Get(g, k) == Get(f, k)
  {
    hide TerminalText;
    assert TerminalKey("terminal") && TerminalKey("terminalReason") && TerminalKey("terminalProvenance");
  }

  lemma RejectionFields(f: map<Text, Json>, s: BossState)
    requires forall k | RejectionKey(k) :: k !in f
    ensures var g := WithRejections(f, s);
      && Get(g, "lastRejectionFingerprint") == WriteText(s.lastFingerprint)
      && Get(g, "repeatedRejectionCount") == WriteOptionalNat(s.repeatedRejections)
      && Get(g, "acceptanceCriteriaProvenance") ==
           (if s.criteriaProvenance.Some? then Some(Str(ProvenanceText(s.criteriaProvenance.value))) else None)
      && forall k :: !RejectionKey(k) ==> Get(g, k) == Get(f, k)
  {
    hide ProvenanceText;
    assert RejectionKey("lastRejectionFingerprint") && RejectionKey("repeatedRejectionCount") && RejectionKey("acceptanceCriteriaProvenance");
  }

  lemma DiagnosticFields(f: map<Text, Json>, s: BossState)
    requires forall k | DiagnosticKey(k) :: k !in f
    ensures var g := WithDiagnostics(f, s);
      && Get(g, "lastInvocation") == s.lastInvocation && Get(g, "tokenUsage") == s.tokenUsage
      && forall k :: !DiagnosticKey(k) ==> Get(g, k) == Get(f, k)
  {
    assert DiagnosticKey("lastInvocation") && DiagnosticKey("tokenUsage");
  }

  lemma ProgressFields(f: map<Text, Json>, s: BossState)
    requires forall k | ProgressKey(k) :: k !in f
    ensures var g := WithProgress(f, s);
      && Get(g, "lastDecision") == (if s.lastDecision.Some? then Some(WriteDecision(s.lastDecision.value)) else None)
      && Get(g, "lastProtocolError") == WriteText(s.lastProtocolError)
      && Get(g, "lastFeedback") == s.lastFeedback
      && forall k :: !ProgressKey(k) ==> Get(g, k) == Get(f, k)
  {
    hide WriteDecision;
    assert ProgressKey("lastDecision") && ProgressKey("lastProtocolError") && ProgressKey("lastFeedback");
  }

  lemma RouteFields(f: map<Text, Json>, s: BossState)
    requires forall k | RouteKey(k) :: k !in f
    ensures var g := WithRoutes(f, s);
      && Get(g, "fallbackHistory") == Some(Arr(WriteHops(s.fallbackHistory)))
      && Get(g, "bossAssignment") == (if s.assignment.Some? then Some(WriteAssignment(s.assignment.value)) else None)
      && forall k :: !RouteKey(k) ==> Get(g, k) == Get(f, k)
  {
    hide WriteAssignment, WriteHops;
    assert RouteKey("fallbackHistory") && RouteKey("bossAssignment");
  }

  predicate CounterKey(k: Text) {
    k == "cycle" || k == "repairCycles" || k == "protocolFailures" || k == "actionablePlanFailures" || k == "productiveCycles"
  }

  lemma CounterFields(s: BossState)
    ensures var f := Counters(s);
      && Get(f, "cycle") == Some(Num(s.cycle)) && Get(f, "repairCycles") == Some(Num(s.repairCycles))
      && Get(f, "protocolFailures") == Some(Num(s.protocolFailures))
      && Get(f, "actionablePlanFailures") == Some(Num(s.actionablePlanFailures))
      && Get(f, "productiveCycles") == Some(Num(s.productiveCycles))
      && forall k :: !CounterKey(k) ==> Get(f, k) == None
  {}

  lemma CountersApart(k: Text)
    ensures CounterKey(k) ==> !RouteKey(k) && !ProgressKey(k) && !DiagnosticKey(k) && !RejectionKey(k) && !TerminalKey(k)
  {}

  lemma RoutesApart(k: Text)
    ensures RouteKey(k) ==> !ProgressKey(k) && !DiagnosticKey(k) && !RejectionKey(k) && !TerminalKey(k)
  {}

  lemma ProgressApart(k: Text)
    ensures ProgressKey(k) ==> !DiagnosticKey(k) && !RejectionKey(k) && !TerminalKey(k)
  {}

  lemma DiagnosticsApart(k: Text)
    ensures DiagnosticKey(k) ==> !RejectionKey(k) && !TerminalKey(k)
    ensures RejectionKey(k) ==> !TerminalKey(k)
  {}

  lemma KeysApart(k: Text)
    ensures CounterKey(k) ==> !RouteKey(k) && !ProgressKey(k) && !DiagnosticKey(k) && !RejectionKey(k) && !TerminalKey(k)
    ensures RouteKey(k) ==> !ProgressKey(k) && !DiagnosticKey(k) && !RejectionKey(k) && !TerminalKey(k)
    ensures ProgressKey(k) ==> !DiagnosticKey(k) && !RejectionKey(k) && !TerminalKey(k)
    ensures DiagnosticKey(k) ==> !RejectionKey(k) && !TerminalKey(k)
    ensures RejectionKey(k) ==> !TerminalKey(k)
  {
    hide CounterKey, RouteKey, ProgressKey, DiagnosticKey, RejectionKey, TerminalKey;
    CountersApart(k);
    RoutesApart(k);
    ProgressApart(k);
    DiagnosticsApart(k);
  }

  /** The record as its layers are put on. */
  function WithRoutesOnly(s: BossState): map<Text, Json> { WithRoutes(Counters(s), s) }

  function UpToProgress(s: BossState): map<Text, Json> { WithProgress(WithRoutesOnly(s), s) }

  function UpToDiagnostics(s: BossState): map<Text, Json> { WithDiagnostics(UpToProgress(s), s) }

  function UpToRejections(s: BossState): map<Text, Json> { WithRejections(UpToDiagnostics(s), s) }

  /** Each part of the record is found under its own keys, and nowhere else. */
  lemma RecordFields(s: BossState, k: Text)
    ensures var g := WriteState(s).fields;
      && (CounterKey(k) ==> Get(g, k) == Get(Counters(s), k))
      && (RouteKey(k) ==> Get(g, k) == Get(WithRoutesOnly(s), k))
      && (ProgressKey(k) ==> Get(g, k) == Get(UpToProgress(s), k))
      && (DiagnosticKey(k) ==> Get(g, k) == Get(UpToDiagnostics(s), k))
      && (RejectionKey(k) ==> Get(g, k) == Get(UpToRejections(s), k))
      && (!RouteKey(k) && !ProgressKey(k) && !DiagnosticKey(k) && !RejectionKey(k) && !TerminalKey(k) ==> Get(g, k) == Get(Counters(s), k))
  {
    hide WithTerminal, WithRejections, WithDiagnostics, WithProgress, WithRoutes, Counters, Get;
    hide CounterKey, RouteKey, ProgressKey, DiagnosticKey, RejectionKey, TerminalKey;
    Layers(s);
    KeysApart(k);
  }

  lemma Absent(f: map<Text, Json>, k: Text)
    ensures k in f <==> Get(f, k).Some?
  {}

  /** No layer finds its keys already taken. */
  lemma Layers(s: BossState)
    ensures (forall k | RouteKey(k) :: k !in Counters(s)) && (forall k :: !RouteKey(k) ==> Get(WithRoutesOnly(s), k) == Get(Counters(s), k))
    ensures forall k | ProgressKey(k) :: k !in WithRoutesOnly(s)
    ensures forall k :: !ProgressKey(k) ==> Get(UpToProgress(s), k) == Get(WithRoutesOnly(s), k)
    ensures forall k | DiagnosticKey(k) :: k !in UpToProgress(s)
    ensures forall k :: !DiagnosticKey(k) ==> Get(UpToDiagnostics(s), k) == Get(UpToProgress(s), k)
    ensures forall k | RejectionKey(k) :: k !in UpToDiagnostics(s)
    ensures forall k :: !RejectionKey(k) ==> Get(UpToRejections(s), k) == Get(UpToDiagnostics(s), k)
    ensures forall k | TerminalKey(k) :: k !in UpToRejections(s)
    ensures forall k :: !TerminalKey(k) ==> Get(WithTerminal(UpToRejections(s), s), k) == Get(UpToRejections(s), k)
  {
    hide WithTerminal, WithRejections, WithDiagnostics, WithProgress, WithRoutes, Counters, Get;
    hide CounterKey, RouteKey, ProgressKey, DiagnosticKey, RejectionKey, TerminalKey;
    var f, g, h, i, j := Counters(s), WithRoutesOnly(s), UpToProgress(s), UpToDiagnostics(s), UpToRejections(s);
    CounterFields(s);
    forall k | RouteKey(k) ensures k !in f { KeysApart(k); Absent(f, k); }
    RouteFields(f, s);
    forall k | ProgressKey(k) ensures k !in g { KeysApart(k); Absent(f, k); Absent(g, k); }
    ProgressFields(g, s);
    forall k | DiagnosticKey(k) ensures k !in h { KeysApart(k); Absent(f, k); Absent(h, k); }
    DiagnosticFields(h, s);
    forall k | RejectionKey(k) ensures k !in i { KeysApart(k); Absent(f, k); Absent(i, k); }
    RejectionFields(i, s);
    forall k | TerminalKey(k) ensures k !in j { KeysApart(k); Absent(f, k); Absent(j, k); }
    TerminalFields(j, s);
  }

  lemma CountersWritten(s: BossState)
    ensures var g := WriteState(s).fields;
      && Get(g, "cycle") == Some(Num(s.cycle)) && Get(g, "repairCycles") == Some(Num(s.repairCycles))
      && Get(g, "protocolFailures") == Some(Num(s.protocolFailures))
      && Get(g, "actionablePlanFailures") == Some(Num(s.actionablePlanFailures))
      && Get(g, "productiveCycles") == Some(Num(s.productiveCycles))
  {
    hide WriteState, Counters, Get;
    CounterFields(s);
    RecordFields(s, "cycle");
    RecordFields(s, "repairCycles");
    RecordFields(s, "protocolFailures");
    RecordFields(s, "actionablePlanFailures");
    RecordFields(s, "productiveCycles");
  }

  lemma RoutesWritten(s: BossState)
    ensures var g := WriteState(s).fields;
      && Get(g, "fallbackHistory") == Some(Arr(WriteHops(s.fallbackHistory)))
      && Get(g, "bossAssignment") == (if s.assignment.Some? then Some(WriteAssignment(s.assignment.value)) else None)
  {
    hide WriteState, WriteAssignment, WriteHops, WithRoutes, Counters, Get, ProgressKey, DiagnosticKey, RejectionKey,
         TerminalKey;
    Layers(s);
    RouteFields(Counters(s), s);
    RecordFields(s, "fallbackHistory");
    RecordFields(s, "bossAssignment");
  }

  /** Nothing is written under the key older records used for the assignment. */
  lemma LegacyAbsent(s: BossState)
    ensures Get(WriteState(s).fields, "assignment") == None
  {
    hide WriteState, Counters, Get, CounterKey, RouteKey, ProgressKey, DiagnosticKey, RejectionKey, TerminalKey;
    LegacyKeyApart("assignment");
    CounterFields(s);
    RecordFields(s, "assignment");
  }

  lemma LegacyKeyApart(k: Text)
    requires k == "assignment"
    ensures !CounterKey(k) && !RouteKey(k) && !ProgressKey(k) && !DiagnosticKey(k) && !RejectionKey(k) && !TerminalKey(k)
  {
    assert |k| == 10 && k[0] == 'a' && k[1] == 's';
  }

  lemma ProgressWritten(s: BossState)
    ensures var g := WriteState(s).fields;
      && Get(g, "lastDecision") == (if s.lastDecision.Some? then Some(WriteDecision(s.lastDecision.value)) else None)
      && Get(g, "lastProtocolError") == WriteText(s.lastProtocolError)
      && Get(g, "lastFeedback") == s.lastFeedback
  {
    hide WriteState, WriteDecision, WriteText, Get, Counters, WithRoutes, WithProgress;
    Layers(s);
    ProgressFields(WithRoutesOnly(s), s);
    RecordFields(s, "lastDecision");
    RecordFields(s, "lastProtocolError");
    RecordFields(s, "lastFeedback");
  }

  lemma DiagnosticsWritten(s: BossState)
    ensures Get(WriteState(s).fields, "lastInvocation") == s.lastInvocation && Get(WriteState(s).fields, "tokenUsage") == s.tokenUsage
  {
    hide WriteState, Get, Counters, WithRoutes, WithProgress, WithDiagnostics;
    Layers(s);
    DiagnosticFields(UpToProgress(s), s);
    RecordFields(s, "lastInvocation");
    RecordFields(s, "tokenUsage");
  }

  lemma RejectionsWritten(s: BossState)
    ensures var g := WriteState(s).fields;
      && Get(g, "lastRejectionFingerprint") == WriteText(s.lastFingerprint)
      && Get(g, "repeatedRejectionCount") == WriteOptionalNat(s.repeatedRejections)
      && Get(g, "acceptanceCriteriaProvenance") ==
           (if s.criteriaProvenance.Some? then Some(Str(ProvenanceText(s.criteriaProvenance.value))) else None)
  {
    hide WriteState, ProvenanceText, WriteText, WriteOptionalNat, Get, Counters, WithRoutes, WithProgress, WithDiagnostics,
         WithRejections;
    Layers(s);
    RejectionFields(UpToDiagnostics(s), s);
    RecordFields(s, "lastRejectionFingerprint");
    RecordFields(s, "repeatedRejectionCount");
    RecordFields(s, "acceptanceCriteriaProvenance");
  }

  lemma TerminalWritten(s: BossState)
    ensures var g := WriteState(s).fields;
      && Get(g, "terminal") == (if s.terminal.Some? then Some(Str(TerminalText(s.terminal.value))) else None)
      && Get(g, "terminalReason") == WriteText(s.terminalReason)
      && Get(g, "terminalProvenance") == WriteText(s.terminalProvenance)
  {
    hide TerminalText, WriteText, Get, Counters, WithRoutes, WithProgress, WithDiagnostics, WithRejections, WithTerminal;
    Layers(s);
    TerminalFields(UpToRejections(s), s);
  }

  /** Whatever else the plan holds, the record read back is the one written, with its texts and counts bounded. */
  lemma ReadWritten(readers: Readers, plan: Json, s: BossState)
    ensures ReadState(readers, PlanWithState(plan, s)) == Bounded(readers, s)
  {
    hide WriteState, Get, WriteHops, ReadHops, WriteAssignment, ReadAssignment, WriteDecision, ReadDecision, TerminalText, ReadTerminal,
         ProvenanceText, ReadProvenance, Clean, Cut, Cleaned, BoundedFeedback, BoundedHops, BoundedAssignment, BoundedDecision;
    CountersWritten(s);
    RoutesWritten(s);
    LegacyAbsent(s);
    ProgressWritten(s);
    DiagnosticsWritten(s);
    RejectionsWritten(s);
    TerminalWritten(s);
    HopsRoundTrip(s.fallbackHistory);
    PartsRoundTrip(s);
    assert PlanWithState(plan, s).fields["orchestration"] == WriteState(s);
  }

  lemma PartsRoundTrip(s: BossState)
    ensures s.assignment.Some? ==> ReadAssignment(Some(WriteAssignment(s.assignment.value))) == Some(BoundedAssignment(s.assignment.value))
    ensures s.assignment.Some? ==> WriteAssignment(s.assignment.value).Obj?
    ensures ReadAssignment(None) == None && ReadDecision(None) == None && ReadTerminal(None) == None && ReadProvenance(None) == None
    ensures s.lastDecision.Some? ==> ReadDecision(Some(WriteDecision(s.lastDecision.value))) == Some(BoundedDecision(s.lastDecision.value))
    ensures s.terminal.Some? ==> ReadTerminal(Some(Str(TerminalText(s.terminal.value)))) == s.terminal
    ensures s.criteriaProvenance.Some? ==> ReadProvenance(Some(Str(ProvenanceText(s.criteriaProvenance.value)))) == s.criteriaProvenance
  {
    if s.assignment.Some? { AssignmentRoundTrip(s.assignment.value); }
    if s.lastDecision.Some? { DecisionRoundTrip(s.lastDecision.value); }
    if s.terminal.Some? { TerminalRoundTrip(s.terminal.value); }
    if s.criteriaProvenance.Some? { ProvenanceRoundTrip(s.criteriaProvenance.value); }
  }

  /** A record within its bounds. */
  predicate Fits(readers: Readers, s: BossState) {
    && s.cycle <= MAX_SAFE() && s.repairCycles <= MAX_SAFE() && s.protocolFailures <= MAX_SAFE()
    && s.actionablePlanFailures <= MAX_SAFE() && s.productiveCycles <= MAX_SAFE()
    && (s.assignment.Some? && s.assignment.value.fallbackReason.Some? ==> |s.assignment.value.fallbackReason.value| <= 240)
    && (forall i | 0 <= i < |s.fallbackHistory| :: |s.fallbackHistory[i].reason| <= 240)
    && (s.lastDecision.Some? ==> |s.lastDecision.value.summary| <= 2000)
    && (s.lastProtocolError.Some? ==> Tidy(s.lastProtocolError.value, 240))
    && (s.lastFeedback.Some? ==> readers.fits(s.lastFeedback.value) || s.lastFeedback.value == Obj(map["kind" := Str("truncated-feedback")]))
    && (s.lastInvocation.Some? ==> readers.invocation(s.lastInvocation.value) == s.lastInvocation)
    && (s.tokenUsage.Some? ==> readers.usage(s.tokenUsage.value) == s.tokenUsage)
    && (s.lastFingerprint.Some? ==> Tidy(s.lastFingerprint.value, 64))
    && (s.repeatedRejections.Some? ==> s.repeatedRejections.value <= MAX_SAFE())
    && (s.terminalReason.Some? ==> |s.terminalReason.value| <= 240)
    && (s.terminalProvenance.Some? ==> |s.terminalProvenance.value| <= 64)
  }

  predicate Tidy(t: Text, n: nat) { t != "" && Trim(t) == t && |t| <= n }

  lemma {:induction false} TrimShortens(s: Text)
    ensures |TrimStart(s)| <= |s| && (|TrimStart(s)| == |s| ==> TrimStart(s) == s)
    ensures |TrimEnd(s)| <= |s| && (|TrimEnd(s)| == |s| ==> TrimEnd(s) == s)
  {
    if s != "" {
      TrimShortens(s[1..]);
      TrimShortens(s[..|s| - 1]);
    }
  }

  lemma CleanKeeps(t: Text, n: nat)
    requires n > 0
    ensures Clean(Some(t), n) == Some(t) <==> Tidy(t, n)
  {
    hide TrimStart, TrimEnd;
    TrimShortens(t);
    TrimShortens(TrimStart(t));
    if Trim(t) != "" && Take(Trim(t), n) == t {
      assert |Trim(t)| >= |t|;
    }
  }

  /** The round trip is exact for the records within their bounds, and for no others. */
  lemma ExactWhenItFits(readers: Readers, plan: Json, s: BossState)
    ensures ReadState(readers, PlanWithState(plan, s)) == s <==> Fits(readers, s)
  {
    hide ReadState, PlanWithState, Clean, Tidy, BoundedHops;
    ReadWritten(readers, plan, s);
    if s.lastProtocolError.Some? { CleanKeeps(s.lastProtocolError.value, 240); }
    if s.lastFingerprint.Some? { CleanKeeps(s.lastFingerprint.value, 64); }
    CleanNothing();
    HopsKeep(s.fallbackHistory);
  }

  lemma CleanNothing()
    ensures Clean(None, 240) == None && Clean(None, 64) == None
  {}

  lemma HopsKeep(hops: seq<Hop>)
    ensures BoundedHops(hops) == hops <==> forall i | 0 <= i < |hops| :: |hops[i].reason| <= 240
  {
    if BoundedHops(hops) == hops {
      forall i | 0 <= i < |hops| ensures |hops[i].reason| <= 240 { assert hops[i] == BoundedHop(hops[i]); }
    }
  }
}
