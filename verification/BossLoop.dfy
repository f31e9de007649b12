/**
 The bounded plan, dispatch, verify, evaluate loop, run against the mission
 store. Every call to the Boss, to a worker and to verification is a point
 where other actors may run any operations on the same store, and where the
 run may be aborted.
 */
module BossLoop {
  import opened Wrappers
  import opened MissionTables
  import opened MissionInvariant
  import opened MissionRuns
  import opened MissionStore
  import opened TaskIdentity
  import opened BossState
  import opened BossRoutes
  import opened BossQuality
  import opened BossTerminal
  import opened BossTrace
  import opened BossSteps
  import Ops = MissionOps

  class MissionGoalLoop {
    const store: SQLiteMissionStore
    const scene: Scene
    const m: Id := scene.m
    const config: Config := scene.config
    const env: nat -> Turn := scene.env

    var mission: Mission
    var state: BossState
    var assignment: Option<Assignment>
    var feedback: Option<Json>
    var aborted: bool
    var now: Time
    var turns: nat
    var made: nat
    var repeatedProtocolErrors: nat

    /** What the run did, and what each step of that led to; `view` is the last of the views. */
    ghost var trace: seq<Event>
    ghost var views: seq<View>
    ghost var view: View

    constructor (store: SQLiteMissionStore, scene: Scene, now: Time)
      requires store.transactionDepth == 0 && store.db == scene.origin && Inv(store.db) && scene.m in store.db.missions
      ensures this.store == store && this.scene == scene && Valid()
      ensures mission == store.db.missions[m] && state == FirstRecord(scene) && assignment == state.assignment
      ensures aborted == scene.aborted && trace == [] && view == FirstView(scene) && repeatedProtocolErrors == 0
    {
      hide ReadState, Chain, Inv, FollowsAt;
      this.store, this.scene, this.now, this.aborted := store, scene, now, scene.aborted;
      mission, state := scene.origin.missions[scene.m], FirstRecord(scene);
      assignment, feedback := FirstRecord(scene).assignment, FirstRecord(scene).lastFeedback;
      turns, made, repeatedProtocolErrors := 0, 0, 0;
      trace, views, view := [], [FirstView(scene)], FirstView(scene);
      NothingYet(scene);
    }

    ghost predicate Tracing()
      reads `trace, `views, `view
    {
      Traced(scene, trace, views) && view == views[|trace|]
    }

    /** The tables and the loop's own fields are what its trace leads to. */
    ghost predicate Core()
      reads `state, `mission, `turns, `aborted, `trace, `views, `view, store
    {
      && store.transactionDepth == 0 && Inv(store.db) && m in store.db.missions && m in scene.origin.missions
      && Tracing() && view.db == store.db && view.revision == mission.revision && view.turns == turns && view.aborted == aborted
      && Sound(scene, turns, state)
    }

    ghost predicate Valid()
      reads `state, `mission, `turns, `aborted, `trace, `views, `view, store
    {
      Core() && Recorded(FirstRecord(scene), view.refusals, state)
    }

    predicate Assigned()
      reads `state, `assignment
    {
      assignment.Some? && state.assignment == assignment
    }

    /** Requests made so far, and those that fallbacks could still cause. */
    ghost function Budget(): nat
      reads `state, `assignment, `view
    {
      view.requests + |Unused(config.entries, state.fallbackHistory, RouteOf(assignment))|
    }

    ghost function First(): BossState { FirstRecord(scene) }

    ghost predicate SettledWith(r: Option<Outcome>)
      reads `view
    {
      Settled(First(), view.refusals, m, r)
    }

    lemma StillSettled(r: Option<Outcome>)
      requires SettledWith(None)
      ensures SettledWith(r)
    {
      hide CanEnd, First, Overdone;
      StaysSettled(First(), view.refusals, m, r);
    }

    /** The loop is in this cycle: it has asked for its plan. */
    ghost predicate InCycle(cycle: nat)
      reads `view
    {
      view.asked.FromBoss? && view.cycle == cycle + 1
    }

    /** The loop's record tells of the last reply of the Boss, if that is the last thing heard. */
    ghost predicate Abreast()
      reads `state, `view
    {
      view.last.FromBoss? ==> Tells(state, view.last.phase, view.last.decision)
    }

    /** The loop's record is on file, and its copy of the mission is the row. */
    ghost predicate Written()
      reads `state, `mission, store
    {
      m in store.db.missions && mission == store.db.missions[m] && FiledAs(scene, store.db, state)
    }

    lemma HeardIsFiled()
      requires Valid() && Written() && Abreast()
      ensures OnFile(scene, view)
    {
      hide Inv, Traced, Sound, Recorded, FiledAs, Tells;
    }

    lemma CycleIsFiled(cycle: nat)
      requires Valid() && Written() && FailuresCounted(view.failures) && state.cycle == cycle == view.cycle
      ensures Resumable(scene, view)
    {
      hide Inv, Traced, Sound, Recorded, FiledAs, Tail;
    }

    /** The loop may begin this cycle, unless it is aborted. */
    ghost predicate ReadyFor(cycle: nat)
      reads `view, `state
    {
      && view.cycle == cycle
      && (if view.asked.Nothing? then view.turns == 0 && cycle == First().cycle && (view.aborted ==> scene.aborted)
          else view.asked.FromBoss?)
      && (view.aborted || (MayGoOn(scene, view) && MayBegin(scene, view) && Abreast()))
    }

    /** The loop's own count of protocol failures and its last message are what these failures amount to. */
    ghost predicate FailuresCounted(failures: seq<Text>)
      reads `state, `repeatedProtocolErrors
    {
      && repeatedProtocolErrors == Tail(failures) && state.protocolFailures == First().protocolFailures + |failures|
      && (failures != [] ==> state.lastProtocolError == Some(failures[|failures| - 1]))
    }

    /** No protocol failure has been noted. */
    twostate predicate FailuresKept()
      reads `state
    {
      state.lastProtocolError == old(state.lastProtocolError) && state.protocolFailures == old(state.protocolFailures)
    }

    /** What a returned outcome says is what the row says. */
    ghost predicate Honest(r: Outcome)
      reads store
    {
      r.Returned? ==> m in store.db.missions && r.row == store.db.missions[m] && r.row.status == r.status
    }

    /** No await and no new task: nothing but calls on the store. */
    twostate predicate Quiet()
      reads `view
    {
      view == old(view).(db := view.db, revision := view.revision, refused := view.refused)
    }

    /** No await but requests to the Boss, and no new task. */
    twostate predicate OnlyAsked()
      reads `view
    {
      view == old(view).(db := view.db, revision := view.revision, refused := view.refused, turns := view.turns, aborted := view.aborted,
                         requests := view.requests, cycle := view.cycle, asked := view.asked, last := view.last,
                         planned := view.planned, taken := view.taken, failures := view.failures)
    }

    /**
     What every stretch of the run obeys: at most `k` requests beyond the
     fallbacks, an honest and explained end, a completion only behind open
     gates, and nothing but a cancellation once the run is aborted.
     */
    twostate predicate Stretch(k: nat, new r: Option<Outcome>)
      reads `state, `assignment, `mission, `turns, `aborted, `trace, `views, `view, store
    {
      && Valid() && Assigned()
      && Budget() <= old(Budget()) + k && old(turns) <= turns
      && (r.Some? ==> Honest(r.value) && Explained(scene, view, r.value))
      && (r.Some? && r.value.Returned? && r.value.terminal.Completed? ==> AllVerified(store.db, m))
      && (r.Some? && r.value.Returned? && aborted ==> r.value.terminal.Cancelled? && r.value.status.Cancelled?)
    }

    lemma Linked()
      requires Valid()
      ensures store.transactionDepth == 0 && m in store.db.missions && m in scene.origin.missions
      ensures view.db == store.db && view.revision == mission.revision && view.turns == turns && view.aborted == aborted
    {
      hide Inv, Traced, Sound, Recorded;
    }

    lemma Sane()
      requires Valid()
      ensures m in store.db.missions && Inv(store.db)
    {
      hide Inv, Traced, Sound, Recorded;
    }

    // ----- the loop's own writes -----

    /** Note in the trace what is about to be done. */
    ghost method Log(e: Event)
      requires Tracing() && Allowed(scene, view, trace, e)
      modifies `trace, `views, `view
      ensures Tracing() && view == Next(scene, old(view), e) && trace == old(trace) + [e]
    {
      hide FollowsAt, Next, Allowed, FirstView;
      OneMore(scene, trace, views, e);
      trace, views, view := trace + [e], views + [Next(scene, view, e)], Next(scene, view, e);
    }

    /** Note a call whose result becomes the loop's copy of the mission. */
    ghost method LogOwn(op: Ops.Op)
      requires Tracing() && LoopCall(scene, view, op)
      modifies `trace, `views, `view
      ensures Tracing()
      ensures var called := Ops.Apply(old(view).db, now, op);
        view == old(view).(db := called.db, refused := called.thrown,
                           revision := if called.thrown.None? then RevisionIn(called.db, m) else old(view).revision)
    {
      hide Tracing, LoopCall, Ops.Apply;
      Log(Own(Step(now, op)));
    }

    /** Note any other call. */
    ghost method LogOther(op: Ops.Op)
      requires Tracing() && LoopCall(scene, view, op)
      modifies `trace, `views, `view
      ensures Tracing()
      ensures var called := Ops.Apply(old(view).db, now, op);
        view == old(view).(db := called.db, refused := called.thrown, owed := if op.OpPromote? then old(view).owed - {op.e} else old(view).owed)
    {
      hide Tracing, LoopCall, Ops.Apply;
      Log(Other(Step(now, op)));
    }

    /** Write the record into the plan, provided nobody has moved the mission on. */
    method PersistState() returns (thrown: Option<Error>)
      requires Valid()
      modifies `mission, `trace, `views, `view, store
      ensures Valid() && Quiet() && view.refused == thrown
      ensures thrown.None? <==> old(store.db.missions[m].revision) == old(mission.revision)
      ensures store.db == old(store.db).(missions := store.db.missions, revisions := store.db.revisions)
      ensures m in store.db.missions && store.db.missions[m].status == old(store.db.missions[m].status)
      ensures thrown.None? ==> SameGoal(mission, old(store.db.missions[m])) && Written()
      ensures if thrown.None? then mission == store.db.missions[m] && ReadState(config.readers, mission.plan) == Bounded(config.readers, state)
              else store.db == old(store.db) && mission == old(mission)
    {
      hide SoundPlan, FirstRecord, FirstView, Inv, Evolves, Ops.Apply, Ops.UpdateMission, Traced, Run, Refused, Sound,
           Recorded, ReadState, PlanWithState, Bounded;
      ghost var before := store.db;
      var plan := PlanWithState(mission.plan, state);
      PersistEffect(before, now, m, mission.revision, plan);
      PersistFrame(before, now, m, mission.revision, plan);
      SoundWritten(scene, turns, mission.plan, state);
      ReadWritten(config.readers, mission.plan, state);
      UpdateCalled(before, now, m, PlanPatch(plan), mission.revision);
      LogOwn(Ops.OpUpdateMission(m, PlanPatch(plan), Some(mission.revision)));
      thrown := store.UpdateMission(now, m, PlanPatch(plan), Some(mission.revision));
      if thrown.None? { mission := store.db.missions[m]; }
    }

    /** Write a last record; the loop's copy of the mission stays as it was. */
    method WriteEnding(plan: Json) returns (thrown: Option<Error>)
      requires Valid() && SoundPlan(scene, turns, plan)
      modifies `trace, `views, `view, store
      ensures Valid() && Quiet() && view.refused == thrown
      ensures Ops.Reply(store.db, thrown) ==
        Ops.Committed(old(store.db), Ops.UpdateMission(old(store.db), now, m, PlanPatch(plan), Some(mission.revision)))
    {
      hide SoundPlan, FirstRecord, FirstView, Inv, Evolves, Ops.Apply, Ops.UpdateMission, Traced, Run, Refused, Sound,
           Recorded, ReadState;
      PersistEffect(store.db, now, m, mission.revision, plan);
      UpdateCalled(store.db, now, m, PlanPatch(plan), mission.revision);
      LogOther(Ops.OpUpdateMission(m, PlanPatch(plan), Some(mission.revision)));
      thrown := store.UpdateMission(now, m, PlanPatch(plan), Some(mission.revision));
    }

    /** Change the status of the mission as it is now. */
    method MoveTo(status: MissionStatus) returns (thrown: Option<Error>)
      requires Valid() && m in store.db.missions
      modifies `trace, `views, `view, store
      ensures Valid() && Quiet() && view.refused == thrown
      ensures Ops.Reply(store.db, thrown) ==
        Ops.Committed(old(store.db), Ops.TransitionMission(old(store.db), now, m, status, Boss, Some(old(store.db).missions[m].revision)))
    {
      hide SoundPlan, ReadState, FirstRecord, FirstView, Inv, Evolves, Ops.Apply, Ops.TransitionMission, Traced, Run,
           Refused, Sound, Recorded, Completable;
      var revision := store.db.missions[m].revision;
      TransitionEffect(store.db, now, m, status, revision);
      TransitionCalled(store.db, now, m, status, revision);
      LogOther(Ops.OpTransitionMission(m, status, Boss, Some(revision)));
      thrown := store.TransitionMission(now, m, status, Boss, Some(revision));
    }

    /** Bring the mission to a status, through review if it is to be completed while it runs. */
    method BringTo(status: MissionStatus) returns (thrown: Option<Error>)
      requires Valid() && m in store.db.missions
      modifies `trace, `views, `view, store
      ensures Valid() && Quiet() && Ops.Reply(store.db, thrown) == Conclude(old(store.db), now, m, status)
      ensures thrown.Some? ==> view.refused == thrown
    {
      hide Core, Inv, Keeps, Recorded, Completable, Ops.TransitionMission;
      Linked();
      Sane();
      if status.Completed? && store.db.missions[m].status.Running? {
        TransitionEffect(store.db, now, m, AwaitingReview, store.db.missions[m].revision);
        thrown := MoveTo(AwaitingReview);
        if thrown.Some? { return; }
      }
      if store.db.missions[m].status == status { return None; }
      thrown := MoveTo(status);
    }

    /** End the run: record the outcome, then bring the mission to its status. */
    method End(t: Terminal, reason: Text, cycles: nat, provenance: Option<Text>) returns (r: Outcome)
      requires Valid()
      modifies `trace, `views, `view, store
      ensures Valid() && Quiet() && Honest(r) && Reports(scene, view, r)
      ensures r.Returned? <==> CanEnd(old(store.db), m, mission.revision, StatusFor(t))
      ensures r.Returned? ==> r.terminal == t && r.status == StatusFor(t) && r.cycles == cycles
      ensures r.Returned? ==> ReadState(config.readers, r.row.plan) == Bounded(config.readers, Ended(state, t, reason, provenance))
      ensures store.db.tasks == old(store.db.tasks) && store.db.quality == old(store.db.quality)
    {
      hide Valid, Inv, Keeps, Sound, ReadState, PlanWithState, Bounded, CanEnd, Completable, Conclude, Ops.UpdateMission,
           Ended;
      Linked();
      Sane();
      ghost var before := store.db;
      var status := StatusFor(t);
      var plan := PlanWithState(mission.plan, Ended(state, t, reason, provenance));
      PersistEffect(before, now, m, mission.revision, plan);
      TerminalEnds(before, now, m, mission.revision, plan, status);
      EndingIsSound(t, reason, provenance);
      ReadWritten(config.readers, mission.plan, Ended(state, t, reason, provenance));
      EndingIsRecorded(config.readers, state, t, reason, provenance);
      var thrown := WriteEnding(plan);
      if thrown.Some? { return Threw(thrown.value); }
      thrown := BringTo(status);
      if thrown.Some? { return Threw(thrown.value); }
      return Returned(status, t, cycles, store.db.missions[m]);
    }

    lemma EndingIsSound(t: Terminal, reason: Text, provenance: Option<Text>)
      requires Valid()
      ensures SoundPlan(scene, turns, PlanWithState(mission.plan, Ended(state, t, reason, provenance)))
    {
      hide Inv, Traced, Recorded, ReadState, PlanWithState, Chain, Answered, FirstRecord;
      SoundWritten(scene, turns, mission.plan, Ended(state, t, reason, provenance));
    }

    /** Between the cycle that was asked for and the one after it. */
    ghost predicate AboutCycle(cycles: nat)
      reads `view
    {
      view.asked.FromBoss? && view.cycle - 1 <= cycles <= view.cycle
    }

    ghost predicate MayCancel(cycles: nat)
      reads `view
    {
      if view.asked.Nothing? then view.turns == 0 && scene.aborted && cycles == First().cycle
      else (view.aborted || Cancels(view.last)) && AboutCycle(cycles)
    }

    method StopCancelled(when: Moment, cycles: nat) returns (r: Outcome)
      requires Valid() && MayCancel(cycles)
      modifies `trace, `views, `view, store
      ensures Valid() && Quiet() && Honest(r) && Explained(scene, view, r)
      ensures r.Returned? <==> CanEnd(old(store.db), m, mission.revision, MissionStatus.Cancelled)
      ensures r.Returned? ==> r.terminal.Cancelled? && r.status.Cancelled?
    {
      hide CanEnd, Valid, CancelReason, ReadState, FirstRecord, Bounded, Explained, Inv, Ended, Cancels;
      Linked();
      r := End(Terminal.Cancelled, CancelReason(when), cycles, Some("AbortSignal"));
      CancelExplains(scene, view, r);
    }

    method StopSafety(message: Text, code: Text, cycles: nat) returns (r: Outcome)
      requires Valid() && AboutCycle(cycles) && Unsafe(view.last)
      modifies `trace, `views, `view, store
      ensures Valid() && Quiet() && Honest(r) && Explained(scene, view, r)
      ensures r.Returned? <==> CanEnd(old(store.db), m, mission.revision, MissionStatus.Blocked)
      ensures r.Returned? ==> r.terminal.SafetyStop? && r.status.Blocked?
    {
      hide CanEnd, Valid, SafetyReason, ReadState, FirstRecord, Bounded, Explained, Inv, Ended, Unsafe;
      Linked();
      r := End(Terminal.SafetyStop, SafetyReason(message), cycles, Some(code));
      SafetyExplains(scene, view, r);
    }

    // ----- awaiting the callbacks -----

    /**
     Other actors run any operations before the reply comes. Only a refused
     verification leaves the record behind what it must say.
     */
    method Await(ghost e: Event) returns (turn: Turn)
      requires Valid() && (e.Asked? || e.Dispatched? || e.Judged?) && Allowed(scene, view, trace, e)
      modifies `turns, `now, `aborted, `trace, `views, `view, store
      ensures Core() && Recorded(FirstRecord(scene), old(view).refusals, state)
      ensures view == Next(scene, old(view), e) && trace == old(trace) + [e]
      ensures turn == env(old(turns)) && turns == old(turns) + 1 && now == turn.now && aborted == (old(aborted) || turn.aborts)
      ensures store.db == Run(old(store.db), turn.steps)
    {
      hide SoundPlan, ReadState, FirstRecord, FirstView, Inv, Keeps, Evolves, Recorded, Sound, Traced, Allowed, Run, Next;
      turn := env(turns);
      Awaits(scene, view, e);
      ghost var before := store.db;
      RunKeeps(before, turn.steps);
      StillThere(before, Run(before, turn.steps), m);
      SoundLater(scene, turns, turns + 1, state);
      Log(e);
      turns := turns + 1;
      store.ExecuteAll(turn.steps);
      now := turn.now;
      aborted := aborted || turn.aborts;
    }

    /** One request to the Boss, when it is due; never made once the run is aborted. */
    method Ask(phase: Phase) returns (turn: Turn)
      requires Valid() && MayGoOn(scene, view) && MayAsk(scene, view, phase)
      modifies `turns, `now, `aborted, `trace, `views, `view, store
      ensures Valid() && OnlyAsked() && view.requests == old(view.requests) + 1
      ensures turn == env(old(turns)) && turns == old(turns) + 1 && aborted == turn.aborts == view.aborted
      ensures view.asked == view.last == FromBoss(phase, turn.decision) && view.refused.None?
      ensures view.cycle == old(view).cycle + (if BeginsCycle(old(view), phase) then 1 else 0)
      ensures view.planned == PlannedBy(phase, turn.decision) && view.taken == 0
      ensures view.failures == old(view).failures + FailureIn(turn.decision, aborted)
    {
      hide Core, Run, Recorded, Sound, Traced, Refused, Ops.Apply, LoopCall, Live, MayAsk, PlannedBy, FailureIn,
           BeginsCycle;
      Linked();
      turn := Await(Asked(phase));
      Relinked();
    }

    lemma Relinked()
      requires Core()
      ensures view.aborted == aborted && view.turns == turns
    {
      hide Inv, Traced, Sound;
    }

    // ----- the record -----

    /** A change to the record that touches neither routes nor refusals. */
    predicate RoutesAndRefusalsKept(next: BossState)
      reads `state
    {
      && next.assignment == state.assignment && next.fallbackHistory == state.fallbackHistory
      && next.lastFingerprint == state.lastFingerprint && next.repeatedRejections == state.repeatedRejections
    }

    method Update(next: BossState)
      requires Valid() && RoutesAndRefusalsKept(next)
      modifies `state
      ensures Valid() && state == next
    {
      hide Inv, Traced, Chain, Answered, FirstRecord;
      state := next;
    }

    /** Set the record and write it down. */
    method Record(next: BossState) returns (thrown: Option<Error>)
      requires Valid() && RoutesAndRefusalsKept(next)
      modifies `state, `mission, `trace, `views, `view, store
      ensures Valid() && Quiet() && state == next && view.refused == thrown
      ensures store.db.tasks == old(store.db.tasks) && store.db.quality == old(store.db.quality)
      ensures thrown.None? ==> Written() && SameGoal(mission, old(store.db).missions[m])
    {
      hide Valid, ReadState, Bounded;
      Linked();
      thrown := RecordDecision(next);
    }

    /** The same, for the callers that go on with what was written. */
    method RecordDecision(next: BossState) returns (thrown: Option<Error>)
      requires Valid() && RoutesAndRefusalsKept(next)
      modifies `state, `mission, `trace, `views, `view, store
      ensures Valid() && Quiet() && state == next && view.refused == thrown
      ensures thrown.None? <==> old(store.db.missions[m].revision) == old(mission.revision)
      ensures store.db == old(store.db).(missions := store.db.missions, revisions := store.db.revisions)
      ensures m in store.db.missions && store.db.missions[m].status == old(store.db.missions[m].status)
      ensures thrown.None? ==> mission == store.db.missions[m] && ReadState(config.readers, mission.plan) == Bounded(config.readers, next)
      ensures thrown.None? ==> Written() && SameGoal(mission, old(store.db.missions[m]))
    {
      hide Valid, ReadState, Bounded;
      Update(next);
      thrown := PersistState();
    }

    // ----- asking the Boss -----

    /** Move the run to the route a hop leads to. */
    method HopTo(next: Assignment, hop: Hop, invocation: Option<Json>)
      requires Valid() && Assigned() && next.routeId == hop.toRoute && hop.fromRoute == assignment.value.routeId
      requires hop.toRoute !in Used(state.fallbackHistory, Some(hop.fromRoute))
      requires turns > 0 && AnswersFailure(env(turns - 1).decision, hop)
      modifies `state, `assignment
      ensures Valid() && Assigned() && assignment == Some(next)
      ensures state == Noted(old(state).(assignment := assignment, fallbackHistory := old(state).fallbackHistory + [hop]), invocation)
    {
      hide Inv, Traced, Tracing, AnswersFailure, Used, Sound, Recall, FirstRecord, Chain;
      SoundHop(scene, turns, state, next, hop);
      var hopped := state.(assignment := Some(next), fallbackHistory := state.fallbackHistory + [hop]);
      SoundSame(scene, turns, hopped, Noted(hopped, invocation));
      state := Noted(hopped, invocation);
      assignment := Some(next);
    }

    /** Take the next enabled route the run has not been on. */
    method TakeFallback(replacement: Route, failure: Failure) returns (thrown: Option<Error>)
      requires Valid() && Assigned() && failure.Infrastructure? && turns > 0 && env(turns - 1).decision == Awaited.Rejected(failure)
      requires Some(replacement) == SelectFallback(config.entries, state.fallbackHistory, assignment.value.routeId)
      requires view.last.FromBoss? && view.last.decision == Awaited.Rejected(failure)
      modifies `state, `assignment, `mission, `trace, `views, `view, store
      ensures Valid() && Assigned() && Quiet() && view.refused == thrown && (thrown.None? ==> OnFile(scene, view))
      ensures state == old(state).(assignment := assignment, lastInvocation := state.lastInvocation,
        fallbackHistory := old(state).fallbackHistory + [Hop(old(assignment.value.routeId), replacement.routeId, HopReason(failure.message))])
      ensures Budget() < old(Budget())
    {
      hide OnFile, FiledAs, Valid, SelectFallback, Unused, HopReason, ReadState, Bounded, Inv;
      var current := assignment.value;
      var reason := HopReason(failure.message);
      FallbackUsesOne(config.entries, state.fallbackHistory, current.routeId, reason);
      var next := Assignment(replacement.routeId, replacement.remoteModelId, replacement.effort.GetOr(Auto), replacement.weight.GetOr(1),
                             current.assignedAt, Some(current.routeId), Some(reason));
      HopTo(next, Hop(current.routeId, replacement.routeId, reason), config.diagnostic(failure, Some(replacement.routeId)));
      thrown := PersistState();
      if thrown.None? { HeardIsFiled(); }
    }

    /** Keep what a reply tells about itself: the tokens it used, and a diagnostic if it failed. */
    method Observe(turn: Turn)
      requires Valid() && Assigned()
      modifies `state
      ensures Valid() && Assigned() && state == Observed(config, old(state), turn)
    {
      hide Valid;
      Update(Observed(config, state, turn));
    }

    /** A change to the record by one reply, and by the fallback it may cause. */
    predicate OnlyRoutesAndReports(before: BossState)
      reads `state
    {
      state == before.(assignment := state.assignment, fallbackHistory := state.fallbackHistory,
                       lastInvocation := state.lastInvocation, tokenUsage := state.tokenUsage)
    }

    ghost predicate NoRouteLeft()
      reads `state, `assignment
    {
      assignment.Some? && SelectFallback(config.entries, state.fallbackHistory, assignment.value.routeId) == None
    }

    /** What the asking comes to is the reply, or the cancellation that overtook it. */
    ghost predicate Settles(r: Invoked, turn: Turn, before: Option<Json>)
      reads `state, `assignment, `aborted
    {
      if r.Broke? then true
      else if aborted then r == Undecided(CancellationCause)
      else
        && turn.decision == ReplyOf(r)
        && (ReplyUsable(r) ==> state.tokenUsage == Merged(config, before, turn.usage))
        && (r.Undecided? && r.failure.Infrastructure? ==> NoRouteLeft())
    }

    ghost function RoutesUnused(): nat
      reads `state, `assignment
    {
      |Unused(config.entries, state.fallbackHistory, RouteOf(assignment))|
    }

    /** What is known once the Boss has replied: the reply is the last thing heard, and counted. */
    twostate predicate Replied(phase: Phase, reply: Awaited<BossDecision>)
      reads `view, `aborted
    {
      && view.aborted == aborted
      && view.asked == view.last == FromBoss(phase, reply)
      && view.cycle == old(view).cycle + (if BeginsCycle(old(view), phase) then 1 else 0)
      && view.failures == old(view).failures + FailureIn(reply, aborted)
    }

    /** One request; if the provider failed and a route is left, the run moves to that route. */
    method AskOnce(phase: Phase) returns (r: Option<Invoked>)
      requires Valid() && Assigned() && MayGoOn(scene, view) && MayAsk(scene, view, phase)
      modifies `state, `assignment, `mission, `turns, `now, `aborted, `trace, `views, `view, store
      ensures Valid() && Assigned() && OnlyAsked() && turns == old(turns) + 1 && view.requests == old(view.requests) + 1
      ensures OnlyRoutesAndReports(old(state)) && Replied(phase, env(old(turns)).decision)
      ensures if r.Some? && !r.value.Broke? then state.fallbackHistory == old(state).fallbackHistory && assignment == old(assignment)
              else exists hop :: state.fallbackHistory == old(state).fallbackHistory + [hop] && AnswersFailure(env(old(turns)).decision, hop)
      ensures r.None? || r.value.Broke? ==> RoutesUnused() < old(RoutesUnused()) && state.tokenUsage == old(state).tokenUsage && !aborted
      ensures r.None? ==> MayGoOn(scene, view) && MayAsk(scene, view, phase) && ProviderFailed(view.asked)
      ensures r.Some? ==> Settles(r.value, env(old(turns)), old(state).tokenUsage) && (r.value.Broke? ==> view.refused == Some(r.value.error))
      ensures r.Some? && r.value.Decided? ==> view.planned == PlannedBy(phase, Resolved(r.value.decision)) && view.taken == 0 && view.refused.None?
    {
      hide OnFile, FiledAs, Resumable, AllVerified, Bounded, ReadState, Valid, Unused, SelectFallback, HopReason, PlannedBy,
           BeginsCycle, FailureIn, FirstRecord, WorkedOff;
      var turn := Ask(phase);
      if aborted { return Some(Undecided(CancellationCause)); }
      Observe(turn);
      if turn.decision.Resolved? { return Some(Decided(turn.decision.value)); }
      var failure := turn.decision.failure;
      if !failure.Infrastructure? { return Some(Undecided(failure)); }
      var replacement := SelectFallback(config.entries, state.fallbackHistory, assignment.value.routeId);
      if replacement.None? { return Some(Undecided(failure)); }
      ghost var hop := Hop(assignment.value.routeId, replacement.value.routeId, HopReason(failure.message));
      var thrown := TakeFallback(replacement.value, failure);
      assert AnswersFailure(turn.decision, hop) && state.fallbackHistory == old(state).fallbackHistory + [hop];
      return if thrown.Some? then Some(Broke(thrown.value)) else None;
    }

    /** The reply at this turn was the infrastructure failure the hop names as its reason. */
    ghost predicate AnswersTurn(turn: int, hop: Hop) { turn >= 0 && AnswersFailure(env(turn).decision, hop) }

    /** Each hop since there were `start` answers the reply of its own turn. */
    ghost predicate EachAnswers(start: nat, first: nat, hops: seq<Hop>) {
      forall i | start <= i < |hops| :: AnswersTurn(first + i - start, hops[i])
    }

    lemma OneMoreAnswer(start: nat, first: nat, hops: seq<Hop>, hop: Hop)
      requires start <= |hops| && EachAnswers(start, first, hops) && AnswersFailure(env(first + |hops| - start).decision, hop)
      ensures EachAnswers(start, first, hops + [hop])
    {
      hide AnswersFailure;
    }

    /** An aborted run asks for nothing. */
    twostate predicate Unasked(r: Invoked)
      reads `turns, `aborted, `view, store
    {
      aborted && turns == old(turns) && view == old(view) && store.db == old(store.db) && r == Undecided(CancellationCause)
    }

    /** The last reply is the one the asking came to. */
    twostate predicate CameTo(phase: Phase, r: Invoked)
      reads `state, `assignment, `turns, `aborted, `view
    {
      turns > old(turns) && Replied(phase, env(turns - 1).decision) && Settles(r, env(turns - 1), old(state).tokenUsage)
    }

    /**
     Ask the Boss, falling back for as long as the provider fails and a route
     is left. Each hop answers one infrastructure failure, each but one of the
     requests uses up a route, and the last reply is what is returned.
     */
    method InvokeWithFallback(phase: Phase) returns (r: Invoked)
      requires Valid() && Assigned() && (aborted || (MayGoOn(scene, view) && MayAsk(scene, view, phase)))
      modifies `state, `assignment, `mission, `turns, `now, `aborted, `trace, `views, `view, store
      ensures Valid() && Assigned() && OnlyAsked() && Budget() <= old(Budget()) + 1
      ensures old(state).fallbackHistory <= state.fallbackHistory && OnlyRoutesAndReports(old(state))
      ensures EachAnswers(|old(state).fallbackHistory|, old(turns), state.fallbackHistory)
      ensures if old(aborted) then Unasked(r) else CameTo(phase, r)
      ensures r.Broke? ==> view.refused == Some(r.error)
      ensures r.Decided? ==> view.planned == PlannedBy(phase, Resolved(r.decision)) && view.taken == 0 && view.refused.None?
    {
      hide Valid, Unused, SelectFallback, AnswersFailure, HopReason, PlannedBy, Settles, MayGoOn, MayAsk, EachAnswers;
      if aborted {
        NoHopsYet(|state.fallbackHistory|, turns, state.fallbackHistory);
        return Undecided(CancellationCause);
      }
      ghost var start := |state.fallbackHistory|;
      NoHopsYet(start, turns, state.fallbackHistory);
      while true
        invariant Valid() && Assigned() && OnlyAsked() && Budget() <= old(Budget())
        invariant MayGoOn(scene, view) && MayAsk(scene, view, phase)
        invariant if turns == old(turns) then view == old(view)
                  else ProviderFailed(view.asked) && view.cycle == old(view).cycle + (if BeginsCycle(old(view), phase) then 1 else 0) &&
                       view.failures == old(view).failures
        invariant old(state).fallbackHistory <= state.fallbackHistory && OnlyRoutesAndReports(old(state))
        invariant state.tokenUsage == old(state).tokenUsage && turns == old(turns) + |state.fallbackHistory| - start
        invariant EachAnswers(start, old(turns), state.fallbackHistory)
        decreases RoutesUnused()
      {
        ghost var hops := state.fallbackHistory;
        var once := AskOnce(phase);
        if once.Some? && !once.value.Broke? { return once.value; }
        ghost var hop :| state.fallbackHistory == hops + [hop] && AnswersFailure(env(turns - 1).decision, hop);
        OneMoreAnswer(start, old(turns), hops, hop);
        HopIsNoFailure(env(turns - 1).decision, hop, aborted);
        if once.Some? { return once.value; }
      }
    }

    lemma NoHopsYet(start: nat, first: nat, hops: seq<Hop>)
      requires start == |hops|
      ensures EachAnswers(start, first, hops)
    {}

    lemma HopIsNoFailure(reply: Awaited<BossDecision>, hop: Hop, aborted: bool)
      requires AnswersFailure(reply, hop)
      ensures FailureIn(reply, aborted) == []
    {}

    /** Count a failure that has just come in, and how many in a row were the same. */
    method RecordProtocolFailure(message: Text, actionable: bool, ghost before: seq<Text>) returns (repeated: bool, thrown: Option<Error>)
      requires Valid() && FailuresCounted(before) && view.failures == before + [Take(message, 240)]
      modifies `state, `mission, `repeatedProtocolErrors, `trace, `views, `view, store
      ensures Valid() && Quiet() && RoutesAndRefusalsKept(old(state)) && state.cycle == old(state.cycle) && view.refused == thrown
      ensures state.protocolFailures == old(state.protocolFailures) + 1 && state.lastProtocolError == Some(Take(message, 240))
      ensures repeatedProtocolErrors == if old(state.lastProtocolError) == state.lastProtocolError then old(repeatedProtocolErrors) + 1 else 1
      ensures FailuresCounted(view.failures)
      ensures repeated <==> Tail(view.failures) >= config.maxCycles || Tail(view.failures) >= 4
    {
      hide Valid;
      var summary := Take(message, 240);
      OneMoreFailure(before, summary);
      repeatedProtocolErrors := if state.lastProtocolError == Some(summary) then repeatedProtocolErrors + 1 else 1;
      var noted := Noted(state, config.diagnostic(OtherCause(message, actionable), None));
      thrown := Record(noted.(protocolFailures := state.protocolFailures + 1,
                              actionablePlanFailures := state.actionablePlanFailures + (if actionable then 1 else 0),
                              lastProtocolError := Some(summary)));
      repeated := repeatedProtocolErrors >= if config.maxCycles < 4 then config.maxCycles else 4;
    }

    /** Count the failure, and keep what the Boss is to be told about it. */
    method NoteFailure(message: Text, actionable: bool, note: Option<Json>, ghost before: seq<Text>)
      returns (repeated: bool, thrown: Option<Error>)
      requires Valid() && Assigned() && FailuresCounted(before) && view.failures == before + [Take(message, 240)]
      modifies `state, `mission, `feedback, `repeatedProtocolErrors, `trace, `views, `view, store
      ensures Valid() && Assigned() && Quiet() && view.refused == thrown && Budget() == old(Budget()) && FailuresCounted(view.failures)
      ensures thrown.None? ==> feedback == note && state.lastFeedback == note && Written() && state.lastProtocolError == Some(Take(message, 240))
      ensures thrown.None? ==> (repeated <==> Tail(view.failures) >= config.maxCycles || Tail(view.failures) >= 4)
    {
      hide Valid, Unused, Tail, Take;
      repeated, thrown := RecordProtocolFailure(message, actionable, before);
      if thrown.Some? { return; }
      feedback := note;
      thrown := Record(state.(lastFeedback := feedback));
    }

    // ----- how decisions and failures end a run -----

    /** How each kind of failure ends the run; a protocol failure may leave it going until the last cycle. */
    predicate StopsFor(failure: Failure, cycle: nat, r: Option<Outcome>) {
      && (!failure.OtherCause? || cycle + 1 >= config.maxCycles ==> r.Some?)
      && (r.Some? && r.value.Returned? ==>
            match failure
            case CancellationCause => r.value.terminal.Cancelled?
            case SafetyCause(_, _) => r.value.terminal.SafetyStop?
            case Infrastructure(_) => r.value.terminal.Blocked?
            case OtherCause(_, _) => r.value.terminal.AwaitingUser?)
    }

    /** A cancellation, a safety stop or a provider without fallbacks ends the run at once. */
    method StopFor(failure: Failure, when: Moment, cycles: nat) returns (r: Outcome)
      requires Valid() && Assigned() && !failure.OtherCause? && AboutCycle(cycles) && view.last.FromBoss?
      requires if aborted then failure.CancellationCause? else view.last.decision == Awaited.Rejected(failure)
      requires failure.Infrastructure? ==> NoRouteLeft()
      modifies `trace, `views, `view, store
      ensures StopsFor(failure, 0, Some(r)) && Stretch(0, Some(r)) && Quiet()
    {
      hide Valid, Unused, CanEnd, AllVerified, FirstRecord, Explained, SelectFallback, SafetyReason, CancelReason;
      Linked();
      match failure
      case CancellationCause => r := StopCancelled(when, cycles);
      case SafetyCause(message, code) => r := StopSafety(message, code, cycles);
      case Infrastructure(message) => r := StopUnavailable(message, when, cycles);
    }

    /** The provider failed on the last route. */
    method StopUnavailable(message: Text, when: Moment, cycles: nat) returns (r: Outcome)
      requires Valid() && Assigned() && !aborted && AboutCycle(cycles) && ProviderFailed(view.last) && NoRouteLeft()
      modifies `trace, `views, `view, store
      ensures Stretch(0, Some(r)) && Quiet() && (r.Returned? ==> r.terminal.Blocked?)
    {
      hide Valid, Unused, CanEnd, AllVerified, ReadState, Bounded, Inv, Unavailable, FirstRecord, Explained, SelectFallback;
      Linked();
      r := End(Terminal.Blocked, Unavailable(when, message), cycles, None);
      if r.Threw? {
        ThrowIsExplained(scene, view, r);
        return;
      }
      ProviderExplains(scene, view, r, state, Ended(state, Terminal.Blocked, Unavailable(when, message), None));
    }

    /** Give the mission back to the user. */
    method HandBack(why: Why, cycles: nat) returns (r: Outcome)
      requires Valid() && Assigned() && !aborted && HandsBack(scene, view, cycles)
      modifies `trace, `views, `view, store
      ensures Stretch(0, Some(r)) && Quiet() && (r.Returned? ==> r.terminal.AwaitingUser?)
    {
      hide Valid, CanEnd, AllVerified, Unused, ReadState, Bounded, Inv, Reason, HandsBack, Explained;
      Linked();
      ghost var before := view;
      r := End(Terminal.AwaitingUser, Reason(why), cycles, None);
      Linked();
      HandBackExplains(scene, before, view, r);
    }

    /** Count a protocol failure, and tell the Boss about it in the next cycle unless this was the last. */
    method PlanUnusable(message: Text, actionable: bool, cycle: nat, ghost before: seq<Text>) returns (r: Option<Outcome>)
      requires Valid() && Assigned() && !aborted && InCycle(cycle)
      requires view.last == FromBoss(Plan, Awaited.Rejected(OtherCause(message, actionable)))
      requires FailuresCounted(before) && view.failures == before + [Take(message, 240)]
      modifies `state, `mission, `feedback, `repeatedProtocolErrors, `trace, `views, `view, store
      ensures StopsFor(OtherCause(message, actionable), cycle, r) && Stretch(0, r) && Quiet()
      ensures r.None? ==> FailuresCounted(view.failures) && Unhindered(scene, view) && Abreast()
    {
      hide OnFile, FiledAs, Bounded, Valid, Traced, Unused, AllVerified, FirstRecord, RefusedTooOften, Explained, Tail,
           Take;
      var repeated, thrown := NoteFailure(message, actionable, Some(Note("boss-plan-failure", message)), before);
      if thrown.Some? {
        ThrowIsExplained(scene, view, Threw(thrown.value));
        return Some(Threw(thrown.value));
      }
      if repeated || cycle + 1 >= config.maxCycles {
        var o := HandBack(if repeated then Repeated(message) else NoPlan, cycle + 1);
        return Some(o);
      }
      HeardIsFiled();
      return None;
    }

    /** What a failed request leaves to its handler. */
    ghost predicate Failed(failure: Failure, phase: Phase, cycle: nat, before: seq<Text>)
      reads `state, `assignment, `repeatedProtocolErrors, `aborted, `view
    {
      && InCycle(cycle) && view.last.FromBoss? && view.last.phase == phase && FailuresCounted(before)
      && (if aborted then failure.CancellationCause? else view.last.decision == Awaited.Rejected(failure))
      && (failure.Infrastructure? ==> NoRouteLeft())
      && (failure.OtherCause? ==> view.failures == before + [Take(failure.message, 240)])
    }

    method PlanFailed(failure: Failure, cycle: nat, ghost before: seq<Text>) returns (r: Option<Outcome>)
      requires Valid() && Assigned() && Failed(failure, Plan, cycle, before)
      modifies `state, `mission, `feedback, `repeatedProtocolErrors, `trace, `views, `view, store
      ensures StopsFor(failure, cycle, r) && Stretch(0, r) && Quiet()
      ensures r.None? ==> FailuresCounted(view.failures) && failure.OtherCause? && Unhindered(scene, view) && Abreast()
    {
      hide Valid, Unused, AllVerified, FirstRecord, Explained, Tail, Take;
      if failure.OtherCause? {
        r := PlanUnusable(failure.message, failure.actionable, cycle, before);
      } else {
        var o := StopFor(failure, Planning, cycle);
        r := Some(o);
      }
    }

    /** The same for an evaluation: it is counted, but only the last cycle ends the run. */
    method EvaluationUnusable(message: Text, actionable: bool, cycle: nat, ghost before: seq<Text>) returns (r: Option<Outcome>)
      requires Valid() && Assigned() && !aborted && InCycle(cycle)
      requires view.last == FromBoss(Evaluate, Awaited.Rejected(OtherCause(message, actionable)))
      requires FailuresCounted(before) && view.failures == before + [Take(message, 240)]
      modifies `state, `mission, `feedback, `repeatedProtocolErrors, `trace, `views, `view, store
      ensures StopsFor(OtherCause(message, actionable), cycle, r) && Stretch(0, r) && Quiet()
      ensures r.None? ==> FailuresCounted(view.failures) && Unhindered(scene, view) && Abreast()
    {
      hide OnFile, FiledAs, Bounded, Valid, Ops.Apply, Run, Unused, AllVerified, FirstRecord, RefusedTooOften, Explained,
           Tail, Take;
      var _, thrown := NoteFailure(message, actionable, feedback, before);
      if thrown.Some? {
        ThrowIsExplained(scene, view, Threw(thrown.value));
        return Some(Threw(thrown.value));
      }
      if cycle + 1 >= config.maxCycles {
        var o := HandBack(NoEvaluation, cycle + 1);
        return Some(o);
      }
      HeardIsFiled();
      return None;
    }

    method EvaluationFailed(failure: Failure, cycle: nat, ghost before: seq<Text>) returns (r: Option<Outcome>)
      requires Valid() && Assigned() && Failed(failure, Evaluate, cycle, before)
      modifies `state, `mission, `feedback, `repeatedProtocolErrors, `trace, `views, `view, store
      ensures StopsFor(failure, cycle, r) && Stretch(0, r) && Quiet()
      ensures r.None? ==> FailuresCounted(view.failures) && failure.OtherCause? && Unhindered(scene, view) && Abreast()
    {
      hide Valid, Unused, AllVerified, FirstRecord, Explained, Tail, Take;
      if failure.OtherCause? {
        r := EvaluationUnusable(failure.message, failure.actionable, cycle, before);
      } else {
        var o := StopFor(failure, Evaluating, cycle + 1);
        r := Some(o);
      }
    }

    // ----- planning -----

    /** The last thing heard, in this cycle, is this decision. */
    ghost predicate Heeds(decision: BossDecision, cycle: nat)
      reads `view
    {
      InCycle(cycle) && view.asked == view.last && view.last.FromBoss? && view.last.decision == Resolved(decision)
    }

    method Grant(decision: BossDecision, cycle: nat) returns (r: Outcome)
      requires Valid() && Assigned() && !aborted && AllVerified(store.db, m)
      requires Heeds(decision, cycle) && decision.action.Complete? && decision.acceptanceSatisfied
      modifies `trace, `views, `view, store
      ensures Stretch(0, Some(r)) && Quiet() && (r.Returned? ==> r.terminal.Completed?)
      ensures r.Returned? <==> CanEnd(old(store.db), m, mission.revision, MissionStatus.Completed)
    {
      hide Valid, Unused, CanEnd, AllVerified, ReadState, Bounded, Inv, Explained;
      Linked();
      r := End(Terminal.Completed, decision.summary, cycle + 1, None);
      SameVerified(old(store.db), store.db, m);
      CompletionExplains(scene, view, r);
    }

    /** Both of the loop's readings of the gates. */
    method GatesOpen() returns (ok: bool)
      ensures ok <==> AllVerified(store.db, m)
    {
      hide AllVerified, ActiveTasks, TaskVerified;
      var precluded := QualityPrecludesComplete(config.digest, store.db, m);
      var verified := CompletedAndVerified(store.db, m);
      return precluded.None? && verified;
    }

    /** A completion the Boss asks for is granted only when both readings of the gates allow it. */
    method CompletionGate(decision: BossDecision, cycle: nat) returns (r: Option<Outcome>)
      requires Valid() && Assigned() && !aborted && Heeds(decision, cycle) && decision.action.Complete? && Abreast()
      modifies `feedback, `mission, `trace, `views, `view, store
      ensures Stretch(0, r) && Quiet() && (r.None? ==> Unhindered(scene, view))
      ensures r.Some? && r.value.Returned? ==> r.value.terminal.Completed? && decision.acceptanceSatisfied
      ensures Earned(old(store.db), m, old(mission.revision), decision) ==> r.Some? && r.value.Returned?
    {
      hide Valid, Unused, CanEnd, AllVerified, ReadState, Bounded, Inv, Explained;
      var gatesOpen := GatesOpen();
      Sane();
      Linked();
      EarnedCanEnd(store.db, m, mission.revision, decision);
      if gatesOpen && decision.acceptanceSatisfied {
        var o := Grant(decision, cycle);
        return Some(o);
      }
      ghost var before := view;
      var thrown := RefuseCompletion();
      Linked();
      JustifiedSame(scene, before, view);
      if thrown.Some? {
        ThrowIsExplained(scene, view, Threw(thrown.value));
        return Some(Threw(thrown.value));
      }
      HeardIsFiled();
      return None;
    }

    method RefuseCompletion() returns (thrown: Option<Error>)
      requires Valid()
      modifies `feedback, `mission, `trace, `views, `view, store
      ensures Valid() && Quiet() && view.refused == thrown && store.db.tasks == old(store.db.tasks) && store.db.quality == old(store.db.quality)
      ensures thrown.None? ==> Written()
    {
      hide Valid, ReadState, Bounded;
      feedback := Some(Note("boss-completion-rejected", "Completion was requested before all tasks and verification gates passed"));
      thrown := PersistState();
    }

    /** What a decision may do to the run: end it in its own way, or leave it going. */
    predicate Follows(decision: BossDecision, r: Option<Outcome>) {
      && (decision.action.Blocked? || decision.action.AwaitingUser? ==> r.Some?)
      && (r.Some? && r.value.Returned? ==>
            match decision.action
            case Blocked => r.value.terminal.Blocked?
            case AwaitingUser => r.value.terminal.AwaitingUser?
            case Complete => r.value.terminal.Completed? && decision.acceptanceSatisfied
            case _ => false)
    }

    /** The Boss gives the mission up. */
    method StopBlocked(decision: BossDecision, cycle: nat) returns (r: Outcome)
      requires Valid() && Assigned() && !aborted && Heeds(decision, cycle) && decision.action.Blocked?
      modifies `trace, `views, `view, store
      ensures Stretch(0, Some(r)) && Quiet() && (r.Returned? ==> r.terminal.Blocked?)
    {
      hide Valid, Unused, CanEnd, AllVerified, ReadState, Bounded, Inv, Explained;
      Linked();
      r := End(Terminal.Blocked, decision.summary, cycle + 1, None);
      BlockedExplains(scene, view, r);
    }

    /** Act on a recorded decision. */
    method ActUpon(decision: BossDecision, cycle: nat) returns (r: Option<Outcome>)
      requires Valid() && Assigned() && !aborted && view.refused.None? && Heeds(decision, cycle) && Written() && Abreast()
      modifies `feedback, `mission, `trace, `views, `view, store
      ensures Stretch(0, r) && Quiet() && Follows(decision, r) && (r.None? ==> Unhindered(scene, view))
      ensures Earned(old(store.db), m, old(mission.revision), decision) ==> r.Some? && r.value.Returned? && r.value.terminal.Completed?
    {
      hide Valid, Unused, CanEnd, AllVerified, ReadState, Bounded, Inv, Explained, FailedAlike, CyclesSpent,
           RefusedTooOften;
      match decision.action
      case Blocked =>
        var o := StopBlocked(decision, cycle);
        return Some(o);
      case AwaitingUser =>
        var o := HandBack(Said(decision.summary), cycle + 1);
        return Some(o);
      case Complete => r := CompletionGate(decision, cycle);
      case _ =>
        HeardIsFiled();
        return None;
    }

    method AdoptPlan(plan: BossDecision, cycle: nat) returns (r: Option<Outcome>)
      requires Valid() && Assigned() && !aborted && Heeds(plan, cycle) && view.last.phase.Plan?
      modifies `state, `feedback, `mission, `trace, `views, `view, store
      ensures Stretch(0, r) && Quiet() && Follows(plan, r) && (r.None? ==> Unhindered(scene, view) && Abreast())
      ensures FailuresKept()
      ensures Earned(old(store.db), m, old(mission.revision), plan) ==> r.Some? && r.value.Returned? && r.value.terminal.Completed?
    {
      hide Valid, Unused, CanEnd, AllVerified, ReadState, Bounded, Inv, Earned, ActionText, Explained;
      Linked();
      var thrown := RecordDecision(state.(lastDecision := Some(LastDecision(Plan, ActionText(plan.action), plan.summary))));
      EarnedKept(old(store.db), store.db, m, old(mission.revision), mission.revision, plan);
      if thrown.Some? {
        EarnedIsCurrent(old(store.db), m, old(mission.revision), plan);
        ThrowIsExplained(scene, view, Threw(thrown.value));
        return Some(Threw(thrown.value));
      }
      r := ActUpon(plan, cycle);
    }

    /** What planning in this cycle came to, from the last reply it got. */
    ghost predicate Planned(r: Option<Outcome>, plan: Option<BossDecision>, reply: Awaited<BossDecision>, cycle: nat) {
      if plan.Some? then reply == Resolved(plan.value) && Follows(plan.value, r)
      else if r.Some? && r.value.Threw? then true
      else reply.Rejected? && StopsFor(reply.failure, cycle, r)
    }

    /** A usable reply has been heard in this cycle; an unusable one has been noted beside the failures before it. */
    ghost predicate Arrived(invoked: Invoked, phase: Phase, cycle: nat, before: seq<Text>)
      reads `state, `assignment, `repeatedProtocolErrors, `aborted, `view
    {
      view.due.None? && view.owed == {} &&
      match invoked
      case Decided(decision) =>
        && !aborted && Heeds(decision, cycle) && view.last.phase == phase && FailuresCounted(view.failures)
        && view.planned == PlannedBy(phase, Resolved(decision)) && view.taken == 0 && view.refused.None?
      case Undecided(failure) => Failed(failure, phase, cycle, before) && view.asked == view.last
      case Broke(_) => false
    }

    /** The loop may go on with the tasks of this plan. */
    ghost predicate MayWork(plan: BossDecision, cycle: nat)
      reads `view
    {
      && InCycle(cycle) && MayGoOn(scene, view) && view.asked == FromBoss(Plan, Resolved(plan)) && GoesOn(view.asked.decision)
      && view.planned == plan.tasks && view.taken == 0
    }

    method UsePlan(invoked: Invoked, ghost reply: Awaited<BossDecision>, cycle: nat, ghost before: seq<Text>)
      returns (r: Option<Outcome>, plan: Option<BossDecision>)
      requires Valid() && Assigned() && Arrived(invoked, Plan, cycle, before)
      requires aborted || reply == ReplyOf(invoked)
      modifies `state, `mission, `feedback, `repeatedProtocolErrors, `trace, `views, `view, store
      ensures Stretch(0, r) && Quiet()
      ensures plan == if invoked.Decided? then Some(invoked.decision) else None
      ensures if aborted then r.Some? && plan.None? else Planned(r, plan, reply, cycle)
      ensures r.None? ==> FailuresCounted(view.failures) && if plan.Some? then MayWork(plan.value, cycle) else ReadyFor(cycle + 1)
    {
      hide OnFile, Justified, Tells, FiledAs, Valid, Unused, AllVerified, FirstRecord, Explained, Tail, Take;
      Linked();
      match invoked
      case Undecided(failure) =>
        r := PlanFailed(failure, cycle, before);
        return r, None;
      case Decided(decision) =>
        r := AdoptPlan(decision, cycle);
        return r, Some(decision);
    }

    /** Ask for a decision in this cycle. */
    method AskFor(phase: Phase, cycle: nat) returns (r: Invoked)
      requires Valid() && Assigned() && !aborted && MayGoOn(scene, view) && MayAsk(scene, view, phase) && FailuresCounted(view.failures)
      requires view.cycle + (if BeginsCycle(view, phase) then 1 else 0) == cycle + 1
      modifies `state, `assignment, `mission, `turns, `now, `aborted, `trace, `views, `view, store
      ensures Valid() && Assigned() && OnlyAsked() && Budget() <= old(Budget()) + 1 && turns > old(turns)
      ensures if r.Broke? then view.refused == Some(r.error) else Arrived(r, phase, cycle, old(view).failures)
      ensures r.Broke? || aborted || env(turns - 1).decision == ReplyOf(r)
    {
      hide Valid, Unused, NoRouteLeft, Merged, EachAnswers, BeginsCycle, PlannedBy, MayAsk, Tail, Take;
      ghost var before := view.failures;
      r := InvokeWithFallback(phase);
      assert before + [] == before;
    }

    method AskForPlan(cycle: nat) returns (r: Option<Outcome>, plan: Option<BossDecision>)
      requires Valid() && Assigned() && !aborted && ReadyFor(cycle) && Resumable(scene, view) && FailuresCounted(view.failures)
      modifies `state, `assignment, `mission, `feedback, `repeatedProtocolErrors, `turns, `now, `aborted, `trace, `views, `view, store
      ensures Stretch(1, r) && OnlyAsked()
      ensures aborted ==> r.Some? && plan.None?
      ensures !aborted ==> (turns > old(turns) && Planned(r, plan, env(turns - 1).decision, cycle)) || (r.Some? && r.value.Threw?)
      ensures r.None? ==> FailuresCounted(view.failures) && if plan.Some? then MayWork(plan.value, cycle) else ReadyFor(cycle + 1)
    {
      hide OnFile, Justified, Tells, FiledAs, Resumable, Valid, Unused, AllVerified, StopsFor, Explained, FirstRecord,
           FailuresCounted, Follows, NoRouteLeft, Arrived, MayWork, MayGoOn;
      Linked();
      ghost var before := view.failures;
      var invoked := AskFor(Plan, cycle);
      if invoked.Broke? {
        ThrowIsExplained(scene, view, Threw(invoked.error));
        return Some(Threw(invoked.error)), None;
      }
      r, plan := UsePlan(invoked, env(turns - 1).decision, cycle, before);
    }

    /** Put the cycle about to begin on file. */
    method BeginCycle(cycle: nat) returns (thrown: Option<Error>)
      requires Valid() && Assigned() && !aborted && ReadyFor(cycle) && FailuresCounted(view.failures)
      modifies `state, `mission, `trace, `views, `view, store
      ensures Valid() && Assigned() && Quiet() && view.refused == thrown && Budget() == old(Budget())
      ensures thrown.None? ==> ReadyFor(cycle) && Resumable(scene, view) && FailuresCounted(view.failures)
    {
      hide OnFile, FiledAs, Resumable, ReadState, Bounded, AllVerified, Valid, Unused, FirstRecord, Tail, WorkedOff,
           Justified;
      Linked();
      ghost var before := view;
      thrown := Record(state.(cycle := cycle));
      if thrown.Some? { return; }
      Linked();
      JustifiedSame(scene, before, view);
      HeardIsFiled();
      CycleIsFiled(cycle);
    }

    /** Without an outcome and without a plan, the loop goes on with the next cycle. */
    method PlanPhase(cycle: nat) returns (r: Option<Outcome>, plan: Option<BossDecision>)
      requires Valid() && Assigned() && ReadyFor(cycle) && FailuresCounted(view.failures)
      modifies `state, `assignment, `mission, `feedback, `repeatedProtocolErrors, `turns, `now, `aborted, `trace, `views, `view, store
      ensures Stretch(1, r) && OnlyAsked()
      ensures aborted ==> r.Some? && plan.None?
      ensures old(aborted) ==> turns == old(turns)
      ensures !aborted ==> (turns > old(turns) && Planned(r, plan, env(turns - 1).decision, cycle)) || (r.Some? && r.value.Threw?)
      ensures r.None? ==> FailuresCounted(view.failures) && if plan.Some? then MayWork(plan.value, cycle) else ReadyFor(cycle + 1)
    {
      hide Valid, Unused, AllVerified, StopsFor, Explained, FirstRecord, Tail, Resumable, MayGoOn, MayBegin, Tells, Planned,
           MayWork;
      Linked();
      if aborted {
        var o := StopCancelled(BeforeCycle, cycle);
        return Some(o), None;
      }
      var thrown := BeginCycle(cycle);
      if thrown.Some? {
        ThrowIsExplained(scene, view, Threw(thrown.value));
        return Some(Threw(thrown.value)), None;
      }
      r, plan := AskForPlan(cycle);
    }

    // ----- one planned task -----

    /** Nothing but work on the plan at hand. */
    twostate predicate OnlyWorked()
      reads `view, `state
    {
      && view == old(view).(db := view.db, revision := view.revision, refused := view.refused, turns := view.turns, aborted := view.aborted,
                            dispatches := view.dispatches, verifications := view.verifications, last := view.last,
                            taken := view.taken, due := view.due, owed := view.owed, refusals := view.refusals)
      && FailuresKept()
    }

    /** Nothing but calls on the store, some of which promote evidence. */
    twostate predicate OnlyPromoted()
      reads `view
    {
      view == old(view).(db := view.db, revision := view.revision, refused := view.refused, owed := view.owed)
    }

    /** Ask the store to promote one piece of evidence. */
    method Offer(e: Id, itemId: Id, options: Ops.PromoteOptions)
      requires Valid() && e in store.db.evidence && store.db.evidence[e].mission == m && options.target == Ops.CompletedWork
      requires var next := Ops.PromoteEvidence(store.db, now, e, itemId, options).db; Inv(next) && m in next.missions
      modifies `trace, `views, `view, store
      ensures Valid() && OnlyPromoted() && view.owed == old(view).owed - {e}
      ensures store.db == Ops.PromoteEvidence(old(store.db), now, e, itemId, options).db
    {
      hide SoundPlan, ReadState, FirstRecord, FirstView, Inv, Keeps, Evolves, Ops.PromoteEvidence, Ops.Apply, Traced, Run,
           Refused, Sound, Recorded;
      PromoteCalled(store.db, now, e, itemId, options);
      LogOther(Ops.OpPromote(e, itemId, options));
      var _ := store.PromoteEvidence(now, e, itemId, options);
    }

    method PromoteOne(e: Id)
      requires Valid() && e in store.db.evidence && store.db.evidence[e].mission == m
      modifies `made, `trace, `views, `view, store
      ensures Valid() && OnlyPromoted() && view.owed == old(view).owed - {e}
      ensures forall e | e in old(store.db.evidence) :: StillOurs(old(store.db.evidence), store.db.evidence, e)
    {
      hide Inv, Valid, Ops.PromoteEvidence, Ops.Apply;
      Sane();
      var options := Ops.PromoteOptions(None, None, Ops.CompletedWork);
      PromoteEffect(store.db, now, m, e, config.newId(made), options);
      Offer(e, config.newId(made), options);
      made := made + 1;
    }

    /** Promote what the task's work proposed, one piece at a time and each of them; a refused promotion is passed over. */
    method PromoteProposed(t: Id)
      requires Valid() && view.owed <= set e | e in store.db.evidence && ProposedFor(store.db, m, t, e)
      modifies `made, `trace, `views, `view, store
      ensures Valid() && OnlyPromoted() && view.owed == {}
    {
      hide Valid;
      var todo := set e | e in store.db.evidence && ProposedFor(store.db, m, t, e);
      while todo != {}
        invariant Valid() && OnlyPromoted() && forall e | e in todo :: e in store.db.evidence && store.db.evidence[e].mission == m
        invariant view.owed <= todo
        decreases todo
      {
        var e :| e in todo;
        PromoteOne(e);
        todo := todo - {e};
      }
    }

    /** Send the mission back to the user over a repeated rejection. */
    method RefuseRepeat(cycle: nat) returns (r: Outcome)
      requires Valid() && Assigned() && !aborted && InCycle(cycle) && RefusedTooOften(scene, view)
      modifies `mission, `trace, `views, `view, store
      ensures Stretch(0, Some(r)) && Quiet() && (r.Returned? ==> r.terminal.AwaitingUser?)
      ensures r.Returned? <==> CanEnd(old(store.db), m, old(mission.revision), AwaitingReview)
    {
      hide Valid, Unused, AllVerified, ReadState, Bounded, Inv, Completable, Reason, Explained, RefusedTooOften,
           FirstRecord, FailedAlike, CyclesSpent;
      Linked();
      ghost var before := view;
      var thrown := PersistState();
      if thrown.Some? {
        ThrowIsExplained(scene, view, Threw(thrown.value));
        return Threw(thrown.value);
      }
      r := End(Terminal.AwaitingUser, Reason(SameRefusal), cycle + 1, None);
      Linked();
      HandBackExplains(scene, before, view, r);
    }

    /** Count a refusal that has just come in. */
    method CountRefusal(next: Refusal, ghost before: seq<Refusal>) returns (count: nat)
      requires Core() && Assigned() && Recorded(First(), before, state) && view.refusals == before + [next]
      modifies `state
      ensures Valid() && Assigned() && Budget() == old(Budget())
      ensures state == old(state).(lastFingerprint := Some(next.fingerprint), repeatedRejections := Some(count))
      ensures count == NextCount(old(state), next.fingerprint)
      ensures Overdone(First(), view.refusals) <==> count >= RepeatThreshold(next.db, next.t)
    {
      hide Inv, Traced, Sound, FirstRecord, Unused, LastAttempt;
      count := NextCount(state, next.fingerprint);
      OneMoreRecalled(First(), before, next);
      SoundSame(scene, turns, state, state.(lastFingerprint := Some(next.fingerprint), repeatedRejections := Some(count)));
      state := state.(lastFingerprint := Some(next.fingerprint), repeatedRejections := Some(count));
    }

    /** The refusal that has just come in for this task. */
    ghost function Latest(t: Id, fingerprint: Text): Refusal
      requires turns > 0
      reads `turns, `mission, store
    {
      Refusal(turns - 1, t, fingerprint, store.db, mission.revision)
    }

    /** One that has been recorded often enough sends the mission back to the user. */
    method RecordRefusal(fingerprint: Text, t: Id, cycle: nat, ghost before: seq<Refusal>) returns (r: Option<Outcome>)
      requires Core() && Assigned() && !aborted && Recorded(First(), before, state) && Settled(First(), before, m, None)
      requires InCycle(cycle) && view.last.FromVerifier? && turns > 0 && view.refusals == before + [Latest(t, fingerprint)]
      modifies `state, `mission, `trace, `views, `view, store
      ensures Stretch(0, r) && Quiet() && SettledWith(r) && FailuresKept()
      ensures r.Some? <==> NextCount(old(state), fingerprint) >= RepeatThreshold(old(store.db), t)
      ensures r.Some? <==> Overdone(First(), view.refusals)
      ensures r.Some? ==> (r.value.Returned? <==> CanEnd(old(store.db), m, old(mission.revision), AwaitingReview))
      ensures r.Some? && r.value.Returned? ==> r.value.terminal.AwaitingUser?
      ensures r.Some? && r.value.Threw? ==> SettledWith(None)
    {
      hide Core, Valid, FirstRecord, Settled, Recorded, CanEnd, AllVerified, Unused, LastAttempt, NextCount, Explained,
           Overdone, RepeatThreshold;
      Relinked();
      ghost var next := Latest(t, fingerprint);
      var threshold := RepeatThreshold(store.db, t);
      var count := CountRefusal(Refusal(turns - 1, t, fingerprint, store.db, mission.revision), before);
      if count < threshold {
        OneMoreRefusal(First(), before, m, next, None);
        return None;
      }
      var o := RefuseRepeat(cycle);
      OneMoreRefusal(First(), before, m, next, if o.Returned? then Some(o) else None);
      if o.Threw? { StillSettled(Some(o)); }
      return Some(o);
    }

    /** A pass promotes the work's evidence; anything else is a refusal, recorded when it has a fingerprint. */
    method ActOn(verdict: Verified, t: Id, instruction: Text, cycle: nat, ghost before: seq<Refusal>) returns (r: Tried)
      requires Core() && Assigned() && !aborted && Recorded(First(), before, state) && Settled(First(), before, m, None)
      requires InCycle(cycle) && view.last.FromVerifier? && turns > 0 && view.owed == OwedFor(scene, view, t, Resolved(verdict))
      requires !verdict.Cancelled? && view.refusals == before + RefusalOf(scene, Resolved(verdict), view, t, instruction)
      modifies `state, `mission, `made, `trace, `views, `view, store
      ensures Stretch(0, if r.Left? then Some(r.outcome) else None) && OnlyPromoted() && view.owed == {}
      ensures FailuresKept()
      ensures if r.Left? then r.outcome.Returned? && SettledWith(Some(r.outcome)) else SettledWith(None)
      ensures !r.Raised? && (r.Fell? ==> r == Fell(verdict))
      ensures verdict.Pass? ==> r == Fell(verdict) && m in store.db.missions && mission == store.db.missions[m]
    {
      hide Core, Valid, FirstRecord, Settled, Recorded, CanEnd, AllVerified, Unused, Fingerprint, Overdone, Explained,
           RepeatThreshold, NextCount;
      NothingNew(before);
      var fingerprint := Fingerprint(config.digest, store.db, m, t, instruction);
      if verdict.Pass? {
        PromoteProposed(t);
        Reread();
        return Fell(verdict);
      }
      if fingerprint.None? { return Fell(verdict); }
      var o := RecordRefusal(fingerprint.value, t, cycle, before);
      if o.None? { return Fell(verdict); }
      if o.value.Threw? { return RaisedError(o.value.error); }
      return Left(o.value);
    }

    /** Take the mission's row as it is now. */
    method Reread()
      requires Valid()
      modifies `mission, `trace, `views, `view
      ensures Valid() && Quiet() && m in store.db.missions && mission == store.db.missions[m]
    {
      hide SoundPlan, ReadState, FirstRecord, FirstView, Inv, Traced, Sound, Recorded, Ops.Apply, Run, Refused, LoopCall,
           MayGoOn, MayAsk, Live, Suits, Exhausts;
      Log(Event.Reread);
      mission := store.db.missions[m];
    }

    /** A worker's turn on this task has just ended, and its work is to be verified. */
    ghost predicate ToBeJudged(spec: TaskSpec, t: Id)
      reads `trace, `view
    {
      JustDispatched(trace, spec, t) && view.last.FromWorker? && WorkEnded(view.last.outcome) && view.due.None? && view.owed == {}
    }

    /** One verification, right after its dispatch. */
    method AwaitVerdict(spec: TaskSpec, t: Id) returns (turn: Turn)
      requires Valid() && ToBeJudged(spec, t) && !aborted
      modifies `turns, `now, `aborted, `trace, `views, `view, store
      ensures Core() && Recorded(First(), old(view).refusals, state)
      ensures turn == env(old(turns)) && turns == old(turns) + 1 && aborted == turn.aborts
      ensures OnlyWorked() && view.taken == old(view).taken && view.dispatches == old(view).dispatches
      ensures view.due.None? && view.last == FromVerifier(turn.verified) && view.owed == OwedFor(scene, view, t, turn.verified)
      ensures view.refusals == old(view).refusals + Refused(scene, old(view), t, spec.objectiveKey)
      ensures Refused(scene, old(view), t, spec.objectiveKey) == RefusalOf(scene, turn.verified, view, t, spec.objectiveKey)
    {
      hide Core, Traced, Recorded, Run, Fingerprint, Ops.Apply, FirstRecord, WorkEnded;
      Linked();
      turn := Await(Judged(t, spec.objectiveKey));
      SameRefusalOf(scene, turn.verified, Next(scene, old(view), Judged(t, spec.objectiveKey)), AfterAwait(scene, old(view)), t, spec.objectiveKey);
    }

    /** What the reply of a verification leads to. */
    method UseVerdict(reply: Awaited<Verified>, t: Id, instruction: Text, cycle: nat, ghost before: seq<Refusal>) returns (r: Tried)
      requires Core() && Assigned() && Recorded(First(), before, state) && Settled(First(), before, m, None)
      requires InCycle(cycle) && view.last == FromVerifier(reply) && turns > 0 && view.owed == OwedFor(scene, view, t, reply)
      requires view.refusals == before + RefusalOf(scene, reply, view, t, instruction)
      modifies `state, `mission, `made, `trace, `views, `view, store
      ensures Stretch(0, if r.Left? then Some(r.outcome) else None) && OnlyPromoted() && view.owed == {}
      ensures FailuresKept()
      ensures if r.Left? then r.outcome.Returned? && SettledWith(Some(r.outcome)) else SettledWith(None)
      ensures r.Fell? ==> !aborted && reply == Resolved(r.verified)
      ensures if r.Raised? then reply == Awaited.Rejected(r.cause) else reply.Resolved?
    {
      hide Valid, Core, FirstRecord, Settled, Recorded, CanEnd, AllVerified, Unused, Fingerprint, Explained, ProposedFor,
           RefusalOf;
      NothingNew(before);
      if reply.Rejected? {
        NoRefusal(reply, t, instruction, before);
        return Raised(reply.failure);
      }
      if reply.value.Cancelled? || aborted {
        NoRefusal(reply, t, instruction, before);
        r := StopVerifying(cycle);
        return;
      }
      r := ActOn(reply.value, t, instruction, cycle, before);
    }

    /** A cancelled verification ends the run, unless the store refuses. */
    method StopVerifying(cycle: nat) returns (r: Tried)
      requires Valid() && Assigned() && SettledWith(None) && InCycle(cycle) && (aborted || Cancels(view.last))
      modifies `trace, `views, `view, store
      ensures Stretch(0, if r.Left? then Some(r.outcome) else None) && Quiet() && (r.Left? || r.RaisedError?)
      ensures if r.Left? then r.outcome.Returned? && SettledWith(Some(r.outcome)) else SettledWith(None)
    {
      hide Valid, FirstRecord, Settled, CanEnd, AllVerified, Unused, Explained, Cancels;
      Linked();
      var o := StopCancelled(Verifying, cycle + 1);
      if o.Threw? { return RaisedError(o.error); }
      StillSettled(Some(o));
      return Left(o);
    }

    lemma NoRefusal(reply: Awaited<Verified>, t: Id, instruction: Text, before: seq<Refusal>)
      requires Core() && Recorded(First(), before, state) && Settled(First(), before, m, None)
      requires turns > 0 && (reply.Rejected? || reply.value.Cancelled? || aborted)
      requires view.refusals == before + RefusalOf(scene, reply, view, t, instruction)
      ensures Valid() && SettledWith(None)
    {
      hide Settled, Recorded, Fingerprint, FirstRecord, Inv, Traced, Sound;
      assert before + [] == before;
    }

    /** The block whose exceptions the loop catches: verify, and act on the verdict. */
    method VerifyGuarded(spec: TaskSpec, t: Id, cycle: nat) returns (r: Tried)
      requires Valid() && Assigned() && SettledWith(None) && ToBeJudged(spec, t) && InCycle(cycle)
      modifies `state, `mission, `made, `turns, `now, `aborted, `trace, `views, `view, store
      ensures Stretch(0, if r.Left? then Some(r.outcome) else None) && OnlyWorked()
      ensures view.taken == old(view).taken && view.dispatches == old(view).dispatches && view.due.None? && view.owed == {}
      ensures if r.Left? then r.outcome.Returned? && SettledWith(Some(r.outcome)) else SettledWith(None)
      ensures aborted ==> !r.Fell?
      ensures r.Fell? ==> env(old(turns)).verified == Resolved(r.verified)
      ensures if old(aborted) then view == old(view)
              else view.refusals == old(view).refusals + Refused(scene, old(view), t, spec.objectiveKey)
      ensures !old(aborted) ==> view.last == FromVerifier(env(old(turns)).verified)
      ensures r.Raised? && !aborted ==> view.last == FromVerifier(Awaited.Rejected(r.cause))
      ensures r.RaisedError? && !aborted ==> env(old(turns)).verified.Resolved?
    {
      hide Valid, Core, FirstRecord, Settled, Recorded, CanEnd, AllVerified, Unused, JustDispatched, Refused, RefusalOf,
           Explained;
      Linked();
      if aborted { return Raised(CancellationCause); }
      ghost var before := view.refusals;
      var turn := AwaitVerdict(spec, t);
      r := UseVerdict(turn.verified, t, spec.objectiveKey, cycle, before);
    }

    lemma NothingNew(before: seq<Refusal>)
      requires Core() && Recorded(First(), before, state)
      ensures before + [] == before && (view.refusals == before ==> Valid())
      ensures view.aborted == aborted && view.db == store.db && view.revision == mission.revision && view.turns == turns
    {
      hide Inv, Traced, Sound, Recorded;
    }

    /** An exception that is neither a cancellation nor a safety stop leaves the run going. */
    method Caught(tried: Tried, cycle: nat) returns (r: Option<Outcome>)
      requires Valid() && Assigned() && SettledWith(None) && (tried.Raised? || tried.RaisedError?) && InCycle(cycle)
      requires tried.Raised? && !aborted ==> view.last == FromVerifier(Awaited.Rejected(tried.cause))
      modifies `trace, `views, `view, store
      ensures Stretch(0, r) && SettledWith(r) && Quiet()
      ensures r.Some? <==> aborted || (tried.Raised? && (tried.cause.CancellationCause? || tried.cause.SafetyCause?))
      ensures r.Some? && r.value.Returned? && !aborted && tried.cause.SafetyCause? ==> r.value.terminal.SafetyStop?
    {
      hide Valid, Unused, CanEnd, AllVerified, FirstRecord, Settled, Explained;
      Linked();
      r := None;
      if aborted || (tried.Raised? && tried.cause.CancellationCause?) {
        var o := StopCancelled(Verifying, cycle + 1);
        r := Some(o);
      } else if tried.Raised? && tried.cause.SafetyCause? {
        var o := StopSafety(tried.cause.message, tried.cause.code, cycle + 1);
        r := Some(o);
      }
      StillSettled(r);
    }

    /** An exception the run goes on after counts as a blocked verification. */
    method VerifyTask(spec: TaskSpec, t: Id, cycle: nat) returns (r: Option<Outcome>, verdict: Verified)
      requires Valid() && Assigned() && SettledWith(None) && ToBeJudged(spec, t) && InCycle(cycle)
      modifies `state, `mission, `made, `turns, `now, `aborted, `trace, `views, `view, store
      ensures Stretch(0, r) && SettledWith(r) && OnlyWorked()
      ensures view.taken == old(view).taken && view.dispatches == old(view).dispatches
      ensures aborted ==> r.Some?
      ensures r.None? ==> MayGoOn(scene, view) && (verdict.Blocked? || env(old(turns)).verified == Resolved(verdict))
      ensures if old(aborted) then view.refusals == old(view).refusals
              else view.refusals == old(view).refusals + Refused(scene, old(view), t, spec.objectiveKey)
    {
      hide Valid, Unused, AllVerified, FirstRecord, Settled, Refused, JustDispatched, Explained;
      Linked();
      var tried := VerifyGuarded(spec, t, cycle);
      Linked();
      if tried.Fell? { return None, tried.verified; }
      if tried.Left? { return Some(tried.outcome), Verified.Blocked; }
      r := Caught(tried, cycle);
      return r, Verified.Blocked;
    }

    /** The task just turned to is to be dispatched: it was not refused like this as often as it may be. */
    ghost predicate ToBeDispatched(spec: TaskSpec, t: Id)
      reads `trace, `view
    {
      && JustTook(trace, spec, t) && !view.last.FromWorker? && view.owed == {}
      && view.due.Some? && view.due.value.t == t && !Exhausts(First(), view.refusals, view.due.value)
    }

    /** One call to a worker, right after the loop turned to its task; never made once the run is aborted. */
    method DispatchTask(spec: TaskSpec, t: Id, cycle: nat) returns (r: Option<Outcome>)
      requires Valid() && Assigned() && !aborted && ToBeDispatched(spec, t) && InCycle(cycle)
      modifies `turns, `now, `aborted, `trace, `views, `view, store
      ensures Stretch(0, r) && OnlyWorked() && turns == old(turns) + 1
      ensures view.taken == old(view).taken && view.dispatches == old(view).dispatches + 1 && view.refusals == old(view).refusals
      ensures r.None? ==> ToBeJudged(spec, t)
      ensures r.Some? <==> StopsWork(env(old(turns))) || SafetyStops(env(old(turns)))
      ensures r.Some? && r.value.Returned? ==> if StopsWork(env(old(turns))) then r.value.terminal.Cancelled? else r.value.terminal.SafetyStop?
      ensures aborted ==> r.Some?
    {
      hide Valid, Unused, CanEnd, AllVerified, Explained, FirstRecord, JustTook, JustDispatched, Exhausts;
      var turn := AwaitWorker(spec, t);
      Linked();
      if turn.outcome.Rejected? && turn.outcome.failure.SafetyCause? && !aborted {
        var o := StopSafety(turn.outcome.failure.message, turn.outcome.failure.code, cycle + 1);
        return Some(o);
      }
      if aborted || (turn.outcome.Rejected? && turn.outcome.failure.CancellationCause?) ||
         (turn.outcome.Resolved? && turn.outcome.value.Cancelled?) {
        var o := StopCancelled(Working, cycle + 1);
        return Some(o);
      }
      return None;
    }

    method AwaitWorker(spec: TaskSpec, t: Id) returns (turn: Turn)
      requires Valid() && ToBeDispatched(spec, t) && !aborted
      modifies `turns, `now, `aborted, `trace, `views, `view, store
      ensures Valid() && OnlyWorked() && JustDispatched(trace, spec, t)
      ensures view.due.None? && view.owed == {} && view.last == FromWorker(turn.outcome)
      ensures turn == env(old(turns)) && turns == old(turns) + 1 && aborted == turn.aborts
      ensures view.taken == old(view).taken && view.dispatches == old(view).dispatches + 1 && view.refusals == old(view).refusals
    {
      hide Core, Traced, Recorded, Run, Refused, Ops.Apply, FirstRecord, Exhausts;
      Linked();
      turn := Await(Event.Dispatched(t));
    }

    /** The loop has turned to this task, and this is what is left to do about it. */
    ghost predicate TurnedTo(spec: TaskSpec, t: Id)
      reads `trace, `view
    {
      JustTook(trace, spec, t) && view.due == DueOn(scene, view, spec, t) && MayGoOn(scene, view.(due := None)) && view.refused.None?
    }

    /** The task row for a planned piece of work, created when the mission has none to take up. */
    method ResolveTask(spec: TaskSpec) returns (t: Id, thrown: Option<Error>)
      requires Valid() && MayGoOn(scene, view) && IsNextTask(scene, view, spec)
      modifies `made, `trace, `views, `view, store
      ensures Valid() && OnlyWorked() && view.dispatches == old(view).dispatches && view.refusals == old(view).refusals
      ensures thrown.None? ==> Live(store.db.tasks, m, t) && TurnedTo(spec, t) && view.taken == old(view).taken + 1
      ensures thrown.Some? ==> view.refused == thrown
    {
      hide SoundPlan, ReadState, FirstRecord, FirstView, Exhausts, Inv, Keeps, Evolves, Traced, Sound, Recorded, Run,
           Refused, Ops.Apply, Ops.CreateTask, Matches, IsReusable, Names, Live, DueOn;
      ghost var op := Ops.OpCreateTask(config.newId(made), DraftOf(m, spec));
      CreateKeeps(store.db, now, m, op);
      ghost var before := store.db;
      var created;
      t, created, thrown := ResolveOrCreateMissionTask(store, now, m, spec, config.newId(made));
      made := made + 1;
      if created {
        CreatedSuits(before, now, m, spec, t);
        CreatedUnverified(before, now, m, spec, t);
        CreatedFiles(scene, before, now, t, spec);
        LogOther(op);
      }
      if thrown.None? { TurnTo(spec, t); }
    }

    ghost method TurnTo(spec: TaskSpec, t: Id)
      requires Valid() && MayGoOn(scene, view) && IsNextTask(scene, view, spec) && Live(store.db.tasks, m, t) && Suits(store.db, m, spec, t)
      modifies `trace, `views, `view
      ensures Valid() && OnlyWorked() && TurnedTo(spec, t) && view.taken == old(view).taken + 1
      ensures view.dispatches == old(view).dispatches && view.refusals == old(view).refusals
    {
      hide SoundPlan, ReadState, FirstRecord, FirstView, FiledAs, Tells, AllVerified, Inv, Traced, Sound, Recorded, Run,
           Refused, Ops.Apply, Live, Suits, Fingerprint, RepeatThreshold, TaskVerified;
      Log(Took(spec, t));
    }

    /** The same work was refused for the same reason as often as it may be. */
    predicate Exhausted(t: Id, instruction: Text)
      reads `state, store
    {
      var planned := Fingerprint(config.digest, store.db, m, t, instruction);
      planned.Some? && state.lastFingerprint == planned && state.repeatedRejections.GetOr(0) >= RepeatThreshold(store.db, t)
    }

    lemma WhatIsDue(spec: TaskSpec, t: Id)
      requires Valid() && view.due == DueOn(scene, view, spec, t)
      ensures view.due.None? <==> TaskVerified(store.db, t)
      ensures view.due.Some? ==> view.due.value.t == t && (Exhausted(t, spec.objectiveKey) <==> Exhausts(First(), view.refusals, view.due.value))
    {
      hide Inv, Traced, Sound, Fingerprint, FirstRecord, RepeatThreshold, TaskVerified, Recall;
    }

    /** Work that is already verified is not done again, and a refused repeat is not dispatched; all else is. */
    method WorkOn(spec: TaskSpec, t: Id, cycle: nat) returns (r: Option<Outcome>, verdict: Verified)
      requires Valid() && Assigned() && SettledWith(None) && !aborted && TurnedTo(spec, t) && InCycle(cycle)
      modifies `state, `mission, `made, `turns, `now, `aborted, `trace, `views, `view, store
      ensures Stretch(0, r) && SettledWith(r) && OnlyWorked() && view.taken == old(view).taken
      ensures (aborted ==> r.Some?) && (r.None? ==> MayGoOn(scene, view))
      ensures TaskVerified(old(store.db), t) ==> r.None? && verdict.Pass? && view == old(view)
      ensures !TaskVerified(old(store.db), t) && old(Exhausted(t, spec.objectiveKey)) ==>
        r.Some? && (r.value.Returned? ==> r.value.terminal.AwaitingUser?) && view.dispatches == old(view).dispatches
      ensures !TaskVerified(old(store.db), t) && !old(Exhausted(t, spec.objectiveKey)) ==> view.dispatches == old(view).dispatches + 1
    {
      hide Valid, Unused, CanEnd, AllVerified, FirstRecord, Settled, Exhausted, TaskVerified, Refused, JustTook, JustDispatched, StopsWork,
           Explained, DueOn, Exhausts, Overdone, WorkEnded;
      WhatIsDue(spec, t);
      if TaskVerified(store.db, t) { return None, Verified.Pass; }
      if Exhausted(t, spec.objectiveKey) {
        var o := RefuseRepeat(cycle);
        StillSettled(Some(o));
        return Some(o), Verified.Reject;
      }
      r, verdict := DispatchAndVerify(spec, t, cycle);
    }

    method DispatchAndVerify(spec: TaskSpec, t: Id, cycle: nat) returns (r: Option<Outcome>, verdict: Verified)
      requires Valid() && Assigned() && SettledWith(None) && !aborted && ToBeDispatched(spec, t) && InCycle(cycle)
      modifies `state, `mission, `made, `turns, `now, `aborted, `trace, `views, `view, store
      ensures Stretch(0, r) && SettledWith(r) && OnlyWorked() && view.taken == old(view).taken
      ensures (aborted ==> r.Some?) && (r.None? ==> MayGoOn(scene, view)) && view.dispatches == old(view).dispatches + 1
    {
      hide Valid, Unused, CanEnd, AllVerified, FirstRecord, Settled, Refused, StopsWork, Explained, ToBeDispatched,
           ToBeJudged;
      r := DispatchTask(spec, t, cycle);
      if r.Some? {
        StillSettled(r);
        return r, Verified.Cancelled;
      }
      r, verdict := VerifyTask(spec, t, cycle);
    }

    /** Resolve, dispatch and verify the next planned task. */
    method RunTask(spec: TaskSpec, cycle: nat) returns (r: Option<Outcome>, verdict: Verified)
      requires Valid() && Assigned() && SettledWith(None) && IsNextTask(scene, view, spec)
      requires InCycle(cycle) && (aborted || MayGoOn(scene, view))
      modifies `state, `mission, `made, `turns, `now, `aborted, `trace, `views, `view, store
      ensures Stretch(0, r) && SettledWith(r) && OnlyWorked()
      ensures r.None? ==> !aborted && MayGoOn(scene, view) && view.taken == old(view).taken + 1
      ensures view.dispatches <= old(view).dispatches + 1
    {
      hide Valid, Unused, CanEnd, AllVerified, FirstRecord, Settled, Exhausted, TaskVerified, Live, TurnedTo, IsNextTask,
           Explained, MayGoOn;
      Linked();
      if aborted {
        var o := StopCancelled(BeforeWork, cycle + 1);
        StillSettled(Some(o));
        return Some(o), Verified.Cancelled;
      }
      var t, thrown := ResolveTask(spec);
      Linked();
      if thrown.Some? {
        ThrowIsExplained(scene, view, Threw(thrown.value));
        StillSettled(Some(Threw(thrown.value)));
        return Some(Threw(thrown.value)), Verified.Blocked;
      }
      r, verdict := WorkOn(spec, t, cycle);
    }

    /** The tasks of the plan at hand, in its order, each turned to once, at most `maxTasks` of them. */
    method RunTasks(tasks: seq<TaskSpec>, cycle: nat) returns (r: Option<Outcome>, rejected: bool, count: nat)
      requires Valid() && Assigned() && SettledWith(None) && InRange(config) && view.planned == tasks && view.taken == 0
      requires InCycle(cycle) && (aborted || MayGoOn(scene, view))
      modifies `state, `mission, `made, `turns, `now, `aborted, `trace, `views, `view, store
      ensures Stretch(0, r) && SettledWith(r) && OnlyWorked()
      ensures view.dispatches <= old(view).dispatches + config.maxTasks
      ensures r.None? ==> count == view.taken && WorkedOff(scene, view) && (aborted || MayGoOn(scene, view))
      ensures aborted && |tasks| > 0 ==> r.Some?
    {
      hide Valid, Unused, CanEnd, AllVerified, FirstRecord, Settled, Explained, MayGoOn;
      rejected, count := false, 0;
      while count < |tasks| && count < config.maxTasks
        invariant 0 <= count <= config.maxTasks && count <= |tasks| && count == view.taken && (count > 0 ==> !aborted)
        invariant Stretch(0, None) && SettledWith(None) && OnlyWorked() && (aborted || MayGoOn(scene, view))
        invariant view.dispatches <= old(view).dispatches + count
      {
        var verdict;
        r, verdict := RunTask(tasks[count], cycle);
        count := count + 1;
        if r.Some? { return; }
        rejected := rejected || verdict.Reject?;
      }
      r := None;
    }

    // ----- evaluation -----

    predicate OutOfBudget(r: Option<Outcome>, cycle: nat) {
      r.Some? && r.value.Returned? && r.value.terminal.AwaitingUser? && cycle + 1 >= config.maxCycles
    }

    /** The record of a finished cycle; the last one goes back to the user. */
    method Progress(cycle: nat, tasksRun: nat) returns (r: Option<Outcome>)
      requires Valid() && Assigned() && !aborted && InCycle(cycle) && view.last.FromBoss? && view.last.phase.Evaluate?
      requires view.last.decision.Resolved? && GoesOn(view.last.decision) && !Justified(scene, view) && Abreast()
      modifies `state, `mission, `trace, `views, `view, store
      ensures Stretch(0, r) && Quiet() && FailuresKept()
      ensures r.Some? && r.value.Returned? ==> OutOfBudget(r, cycle)
      ensures r.None? ==> cycle + 1 < config.maxCycles && state.cycle == cycle + 1 && Unhindered(scene, view) && Abreast()
    {
      hide OnFile, FiledAs, Justified, Valid, Unused, AllVerified, Explained, FirstRecord, GoesOn, RefusedTooOften,
           FailedAlike;
      Linked();
      ghost var before := view;
      var thrown := Record(state.(cycle := cycle + 1, lastFeedback := feedback,
                                  productiveCycles := state.productiveCycles + (if tasksRun > 0 then 1 else 0)));
      Linked();
      JustifiedSame(scene, before, view);
      if thrown.Some? {
        ThrowIsExplained(scene, view, Threw(thrown.value));
        return Some(Threw(thrown.value));
      }
      if cycle + 1 < config.maxCycles {
        HeardIsFiled();
        return None;
      }
      var o := HandBack(BudgetSpent, cycle + 1);
      return Some(o);
    }

    method AdoptEvaluation(evaluation: BossDecision, cycle: nat, tasksRun: nat) returns (r: Option<Outcome>)
      requires Valid() && Assigned() && !aborted && Heeds(evaluation, cycle) && view.last.phase.Evaluate?
      modifies `state, `feedback, `mission, `trace, `views, `view, store
      ensures Stretch(0, r) && Quiet() && FailuresKept()
      ensures Follows(evaluation, r) || OutOfBudget(r, cycle)
      ensures r.None? ==> cycle + 1 < config.maxCycles && Unhindered(scene, view) && Abreast()
      ensures Earned(old(store.db), m, old(mission.revision), evaluation) ==> r.Some? && r.value.Returned? && r.value.terminal.Completed?
    {
      hide Valid, Unused, CanEnd, AllVerified, ReadState, Bounded, Inv, Earned, ActionText, Explained;
      Linked();
      var thrown := RecordDecision(state.(lastDecision := Some(LastDecision(Evaluate, ActionText(evaluation.action), evaluation.summary))));
      EarnedKept(old(store.db), store.db, m, old(mission.revision), mission.revision, evaluation);
      if thrown.Some? {
        EarnedIsCurrent(old(store.db), m, old(mission.revision), evaluation);
        ThrowIsExplained(scene, view, Threw(thrown.value));
        return Some(Threw(thrown.value));
      }
      r := ActUpon(evaluation, cycle);
      if r.None? { r := Progress(cycle, tasksRun); }
    }

    /** What evaluating in this cycle came to, from the last reply it got. */
    ghost predicate Evaluated(r: Option<Outcome>, reply: Awaited<BossDecision>, cycle: nat) {
      match reply
      case Resolved(decision) => Follows(decision, r) || OutOfBudget(r, cycle)
      case Rejected(failure) => StopsFor(failure, cycle, r)
    }

    method UseEvaluation(invoked: Invoked, ghost reply: Awaited<BossDecision>, cycle: nat, tasksRun: nat, ghost before: seq<Text>)
      returns (r: Option<Outcome>)
      requires Valid() && Assigned() && Arrived(invoked, Evaluate, cycle, before)
      requires aborted || reply == ReplyOf(invoked)
      modifies `state, `mission, `feedback, `repeatedProtocolErrors, `trace, `views, `view, store
      ensures Stretch(0, r) && Quiet()
      ensures if aborted then r.Some? else Evaluated(r, reply, cycle)
      ensures r.None? ==> FailuresCounted(view.failures) && ReadyFor(cycle + 1)
    {
      hide OnFile, Justified, Tells, FiledAs, Valid, Unused, AllVerified, FirstRecord, Explained, Tail, Take, WorkedOff;
      Linked();
      match invoked
      case Undecided(failure) => r := EvaluationFailed(failure, cycle, before);
      case Decided(evaluation) => r := AdoptEvaluation(evaluation, cycle, tasksRun);
    }

    /** A cycle in which a verification was rejected is a repair cycle. */
    method CountRepair(rejected: bool)
      requires Valid() && Assigned()
      modifies `state, `feedback
      ensures Valid() && Assigned() && Budget() == old(Budget())
      ensures state == old(state).(repairCycles := old(state).repairCycles + (if rejected then 1 else 0))
    {
      hide Valid, Unused;
      if rejected { Update(state.(repairCycles := state.repairCycles + 1)); }
      feedback := Some(Note("boss-cycle-results", ""));
    }

    /** An evaluation is due: the plan of this cycle is worked off. */
    ghost predicate MayEvaluate(cycle: nat)
      reads `state, `repeatedProtocolErrors, `view
    {
      && InCycle(cycle) && FailuresCounted(view.failures) && view.asked.phase.Plan? && view.asked.decision.Resolved?
      && (view.aborted || (MayGoOn(scene, view) && MayAsk(scene, view, Evaluate)))
    }

    method EvaluatePhase(cycle: nat, rejected: bool, tasksRun: nat) returns (r: Option<Outcome>)
      requires Valid() && Assigned() && MayEvaluate(cycle)
      modifies `state, `assignment, `mission, `feedback, `repeatedProtocolErrors, `turns, `now, `aborted, `trace, `views, `view, store
      ensures Stretch(1, r) && OnlyAsked()
      ensures aborted ==> r.Some?
      ensures !aborted ==> (turns > old(turns) && Evaluated(r, env(turns - 1).decision, cycle)) || (r.Some? && r.value.Threw?)
      ensures r.None? ==> FailuresCounted(view.failures) && ReadyFor(cycle + 1)
    {
      hide Valid, Unused, AllVerified, Explained, FirstRecord, Tail, MayAsk, Arrived, NoRouteLeft, StopsFor, Follows,
           Evaluated;
      Linked();
      CountRepair(rejected);
      if aborted {
        var o := StopCancelled(BeforeEvaluation, cycle + 1);
        return Some(o);
      }
      r := AskForEvaluation(cycle, tasksRun);
    }

    method AskForEvaluation(cycle: nat, tasksRun: nat) returns (r: Option<Outcome>)
      requires Valid() && Assigned() && !aborted && MayEvaluate(cycle)
      modifies `state, `assignment, `mission, `feedback, `repeatedProtocolErrors, `turns, `now, `aborted, `trace, `views, `view, store
      ensures Stretch(1, r) && OnlyAsked() && (aborted ==> r.Some?)
      ensures !aborted ==> (turns > old(turns) && Evaluated(r, env(turns - 1).decision, cycle)) || (r.Some? && r.value.Threw?)
      ensures r.None? ==> FailuresCounted(view.failures) && ReadyFor(cycle + 1)
    {
      hide OnFile, FiledAs, Justified, MayGoOn, ReadyFor, Valid, Unused, AllVerified, Explained, FirstRecord,
           FailuresCounted, MayAsk, Arrived, NoRouteLeft, StopsFor, Follows;
      Linked();
      ghost var before := view.failures;
      var invoked := AskFor(Evaluate, cycle);
      if invoked.Broke? {
        ThrowIsExplained(scene, view, Threw(invoked.error));
        return Some(Threw(invoked.error));
      }
      r := UseEvaluation(invoked, env(turns - 1).decision, cycle, tasksRun, before);
    }

    // ----- cycles -----

    /**
     At most two requests beyond the fallbacks, and at most `maxTasks`
     dispatches; a cycle leaves the run going only when the next one may begin.
     */
    method RunCycle(cycle: nat) returns (r: Option<Outcome>)
      requires Valid() && Assigned() && SettledWith(None) && InRange(config) && ReadyFor(cycle) && FailuresCounted(view.failures)
      modifies `state, `assignment, `mission, `feedback, `repeatedProtocolErrors, `made, `turns, `now, `aborted,
               `trace, `views, `view, store
      ensures Stretch(2, r) && SettledWith(r) && view.dispatches <= old(view).dispatches + config.maxTasks
      ensures r.None? ==> !aborted && turns > old(turns) && ReadyFor(cycle + 1) && FailuresCounted(view.failures)
    {
      hide Valid, Unused, AllVerified, FirstRecord, Settled, Planned, Evaluated, StopsFor, Follows, GoesOn, Explained,
           ReadyFor, Tail;
      var plan;
      r, plan := PlanPhase(cycle);
      StillSettled(r);
      Linked();
      if r.Some? || plan.None? { return r; }
      r := WorkAndEvaluate(plan.value, cycle);
    }

    method WorkAndEvaluate(plan: BossDecision, cycle: nat) returns (r: Option<Outcome>)
      requires Valid() && Assigned() && SettledWith(None) && InRange(config) && MayWork(plan, cycle) && FailuresCounted(view.failures)
      modifies `state, `assignment, `mission, `feedback, `repeatedProtocolErrors, `made, `turns, `now, `aborted,
               `trace, `views, `view, store
      ensures Stretch(1, r) && SettledWith(r) && view.dispatches <= old(view).dispatches + config.maxTasks
      ensures r.None? ==> !aborted && ReadyFor(cycle + 1) && FailuresCounted(view.failures)
    {
      hide Valid, Unused, AllVerified, FirstRecord, Settled, Evaluated, Explained, ReadyFor, Tail, WorkedOff;
      var rejected, count;
      r, rejected, count := RunTasks(plan.tasks, cycle);
      if r.Some? { return r; }
      Linked();
      r := EvaluatePhase(cycle, rejected, count);
      StillSettled(r);
    }

    /** Nothing has been asked yet, and the first cycle is this one. */
    ghost predicate AtOutset(first: nat)
      reads `state, `repeatedProtocolErrors, `view
    {
      && view.asked.Nothing? && view.last.Nothing? && view.turns == 0 && first == view.cycle == First().cycle
      && MayGoOn(scene, view) && view.failures == [] && repeatedProtocolErrors == 0 && state.protocolFailures == First().protocolFailures
    }

    method RunCycles(first: nat) returns (r: Outcome)
      requires Valid() && Assigned() && SettledWith(None) && InRange(config) && AtOutset(first) && Capable(scene)
      modifies `state, `assignment, `mission, `feedback, `repeatedProtocolErrors, `made, `turns, `now, `aborted,
               `trace, `views, `view, store
      ensures Stretch(2 * Remaining(first), Some(r)) && SettledWith(Some(r))
      ensures view.dispatches <= old(view).dispatches + config.maxTasks * Remaining(first)
    {
      hide Valid, Unused, AllVerified, FirstRecord, Settled, Explained, Capable, MayGoOn;
      FirstCycle(first);
      var cycle := first;
      ghost var spent, allowed := 0, 0;
      while cycle < config.maxCycles
        invariant first <= cycle && !aborted && spent == Remaining(first) - Remaining(cycle) && allowed == config.maxTasks * spent
        invariant if cycle < config.maxCycles then ReadyFor(cycle) && FailuresCounted(view.failures) else AtOutset(first) && cycle == first
        invariant Stretch(2 * spent, None) && SettledWith(None)
        invariant view.dispatches <= old(view).dispatches + allowed
      {
        OneMoreTime(config.maxTasks, spent);
        var o := RunCycle(cycle);
        cycle, spent, allowed := cycle + 1, spent + 1, allowed + config.maxTasks;
        if o.Some? {
          Within(config.maxTasks, spent, Remaining(first));
          return o.value;
        }
        MoreCycles(cycle);
      }
      r := NoCyclesLeft(first);
    }

    lemma FirstCycle(first: nat)
      requires Valid() && AtOutset(first) && config.maxCycles >= 1
      ensures !aborted && (first < config.maxCycles ==> ReadyFor(first) && FailuresCounted(view.failures))
    {
      hide OnFile, FiledAs, Tells, Justified, Inv, Traced, Sound, Recorded, FirstRecord;
    }

    lemma MoreCycles(cycle: nat)
      requires Valid() && ReadyFor(cycle) && !aborted
      ensures cycle < config.maxCycles || view.asked.Nothing?
    {
      hide Inv, Traced, Sound, Recorded, FirstRecord, WorkedOff;
    }

    /** A run whose record has used up its cycles makes no request. */
    method NoCyclesLeft(first: nat) returns (r: Outcome)
      requires Valid() && Assigned() && SettledWith(None) && AtOutset(first) && Capable(scene) && first >= config.maxCycles >= 1
      modifies `trace, `views, `view, store
      ensures Stretch(0, Some(r)) && SettledWith(Some(r)) && Quiet()
    {
      hide Valid, Unused, AllVerified, Settled, CanEnd, ReadState, Bounded, Inv, Reason, FirstRecord, Capable, Explained;
      Linked();
      r := End(Terminal.AwaitingUser, Reason(NoCycles), config.maxCycles, None);
      NoCyclesExplains(scene, view, r);
      StillSettled(Some(r));
    }

    /** The cycles a run that starts at `first` may still take. */
    function Remaining(first: nat): nat { if first < config.maxCycles then config.maxCycles - first else 0 }

    // ----- the start of a run -----

    /** The loop's copy of the mission is the row as it is. */
    ghost predicate Current()
      reads `mission, store
    {
      m in store.db.missions && mission == store.db.missions[m]
    }

    /**
     A run works on a running mission. It can begin exactly when the loop's
     copy is running already, or is current and may be started.
     */
    method EnterRunning() returns (thrown: Option<Error>)
      requires Valid() && m in store.db.missions
      modifies `mission, `trace, `views, `view, store
      ensures Valid() && Quiet() && (thrown.Some? ==> view.refused == thrown)
      ensures old(view).refused.None? && thrown.None? ==> view.refused.None?
      ensures thrown.None? <==> old(mission).status.Running? || CanStart(old(store.db), m, old(mission).revision)
      ensures if thrown.Some? || old(mission).status.Running? then store.db == old(store.db) && mission == old(mission)
              else mission == Ops.Enter(old(store.db).missions[m], now, MissionStatus.Running) && m in store.db.missions && store.db.missions[m] == mission
    {
      hide SoundPlan, ReadState, FirstRecord, FirstView, Inv, Evolves, Ops.Apply, Ops.TransitionMission, Traced, Run,
           Refused, Sound, Recorded, CanStart;
      if mission.status.Running? { return None; }
      var revision := mission.revision;
      StartEffect(store.db, now, m, revision);
      TransitionCalled(store.db, now, m, MissionStatus.Running, revision);
      LogOwn(Ops.OpTransitionMission(m, MissionStatus.Running, Boss, Some(revision)));
      thrown := store.TransitionMission(now, m, MissionStatus.Running, Boss, Some(revision));
      if thrown.None? { mission := store.db.missions[m]; }
    }

    /** Settle which route the run is on: the recorded one, or the scheduler's choice. */
    method ChooseRoute() returns (chosen: bool)
      requires state.assignment == assignment
      modifies `assignment
      ensures chosen <==> assignment.Some?
      ensures state.assignment == assignment || (state.assignment.None? && chosen)
      ensures Chose(old(assignment)) && Budget() <= old(Budget())
    {
      hide Unused, SelectEntry;
      if assignment.Some? { return true; }
      var selected := SelectEntry(config.pick, config.entries);
      if selected.None? { return false; }
      var route := selected.value;
      UnusedShrinks(config.entries, state.fallbackHistory, route.routeId);
      assignment := Some(Assignment(route.routeId, route.remoteModelId, route.effort.GetOr(Auto), route.weight.GetOr(1), config.iso(now), None, None));
      return true;
    }

    /** The run is on the recorded route, or on the one the scheduler picks when none is recorded. */
    predicate Chose(recorded: Option<Assignment>)
      reads `assignment
    {
      if recorded.Some? then assignment == recorded
      else
        var selected := SelectEntry(config.pick, config.entries);
        if selected.Some? then assignment.Some? && assignment.value.routeId == selected.value.routeId else assignment.None?
    }

    /** Write the assignment down, unless the plan already holds it. */
    method RecordAssignment() returns (thrown: Option<Error>)
      requires Valid() && view.refused.None? && Current() && assignment.Some? && (state.assignment == assignment || state.assignment.None?)
      modifies `state, `mission, `trace, `views, `view, store
      ensures Valid() && Quiet() && view.refused == thrown && Assigned() && state == old(state).(assignment := assignment)
      ensures thrown.None? ==> Current() && SameGoal(mission, old(mission))
    {
      hide FiledAs, ReadState, Bounded, Valid, HoldsAssignment;
      if state.assignment == assignment && HoldsAssignment(mission.plan) { return None; }
      SetAssignment();
      thrown := PersistState();
    }

    method SetAssignment()
      requires Valid() && assignment.Some? && (state.assignment == assignment || state.assignment.None?)
      modifies `state
      ensures Valid() && state == old(state).(assignment := assignment)
    {
      hide Inv, Traced, BossTrace.Answered, FirstRecord;
      if state.assignment.None? { ChainFromNothing(state.fallbackHistory, RouteOf(assignment)); }
      state := state.(assignment := assignment);
    }

    /** Settle the acceptance criteria and where they come from. */
    method SettleCriteria() returns (thrown: Option<Error>)
      requires Valid() && Assigned() && view.refused.None? && Current()
      modifies `state, `mission, `trace, `views, `view, store
      ensures Valid() && Quiet() && view.refused == thrown && RoutesAndRefusalsKept(old(state)) && state.cycle == old(state.cycle) && FailuresKept()
      ensures thrown.None? ==> Current() && mission.goal == old(mission.goal) && mission.acceptanceCriteria == Criteria(config, old(mission))
    {
      hide Valid;
      thrown := None;
      if mission.acceptanceCriteria == [] {
        var (criteria, provenance) := config.criteriaFor(mission.goal);
        if criteria == [] { return None; }
        thrown := WriteCriteria(criteria);
        if thrown.Some? { return; }
        thrown := Record(state.(criteriaProvenance := Some(provenance)));
      } else if state.criteriaProvenance.None? {
        thrown := Record(state.(criteriaProvenance := Some(config.inferProvenance(mission.goal, mission.acceptanceCriteria))));
      }
    }

    method WriteCriteria(criteria: seq<Text>) returns (thrown: Option<Error>)
      requires Valid() && Current()
      modifies `mission, `trace, `views, `view, store
      ensures Valid() && Quiet() && view.refused == thrown
      ensures thrown.None? ==> Current() && mission.goal == old(mission.goal) && mission.acceptanceCriteria == criteria
    {
      hide SoundPlan, ReadState, FirstRecord, FirstView, Inv, Evolves, Ops.Apply, Ops.UpdateMission, Traced, Run, Refused,
           Sound, Recorded;
      ghost var before := store.db;
      var patch := Ops.NoPatch.(acceptanceCriteria := Some(criteria));
      UpdateMissionOk(before, now, m, patch, Some(mission.revision));
      CriteriaWritten(before, now, m, criteria, mission.revision);
      UpdateCalled(before, now, m, patch, mission.revision);
      LogOwn(Ops.OpUpdateMission(m, patch, Some(mission.revision)));
      thrown := store.UpdateMission(now, m, patch, Some(mission.revision));
      if thrown.None? { mission := store.db.missions[m]; }
    }

    /** A goal the capabilities do not allow goes back to the user. */
    method CheckCapability() returns (r: Option<Outcome>)
      requires Valid() && Assigned() && !aborted && Fresh()
      requires config.capable(mission.goal, mission.acceptanceCriteria) <==> Capable(scene)
      modifies `mission, `trace, `views, `view, store
      ensures Stretch(0, r) && Quiet() && (r.None? ==> view.refused.None?)
      ensures r.None? <==> config.capable(old(mission).goal, old(mission).acceptanceCriteria)
      ensures r.None? ==> mission == old(mission)
      ensures r.Some? && r.value.Returned? ==> r.value.terminal.AwaitingUser?
    {
      hide Valid, Unused, CanEnd, AllVerified, ReadState, Bounded, Inv, CanStart, Reason, Explained, FirstRecord, Capable;
      if config.capable(mission.goal, mission.acceptanceCriteria) { return None; }
      Linked();
      var thrown := EnterRunning();
      if thrown.Some? {
        ThrowIsExplained(scene, view, Threw(thrown.value));
        return Some(Threw(thrown.value));
      }
      var o := End(Terminal.AwaitingUser, Reason(NotCapable), state.cycle, Some("CAPABILITY_MISMATCH"));
      IncapableExplains(scene, view, o);
      return Some(o);
    }

    /** No await yet, and the record says the cycle the run starts with. */
    ghost predicate Fresh()
      reads `state, `view
    {
      view.asked.Nothing? && view.turns == 0 && view.refused.None? && state.cycle == First().cycle
    }

    /** The goal and the criteria a run goes by. */
    ghost predicate SameAsked(goal: Text, criteria: seq<Text>)
    {
      m in scene.origin.missions && goal == scene.origin.missions[m].goal && criteria == Criteria(config, scene.origin.missions[m])
    }

    /** The record as a run takes it up, on the route it has settled on. */
    method Prepare() returns (r: Option<Outcome>)
      requires Valid() && !aborted && assignment.Some? && (state.assignment == assignment || state.assignment.None?)
      requires Fresh() && Current() && SameAsked(mission.goal, Criteria(config, mission))
      modifies `state, `mission, `trace, `views, `view, store
      ensures Valid() && Quiet() && (r.None? ==> Assigned() && view.refused.None?)
      ensures r.Some? ==> Honest(r.value) && Explained(scene, view, r.value)
      ensures state.fallbackHistory == old(state.fallbackHistory) && state.cycle == old(state.cycle) && FailuresKept()
      ensures r.None? ==> config.capable(mission.goal, mission.acceptanceCriteria) && Capable(scene)
      ensures r.Some? && r.value.Returned? ==> r.value.terminal.AwaitingUser?
    {
      hide Valid, Unused, AllVerified, Explained, FirstRecord;
      var thrown := RecordAssignment();
      if thrown.Some? {
        ThrowIsExplained(scene, view, Threw(thrown.value));
        return Some(Threw(thrown.value));
      }
      thrown := SettleCriteria();
      if thrown.Some? {
        ThrowIsExplained(scene, view, Threw(thrown.value));
        return Some(Threw(thrown.value));
      }
      r := CheckCapability();
    }

    /**
     Without an outcome the loop is on its route, with a goal it is capable
     of, and ready for its first cycle. It ends blocked only when no route may
     be chosen, and goes back to the user only once it is on one.
     */
    method Start() returns (r: Option<Outcome>)
      requires Valid() && !aborted && state == First() && state.assignment == assignment
      requires view == FirstView(scene) && Current()
      modifies `state, `assignment, `mission, `trace, `views, `view, store
      ensures Valid() && Quiet() && (r.None? ==> Assigned() && view.refused.None?)
      ensures r.Some? ==> Honest(r.value) && Explained(scene, view, r.value)
      ensures Budget() <= old(Budget()) && state.cycle == old(state.cycle) && FailuresKept() && Chose(old(assignment))
      ensures assignment.None? ==> r.Some?
      ensures r.None? ==> config.capable(mission.goal, mission.acceptanceCriteria) && Capable(scene)
      ensures r.Some? && r.value.Returned? ==> if assignment.None? then r.value.terminal.Blocked? else r.value.terminal.AwaitingUser?
    {
      hide Valid, Unused, CanEnd, ReadState, Bounded, Inv, CanStart, Reason, Explained, FirstRecord, SelectEntry;
      Linked();
      var chosen := ChooseRoute();
      var thrown := EnterRunning();
      if thrown.Some? {
        ThrowIsExplained(scene, view, Threw(thrown.value));
        return Some(Threw(thrown.value));
      }
      if !chosen {
        var o := End(Terminal.Blocked, Reason(NoRoute), 0, None);
        NoRouteExplains(scene, view, o);
        return Some(o);
      }
      r := Prepare();
    }

    /** A mission that is already at an end is reported as it stands. */
    function AlreadyEnded(): Option<Outcome>
      reads `mission, `state
    {
      match mission.status
      case Completed => Some(Returned(mission.status, state.terminal.GetOr(Terminal.Completed), state.cycle, mission))
      case Cancelled => Some(Returned(mission.status, state.terminal.GetOr(Terminal.Cancelled), state.cycle, mission))
      case Blocked => Some(Returned(mission.status, state.terminal.GetOr(Terminal.Blocked), state.cycle, mission))
      case AwaitingReview => Some(Returned(mission.status, state.terminal.GetOr(Terminal.AwaitingUser), state.cycle, mission))
      case _ => None
    }

    method Pursue() returns (r: Outcome)
      requires Valid() && InRange(config) && Current() && repeatedProtocolErrors == 0
      requires view == FirstView(scene) && state == First() && state.assignment == assignment
      modifies `state, `assignment, `mission, `feedback, `repeatedProtocolErrors, `made, `turns, `now, `aborted,
               `trace, `views, `view, store
      ensures Valid() && Honest(r) && SettledWith(Some(r))
      ensures view.requests <= 2 * Remaining(old(state.cycle)) + old(RoutesUnused())
      ensures view.dispatches <= config.maxTasks * Remaining(old(state.cycle))
      ensures if old(AlreadyEnded()).Some? then r == old(AlreadyEnded()).value && trace == old(trace) && store.db == old(store.db)
              else Explained(scene, view, r)
      ensures old(AlreadyEnded()).None? && r.Returned? && r.terminal.Completed? ==> AllVerified(store.db, m)
      ensures old(AlreadyEnded()).None? && r.Returned? && aborted ==> r.terminal.Cancelled? && r.status.Cancelled?
    {
      hide Valid, Unused, CanEnd, AllVerified, FirstRecord, Settled, Explained;
      NothingSettled();
      Linked();
      var ended := AlreadyEnded();
      if ended.Some? {
        StillSettled(ended);
        return ended.value;
      }
      if aborted {
        r := StopCancelled(Outset, state.cycle);
        StillSettled(Some(r));
        return r;
      }
      var started := Start();
      if started.Some? {
        StillSettled(started);
        return started.value;
      }
      r := RunCycles(state.cycle);
    }

    lemma NothingSettled()
      requires view == FirstView(scene)
      ensures SettledWith(None) && view.requests == view.dispatches == 0
    {
      hide CanEnd, FirstRecord;
    }
  }

  // ----- a whole run -----

  /** The cycles a run may still take. */
  function CyclesLeft(w: Scene): nat {
    if FirstRecord(w).cycle < w.config.maxCycles then w.config.maxCycles - FirstRecord(w).cycle else 0
  }

  /** The enabled routes a run has not been on. */
  function RoutesLeft(w: Scene): nat {
    |Unused(w.config.entries, FirstRecord(w).fallbackHistory, RouteOf(FirstRecord(w).assignment))|
  }

  /** At most two requests a cycle beyond one for each route not yet used, and at most `maxTasks` dispatches a cycle. */
  predicate WithinBudget(w: Scene, v: View) {
    v.requests <= 2 * CyclesLeft(w) + RoutesLeft(w) && (InRange(w.config) ==> v.dispatches <= w.config.maxTasks * CyclesLeft(w))
  }

  /**
   The goal loop. Its trace starts from the tables it was given, follows the
   rules for what the loop may do and when, and leads to the tables it leaves.
   Whatever other actors do while it waits: a status it returns is the row's
   status; if the mission was ever cancelled, or the run aborted, it throws or
   returns `cancelled`; it stays within its budget of requests and
   dispatches; it completes only what is verified; no refusal repeats the
   one before it without the run ending there or the store refusing to let it;
   and whatever it returns or throws is explained by what it heard and counted,
   so that it does not give up before its cycles are spent: it has made a
   request in every cycle it reports. A mission that was at an end already is
   reported as it stands.
   */
  method RunMissionGoalLoop(store: SQLiteMissionStore, m: Id, config: Config, env: nat -> Turn, now: Time, aborted: bool)
    returns (r: Outcome, ghost trace: seq<Event>, ghost views: seq<View>)
    requires store.transactionDepth == 0 && Inv(store.db)
    modifies store
    ensures store.transactionDepth == 0 && Inv(store.db)
    ensures var w := Scene(old(store.db), m, config, env, aborted); Traced(w, trace, views) && views[|trace|].db == store.db
    ensures r.Returned? ==> m in store.db.missions && r.row == store.db.missions[m] && r.row.status == r.status
    ensures r.Returned? && EverCancelled(views, m) ==> r.status.Cancelled?
    ensures r.Returned? && views[|trace|].aborted ==> r.status.Cancelled? || HasStatus(old(store.db), m, r.status)
    ensures var w := Scene(old(store.db), m, config, env, aborted);
      WithinBudget(w, views[|trace|]) && Settled(FirstRecord(w), views[|trace|].refusals, m, Some(r))
    ensures r.Returned? && r.terminal.Completed? ==> AllVerified(store.db, m) || HasStatus(old(store.db), m, r.status)
    ensures m !in old(store.db.missions) || !InRange(config) ==> r.Threw? && trace == []
    ensures HasEnded(old(store.db), m) && InRange(config) ==> r.Returned? && trace == [] && store.db == old(store.db)
    ensures var w := Scene(old(store.db), m, config, env, aborted);
      m in old(store.db.missions) && InRange(config) && !HasEnded(old(store.db), m) ==>
        Explained(w, views[|trace|], r) && (r.Returned? && r.terminal.AwaitingUser? ==> RoundsMade(w, views[|trace|], r))
  {
    hide Unused, AllVerified, FirstRecord, Inv, Settled, FollowsAt, EverCancelled, Sound, Recorded, Explained, CanEnd;
    var w := Scene(store.db, m, config, env, aborted);
    trace, views := [], [FirstView(w)];
    NothingYet(w);
    NothingDone(w);
    if m !in store.db.missions { return Threw(NotFound), trace, views; }
    if !InRange(config) { return Threw(Validation), trace, views; }
    var loop := new MissionGoalLoop(store, w, now);
    r := loop.Pursue();
    trace, views := loop.trace, loop.views;
    if EverCancelled(views, m) { CancelledStays(w, trace, views); }
    if !HasEnded(w.origin, m) { RoundsWereMade(w, trace, views, r); }
  }

  /**
   A run that hands the mission back once it has asked anything has made at
   least one request in every cycle it reports, and each of those cycles began
   within the bound.
   */
  predicate RoundsMade(w: Scene, v: View, r: Outcome)
    requires r.Returned?
  {
    v.asked.FromBoss? ==> FirstRecord(w).cycle < r.cycles == v.cycle <= w.config.maxCycles && r.cycles - FirstRecord(w).cycle <= v.requests
  }

  lemma RoundsWereMade(w: Scene, trace: seq<Event>, views: seq<View>, r: Outcome)
    requires Traced(w, trace, views) && Explained(w, views[|trace|], r)
    ensures r.Returned? && r.terminal.AwaitingUser? ==> RoundsMade(w, views[|trace|], r)
  {
    hide Traced, FirstRecord;
    AwaitsCounted(w, trace, views, |trace|);
  }

  /** A status a run reports without doing anything. */
  predicate HasEnded(db: Database, m: Id) {
    m in db.missions &&
    (db.missions[m].status.Completed? || db.missions[m].status.Cancelled? || db.missions[m].status.Blocked? || db.missions[m].status.AwaitingReview?)
  }

  lemma NothingDone(w: Scene)
    ensures WithinBudget(w, FirstView(w)) && forall r :: Settled(FirstRecord(w), FirstView(w).refusals, w.m, r)
  {
    hide Unused, ReadState, CanEnd;
  }
}
