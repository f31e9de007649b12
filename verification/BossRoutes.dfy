/** The Boss's routes: which one is chosen first, and which one takes over when the provider fails. */
module BossRoutes {
  import opened Wrappers
  import opened MissionTables
  import opened BossState

  datatype Route = Route(routeId: RouteId, enabled: bool, weight: Option<int>, remoteModelId: Option<Text>, effort: Option<Effort>)

  // ----- fallback chains -----

  /** Every route the run has been on: those the history names and the current one. */
  function Used(history: seq<Hop>, current: Option<RouteId>): set<RouteId> {
    (set h | h in history :: h.fromRoute) + (set h | h in history :: h.toRoute) + (if current.Some? then {current.value} else {})
  }

  function RouteOf(assignment: Option<Assignment>): Option<RouteId> {
    if assignment.Some? then Some(assignment.value.routeId) else None
  }

  /** The history is one path through pairwise distinct routes that ends at the current one. */
  predicate Chain(history: seq<Hop>, current: Option<RouteId>) {
    history != [] ==>
      && current == Some(history[|history| - 1].toRoute)
      && (forall i | 0 < i < |history| :: history[i].fromRoute == history[i - 1].toRoute)
      && (forall i | 0 <= i < |history| :: history[i].toRoute != history[0].fromRoute)
      && (forall i, j | 0 <= i < j < |history| :: history[i].toRoute != history[j].toRoute)
  }

  lemma ChainGrows(history: seq<Hop>, current: RouteId, next: RouteId, reason: Text)
    requires Chain(history, Some(current)) && next !in Used(history, Some(current))
    ensures Chain(history + [Hop(current, next, reason)], Some(next))
  {
    hide Used;
    UsedNames(history, Some(current), next);
    var longer := history + [Hop(current, next, reason)];
    forall i | 0 <= i < |longer| ensures longer[i].toRoute != longer[0].fromRoute {}
  }

  lemma UsedNames(history: seq<Hop>, current: Option<RouteId>, r: RouteId)
    ensures r in Used(history, current) <==>
      current == Some(r) || exists i | 0 <= i < |history| :: history[i].fromRoute == r || history[i].toRoute == r
  {
    if i :| 0 <= i < |history| && (history[i].fromRoute == r || history[i].toRoute == r) {
      assert history[i] in history;
    }
  }

  /** The chain is in the route ids alone, so cutting the reasons on the way back keeps it. */
  lemma ChainSurvivesReentry(readers: Readers, plan: Json, s: BossState)
    ensures var back := ReadState(readers, PlanWithState(plan, s));
      Chain(back.fallbackHistory, RouteOf(back.assignment)) <==> Chain(s.fallbackHistory, RouteOf(s.assignment))
  {
    hide ReadState, PlanWithState, BoundedHops;
    ReadWritten(readers, plan, s);
    assert forall i | 0 <= i < |s.fallbackHistory| ::
      BoundedHops(s.fallbackHistory)[i].toRoute == s.fallbackHistory[i].toRoute &&
      BoundedHops(s.fallbackHistory)[i].fromRoute == s.fallbackHistory[i].fromRoute;
  }

  // ----- choosing -----

  /** The first enabled route the run has not been on; its weight does not matter. */
  function SelectFallback(entries: seq<Route>, history: seq<Hop>, current: RouteId): (found: Option<Route>)
    ensures found.Some? ==> found.value in entries && found.value.enabled && found.value.routeId !in Used(history, Some(current))
    ensures found.None? ==> forall e | e in entries :: e.enabled ==> e.routeId in Used(history, Some(current))
  {
    if entries == [] then None
    else if entries[0].enabled && entries[0].routeId !in Used(history, Some(current)) then Some(entries[0])
    else SelectFallback(entries[1..], history, current)
  }

  /** The enabled routes not yet used. */
  function Unused(entries: seq<Route>, history: seq<Hop>, current: Option<RouteId>): set<RouteId> {
    (set e | e in entries && e.enabled :: e.routeId) - Used(history, current)
  }

  /** Taking a fallback uses up exactly one route. */
  lemma FallbackUsesOne(entries: seq<Route>, history: seq<Hop>, current: RouteId, reason: Text)
    requires SelectFallback(entries, history, current).Some?
    ensures var next := SelectFallback(entries, history, current).value.routeId;
      && next in Unused(entries, history, Some(current))
      && Unused(entries, history + [Hop(current, next, reason)], Some(next)) == Unused(entries, history, Some(current)) - {next}
  {
    hide SelectFallback;
    var next := SelectFallback(entries, history, current).value.routeId;
    UsedGrows(history, current, next, reason);
    assert SelectFallback(entries, history, current).value in entries;
  }

  lemma UsedGrows(history: seq<Hop>, current: RouteId, next: RouteId, reason: Text)
    ensures Used(history + [Hop(current, next, reason)], Some(next)) == Used(history, Some(current)) + {next}
  {
    hide Used;
    forall r ensures r in Used(history + [Hop(current, next, reason)], Some(next)) <==> r in Used(history, Some(current)) + {next} {
      UsedNames(history, Some(current), r);
      UsedNames(history + [Hop(current, next, reason)], Some(next), r);
      var longer := history + [Hop(current, next, reason)];
      assert longer[|history|] == Hop(current, next, reason);
      assert forall i | 0 <= i < |history| :: longer[i] == history[i];
    }
  }

  function Eligible(entries: seq<Route>): (eligible: seq<Route>)
    ensures forall e :: e in eligible <==> e in entries && e.enabled && e.weight.GetOr(1) > 0
  {
    if entries == [] then []
    else (if entries[0].enabled && entries[0].weight.GetOr(1) > 0 then [entries[0]] else []) + Eligible(entries[1..])
  }

  /** The first route is one of the eligible ones; which one is the scheduler's choice. */
  function SelectEntry(pick: seq<Route> -> nat, entries: seq<Route>): (chosen: Option<Route>)
    ensures chosen.Some? ==> chosen.value in entries && chosen.value.enabled && chosen.value.weight.GetOr(1) > 0
    ensures chosen.None? ==> forall e | e in entries :: e.enabled ==> e.weight.GetOr(1) <= 0
  {
    var eligible := Eligible(entries);
    if eligible == [] then None
    else
      var chosen := eligible[pick(eligible) % |eligible|];
      assert chosen in eligible;
      Some(chosen)
  }
}
