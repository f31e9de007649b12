/**
 Rebalancing the weights of a pool's routes by their scores: proportional
 rounding, then two loops that bring the sum back. Scores are exact reals.
 */
module WeightRebalance {
  import opened Wrappers

  type RouteId = string

  /** What the summary knows about one route of the pool; `originKnown` counts the runs whose origin was recorded. */
  datatype RouteStats = RouteStats(
    routeId: RouteId, runs: nat, successes: nat, durationMs: nat, observations: nat, passes: nat, repairRounds: nat, originKnown: nat)

  datatype Scored = Scored(routeId: RouteId, score: real)

  const MAX_POOL_ENTRY_WEIGHT := 1000000

  // ----- scores -----

  function MaxReal(a: real, b: real): real { if a < b then b else a }

  function MinReal(a: real, b: real): real { if a < b then a else b }

  function AtLeastOne(n: nat): (r: real)
    ensures r >= 1.0
  {
    if n < 1 then 1.0 else n as real
  }

  function Latency(r: RouteStats): real { r.durationMs as real / AtLeastOne(r.runs) }

  /** The longest latency of the routes, but at least one. */
  function MaxLatency(routes: seq<RouteStats>): (l: real)
    ensures l >= 1.0 && (forall r | r in routes :: Latency(r) <= l)
    ensures l == 1.0 || exists r :: r in routes && Latency(r) == l
  {
    if routes == [] then 1.0 else MaxReal(Latency(routes[0]), MaxLatency(routes[1..]))
  }

  function Score(r: RouteStats, latencyMax: real): (score: real)
    requires latencyMax >= 1.0
    ensures score >= 0.01
  {
    var reliability := r.successes as real / AtLeastOne(r.runs);
    var quality := if r.observations > 0 then r.passes as real / r.observations as real else reliability;
    var repair := if r.observations > 0 then MinReal(1.0, r.repairRounds as real / r.observations as real) else 0.0;
    var latency := 1.0 - MinReal(1.0, Latency(r) / latencyMax);
    MaxReal(0.01, reliability * 0.55 + quality * 0.3 + latency * 0.15 - repair * 0.1)
  }

  function Scores(routes: seq<RouteStats>, latencyMax: real): (scored: seq<Scored>)
    requires latencyMax >= 1.0
    ensures |scored| == |routes|
    ensures forall i | 0 <= i < |routes| :: scored[i].routeId == routes[i].routeId && scored[i].score >= 0.01
  {
    seq(|routes|, i requires 0 <= i < |routes| => Scored(routes[i].routeId, Score(routes[i], latencyMax)))
  }

  function ScoreTotal(scored: seq<Scored>): real {
    if scored == [] then 0.0 else scored[0].score + ScoreTotal(scored[1..])
  }

  lemma {:induction false} ScoreTotalPositive(scored: seq<Scored>)
    requires forall s | s in scored :: s.score >= 0.01
    ensures ScoreTotal(scored) >= 0.0 && (scored != [] ==> ScoreTotal(scored) > 0.0)
  {
    if scored != [] { ScoreTotalPositive(scored[1..]); }
  }

  /** `Math.round`: halves go up. */
  function Round(x: real): int { (x + 0.5).Floor }

  /** A route's part of a total, in proportion to its score. */
  function Proportion(score: real, scoreTotal: real, total: nat): real
    requires scoreTotal > 0.0
  {
    score / scoreTotal * total as real
  }

  /** A route's proportional share, rounded and clamped. */
  function Share(score: real, scoreTotal: real, weight: nat): (share: int)
    requires scoreTotal > 0.0
    ensures 1 <= share <= MAX_POOL_ENTRY_WEIGHT
  {
    var rounded := Round(score / scoreTotal * weight as real);
    var capped := if rounded < MAX_POOL_ENTRY_WEIGHT then rounded else MAX_POOL_ENTRY_WEIGHT;
    if capped < 1 then 1 else capped
  }

  lemma RoundMonotone(x: real, y: real)
    requires x <= y
    ensures Round(x) <= Round(y)
  {}

  lemma ShareMonotone(a: real, b: real, scoreTotal: real, weight: nat)
    requires scoreTotal > 0.0 && a <= b
    ensures Share(a, scoreTotal, weight) <= Share(b, scoreTotal, weight)
  {
    var x, y := a / scoreTotal, b / scoreTotal;
    assert x <= y;
    assert x * weight as real <= y * weight as real;
    RoundMonotone(x * weight as real, y * weight as real);
  }

  /** The whole number nearest to `x`, the higher one of two, but never below one or above the maximum. */
  predicate IsNearest(share: int, x: real) {
    && (x < 1.0 ==> share == 1)
    && (x > MAX_POOL_ENTRY_WEIGHT as real ==> share == MAX_POOL_ENTRY_WEIGHT)
    && (1.0 <= x <= MAX_POOL_ENTRY_WEIGHT as real ==> x - 0.5 < share as real <= x + 0.5)
  }

  lemma ShareIsNearest(score: real, scoreTotal: real, weight: nat)
    requires scoreTotal > 0.0
    ensures IsNearest(Share(score, scoreTotal, weight), Proportion(score, scoreTotal, weight))
  {
    RoundIsNearest(score / scoreTotal * weight as real);
  }

  lemma RoundIsNearest(x: real)
    ensures x - 0.5 < Round(x) as real <= x + 0.5
  {}

  // ----- what a score prefers -----

  /** More successes and passes, fewer repairs and less time never lower a score. */
  lemma ScorePrefers(a: RouteStats, b: RouteStats, latencyMax: real)
    requires latencyMax >= 1.0 && a.runs == b.runs && a.observations == b.observations
    requires a.successes <= b.successes && a.passes <= b.passes && a.repairRounds >= b.repairRounds && a.durationMs >= b.durationMs
    ensures Score(a, latencyMax) <= Score(b, latencyMax)
  {
    var runs := AtLeastOne(a.runs);
    DivideMonotone(a.successes as real, b.successes as real, runs);
    DivideMonotone(b.durationMs as real, a.durationMs as real, runs);
    DivideMonotone(Latency(b), Latency(a), latencyMax);
    if a.observations > 0 {
      DivideMonotone(a.passes as real, b.passes as real, a.observations as real);
      DivideMonotone(b.repairRounds as real, a.repairRounds as real, a.observations as real);
    }
  }

  lemma DivideMonotone(x: real, y: real, d: real)
    requires x <= y && d > 0.0
    ensures x / d <= y / d
  {}

  lemma WholeRatio(n: nat)
    requires n > 0
    ensures n as real / n as real == 1.0
  {}

  lemma WholeReal(x: real)
    requires x > 0.0
    ensures x / x == 1.0
  {}

  /** A route without a fault scores one if it takes no time, and 0.85 if it is the slowest. */
  lemma ScoreOfFaultless(r: RouteStats, latencyMax: real)
    requires latencyMax >= 1.0 && r.runs > 0 && r.successes == r.runs && r.passes == r.observations && r.repairRounds == 0
    ensures Latency(r) == 0.0 ==> Score(r, latencyMax) == 1.0
    ensures Latency(r) == latencyMax ==> Score(r, latencyMax) == 0.85
  {
    hide Latency;
    WholeRatio(r.runs);
    WholeReal(latencyMax);
    if r.observations > 0 { WholeRatio(r.observations); }
  }

  /** A repair for every observation costs 0.1. */
  lemma ScoreOfRepaired(r: RouteStats, latencyMax: real)
    requires latencyMax >= 1.0 && r.runs > 0 && r.successes == r.runs && 0 < r.passes == r.observations <= r.repairRounds && Latency(r) == 0.0
    ensures Score(r, latencyMax) == 0.9
  {
    hide Latency;
    WholeRatio(r.runs);
    WholeRatio(r.observations);
    DivideMonotone(r.observations as real, r.repairRounds as real, r.observations as real);
  }

  /** Failing every run costs 0.85 where no quality is known, and 0.55 where what was observed passed. */
  lemma ScoreOfFailing(r: RouteStats, latencyMax: real)
    requires latencyMax >= 1.0 && r.successes == 0 && r.passes == r.observations && r.repairRounds == 0 && Latency(r) == 0.0
    ensures Score(r, latencyMax) == if r.observations == 0 then 0.15 else 0.45
  {
    hide Latency;
    if r.observations > 0 { WholeRatio(r.observations); }
  }

  // ----- sums -----

  predicate Distinct<T(==)>(s: seq<T>) { forall i, j | 0 <= i < j < |s| :: s[i] != s[j] }

  function Sum(keys: seq<RouteId>, w: map<RouteId, int>): int
    requires forall k | k in keys :: k in w
  {
    if keys == [] then 0 else w[keys[0]] + Sum(keys[1..], w)
  }

  /** The part of the sum that comes from the routes in `ids`, and the part that does not. */
  function SumIn(keys: seq<RouteId>, ids: set<RouteId>, w: map<RouteId, int>): int
    requires forall k | k in keys :: k in w
  {
    if keys == [] then 0 else (if keys[0] in ids then w[keys[0]] else 0) + SumIn(keys[1..], ids, w)
  }

  function SumOut(keys: seq<RouteId>, ids: set<RouteId>, w: map<RouteId, int>): int
    requires forall k | k in keys :: k in w
  {
    if keys == [] then 0 else (if keys[0] in ids then 0 else w[keys[0]]) + SumOut(keys[1..], ids, w)
  }

  function SumScored(scored: seq<Scored>, w: map<RouteId, int>): int
    requires forall s | s in scored :: s.routeId in w
  {
    if scored == [] then 0 else w[scored[0].routeId] + SumScored(scored[1..], w)
  }

  function Ids(scored: seq<Scored>): set<RouteId> { set s | s in scored :: s.routeId }

  lemma {:induction false} SumSplits(keys: seq<RouteId>, ids: set<RouteId>, w: map<RouteId, int>)
    requires forall k | k in keys :: k in w
    ensures Sum(keys, w) == SumIn(keys, ids, w) + SumOut(keys, ids, w)
  {
    if keys != [] { SumSplits(keys[1..], ids, w); }
  }

  lemma {:induction false} SumOutUnchanged(keys: seq<RouteId>, ids: set<RouteId>, w: map<RouteId, int>, v: map<RouteId, int>)
    requires forall k | k in keys :: k in w && k in v && (k !in ids ==> v[k] == w[k])
    ensures SumOut(keys, ids, v) == SumOut(keys, ids, w)
  {
    if keys != [] { SumOutUnchanged(keys[1..], ids, w, v); }
  }

  lemma {:induction false} SumInNone(keys: seq<RouteId>, ids: set<RouteId>, w: map<RouteId, int>, r: RouteId)
    requires (forall k | k in keys :: k in w) && r !in keys
    ensures SumIn(keys, ids + {r}, w) == SumIn(keys, ids, w)
  {
    if keys != [] { SumInNone(keys[1..], ids, w, r); }
  }

  lemma {:induction false} SumInOneMore(keys: seq<RouteId>, ids: set<RouteId>, w: map<RouteId, int>, r: RouteId)
    requires (forall k | k in keys :: k in w) && Distinct(keys) && r in keys && r !in ids
    ensures SumIn(keys, ids + {r}, w) == SumIn(keys, ids, w) + w[r]
  {
    assert Distinct(keys[1..]);
    if keys[0] == r {
      assert r !in keys[1..];
      SumInNone(keys[1..], ids, w, r);
    } else {
      SumInOneMore(keys[1..], ids, w, r);
    }
  }

  predicate DistinctIds(scored: seq<Scored>) { forall i, j | 0 <= i < j < |scored| :: scored[i].routeId != scored[j].routeId }

  /** The comparable routes' part of the sum, taken route by route. */
  lemma {:induction false} SumByRoute(keys: seq<RouteId>, scored: seq<Scored>, w: map<RouteId, int>)
    requires (forall k | k in keys :: k in w) && Distinct(keys) && DistinctIds(scored)
    requires forall s | s in scored :: s.routeId in keys
    ensures SumIn(keys, Ids(scored), w) == SumScored(scored, w)
  {
    if scored == [] {
      assert Ids(scored) == {};
      SumInEmpty(keys, w);
    } else {
      SumByRoute(keys, scored[1..], w);
      assert Ids(scored) == Ids(scored[1..]) + {scored[0].routeId};
      assert scored[0].routeId !in Ids(scored[1..]);
      SumInOneMore(keys, Ids(scored[1..]), w, scored[0].routeId);
    }
  }

  lemma {:induction false} SumInEmpty(keys: seq<RouteId>, w: map<RouteId, int>)
    requires forall k | k in keys :: k in w
    ensures SumIn(keys, {}, w) == 0
  {
    if keys != [] { SumInEmpty(keys[1..], w); }
  }

  lemma {:induction false} SumScoredOneChanged(scored: seq<Scored>, w: map<RouteId, int>, i: nat, x: int)
    requires (forall s | s in scored :: s.routeId in w) && DistinctIds(scored) && i < |scored|
    ensures SumScored(scored, w[scored[i].routeId := x]) == SumScored(scored, w) - w[scored[i].routeId] + x
  {
    var v := w[scored[i].routeId := x];
    if i == 0 {
      SumScoredSame(scored[1..], w, v);
    } else {
      assert scored[1..][i - 1] == scored[i];
      SumScoredOneChanged(scored[1..], w, i - 1, x);
    }
  }

  lemma {:induction false} SumScoredSame(scored: seq<Scored>, w: map<RouteId, int>, v: map<RouteId, int>)
    requires forall s | s in scored :: s.routeId in w && s.routeId in v && v[s.routeId] == w[s.routeId]
    ensures SumScored(scored, v) == SumScored(scored, w)
  {
    if scored != [] { SumScoredSame(scored[1..], w, v); }
  }

  /** Weights of at least one sum to at least the number of routes, and to no more only when all are one. */
  lemma {:induction false} SumScoredBound(scored: seq<Scored>, w: map<RouteId, int>)
    requires forall s | s in scored :: s.routeId in w && w[s.routeId] >= 1
    ensures SumScored(scored, w) >= |scored|
    ensures SumScored(scored, w) == |scored| <==> forall s | s in scored :: w[s.routeId] == 1
  {
    if scored != [] {
      SumScoredBound(scored[1..], w);
      assert scored == [scored[0]] + scored[1..];
    }
  }

  // ----- what a rebalance must give -----

  /** A better score never weighs less. */
  predicate Ordered(scored: seq<Scored>, w: map<RouteId, int>)
    requires forall s | s in scored :: s.routeId in w
  {
    forall i, j | 0 <= i < |scored| && 0 <= j < |scored| ::
      scored[i].score > scored[j].score ==> w[scored[i].routeId] >= w[scored[j].routeId]
  }

  /** The routes and weights the loops work on. */
  predicate Fitting(keys: seq<RouteId>, scored: seq<Scored>, w: map<RouteId, int>) {
    && Distinct(keys) && (forall k | k in keys :: k in w)
    && DistinctIds(scored) && (forall s | s in scored :: s.routeId in keys)
  }

  /** The weight of the routes outside the comparison. */
  function Others(keys: seq<RouteId>, scored: seq<Scored>, w: map<RouteId, int>): int
    requires forall k | k in keys :: k in w
  {
    SumOut(keys, Ids(scored), w)
  }

  lemma SumIs(keys: seq<RouteId>, scored: seq<Scored>, w: map<RouteId, int>)
    requires Fitting(keys, scored, w)
    ensures Sum(keys, w) == SumScored(scored, w) + Others(keys, scored, w)
  {
    SumSplits(keys, Ids(scored), w);
    SumByRoute(keys, scored, w);
  }

  /** A stage of the computation: other routes as they were, every comparable weight at least one, better never less. */
  predicate Stage(keys: seq<RouteId>, scored: seq<Scored>, current: map<RouteId, int>, w: map<RouteId, int>) {
    && Fitting(keys, scored, current) && w.Keys == current.Keys
    && (forall k | k in current && k !in Ids(scored) :: w[k] == current[k])
    && (forall s | s in scored :: s.routeId in w && w[s.routeId] >= 1)
    && Ordered(scored, w)
  }

  lemma StageSum(keys: seq<RouteId>, scored: seq<Scored>, current: map<RouteId, int>, w: map<RouteId, int>)
    requires Stage(keys, scored, current, w)
    ensures Sum(keys, w) == SumScored(scored, w) + Others(keys, scored, current)
    ensures SumScored(scored, w) >= |scored|
    ensures SumScored(scored, w) == |scored| <==> forall s | s in scored :: w[s.routeId] == 1
  {
    SumIs(keys, scored, w);
    SumOutUnchanged(keys, Ids(scored), current, w);
    SumScoredBound(scored, w);
  }

  /** Changing one comparable weight by `d` changes the sum by `d`. */
  lemma StageStep(keys: seq<RouteId>, scored: seq<Scored>, current: map<RouteId, int>, w: map<RouteId, int>, i: nat, x: int)
    requires Stage(keys, scored, current, w) && i < |scored| && x >= 1
    requires forall j | 0 <= j < |scored| :: scored[j].score > scored[i].score ==> w[scored[j].routeId] >= x
    requires forall j | 0 <= j < |scored| :: scored[i].score > scored[j].score ==> x >= w[scored[j].routeId]
    ensures Stage(keys, scored, current, w[scored[i].routeId := x])
    ensures SumScored(scored, w[scored[i].routeId := x]) == SumScored(scored, w) - w[scored[i].routeId] + x
  {
    hide Ordered, Sum, SumScored;
    SumScoredOneChanged(scored, w, i, x);
    assert scored[i] in scored && scored[i].routeId in Ids(scored);
    var v := w[scored[i].routeId := x];
    assert v.Keys == current.Keys;
    StepOrdered(scored, w, i, x);
  }

  lemma StepOrdered(scored: seq<Scored>, w: map<RouteId, int>, i: nat, x: int)
    requires (forall s | s in scored :: s.routeId in w) && DistinctIds(scored) && i < |scored| && Ordered(scored, w)
    requires forall j | 0 <= j < |scored| :: scored[j].score > scored[i].score ==> w[scored[j].routeId] >= x
    requires forall j | 0 <= j < |scored| :: scored[i].score > scored[j].score ==> x >= w[scored[j].routeId]
    ensures Ordered(scored, w[scored[i].routeId := x])
  {
    var v := w[scored[i].routeId := x];
    forall a, b | 0 <= a < |scored| && 0 <= b < |scored| && scored[a].score > scored[b].score
      ensures v[scored[a].routeId] >= v[scored[b].routeId]
    {
      assert a != i ==> v[scored[a].routeId] == w[scored[a].routeId];
      assert b != i ==> v[scored[b].routeId] == w[scored[b].routeId];
    }
  }

  // ----- the computation -----

  predicate IsLowestAboveOne(scored: seq<Scored>, w: map<RouteId, int>, n: nat, i: nat)
    requires n <= |scored| && forall s | s in scored :: s.routeId in w
  {
    i < n && w[scored[i].routeId] > 1 &&
    (forall j | 0 <= j < n :: w[scored[j].routeId] > 1 ==> scored[i].score <= scored[j].score) &&
    (forall j | 0 <= j < i :: w[scored[j].routeId] > 1 ==> scored[i].score < scored[j].score)
  }

  /** The first of the lowest-scored routes that still weigh more than one. */
  method LowestAboveOne(scored: seq<Scored>, w: map<RouteId, int>) returns (found: Option<nat>)
    requires forall s | s in scored :: s.routeId in w
    ensures found.Some? ==> IsLowestAboveOne(scored, w, |scored|, found.value)
    ensures found.None? ==> forall j | 0 <= j < |scored| :: w[scored[j].routeId] <= 1
  {
    found := None;
    var i := 0;
    while i < |scored|
      invariant 0 <= i <= |scored|
      invariant found.Some? ==> IsLowestAboveOne(scored, w, i, found.value)
      invariant found.None? ==> forall j | 0 <= j < i :: w[scored[j].routeId] <= 1
    {
      if w[scored[i].routeId] > 1 && (found.None? || scored[i].score < scored[found.value].score) { found := Some(i); }
      i := i + 1;
    }
  }

  predicate IsBest(scored: seq<Scored>, i: nat) {
    && i < |scored| && (forall j | 0 <= j < |scored| :: scored[j].score <= scored[i].score)
    && (forall j | 0 <= j < i :: scored[j].score < scored[i].score)
  }

  /** The first of the highest-scored routes. */
  method Highest(scored: seq<Scored>) returns (found: nat)
    requires scored != []
    ensures IsBest(scored, found)
  {
    found := 0;
    var i := 1;
    while i < |scored|
      invariant 1 <= i <= |scored| && found < i
      invariant forall j | 0 <= j < i :: scored[j].score <= scored[found].score
      invariant forall j | 0 <= j < found :: scored[j].score < scored[found].score
    {
      if scored[i].score > scored[found].score { found := i; }
      i := i + 1;
    }
  }

  /** Every comparable route weighs its share. */
  predicate AreShares(scored: seq<Scored>, total: nat, w: map<RouteId, int>)
    requires ScoreTotal(scored) > 0.0
  {
    forall s | s in scored :: s.routeId in w && w[s.routeId] == Share(s.score, ScoreTotal(scored), total)
  }

  /** No comparable weight is higher in `w` than in `v`. */
  predicate NoneHigher(scored: seq<Scored>, w: map<RouteId, int>, v: map<RouteId, int>) {
    forall s | s in scored :: s.routeId in w && s.routeId in v && w[s.routeId] <= v[s.routeId]
  }

  /** Every comparable route weighs the whole number nearest to its proportion of the total. */
  predicate Proportional(scored: seq<Scored>, total: nat, w: map<RouteId, int>)
    requires ScoreTotal(scored) > 0.0
  {
    forall s | s in scored :: s.routeId in w && IsNearest(w[s.routeId], Proportion(s.score, ScoreTotal(scored), total))
  }

  /** Before one route gives, every one with a lower score, or an equal one listed earlier, weighs one. */
  predicate LowestFirst(scored: seq<Scored>, start: map<RouteId, int>, w: map<RouteId, int>)
    requires forall s | s in scored :: s.routeId in start && s.routeId in w
  {
    forall i, j | 0 <= i < |scored| && 0 <= j < |scored| ::
      (w[scored[j].routeId] < start[scored[j].routeId] &&
       (scored[i].score < scored[j].score || (scored[i].score == scored[j].score && i < j))) ==> w[scored[i].routeId] == 1
  }

  /** Only the first of the highest-scored routes receives. */
  predicate OnlyBest(scored: seq<Scored>, start: map<RouteId, int>, w: map<RouteId, int>)
    requires forall s | s in scored :: s.routeId in start && s.routeId in w
  {
    forall i | 0 <= i < |scored| :: w[scored[i].routeId] != start[scored[i].routeId] ==> IsBest(scored, i)
  }

  lemma SharesProportional(scored: seq<Scored>, total: nat, w: map<RouteId, int>)
    requires ScoreTotal(scored) > 0.0 && AreShares(scored, total, w)
    ensures Proportional(scored, total, w)
  {
    hide IsNearest, Share, Proportion, ScoreTotal;
    forall s | s in scored ensures IsNearest(w[s.routeId], Proportion(s.score, ScoreTotal(scored), total)) {
      ShareIsNearest(s.score, ScoreTotal(scored), total);
    }
  }

  method Distribute(keys: seq<RouteId>, scored: seq<Scored>, current: map<RouteId, int>, total: nat) returns (w: map<RouteId, int>)
    requires Fitting(keys, scored, current) && keys != [] && ScoreTotal(scored) > 0.0
    ensures Stage(keys, scored, current, w) && AreShares(scored, total, w)
  {
    w := current;
    var i := 0;
    while i < |scored|
      invariant 0 <= i <= |scored| && w.Keys == current.Keys
      invariant forall k | k in current && k !in Ids(scored) :: w[k] == current[k]
      invariant forall j | 0 <= j < i :: scored[j].routeId in w && w[scored[j].routeId] == Share(scored[j].score, ScoreTotal(scored), total)
    {
      assert scored[i] in scored && scored[i].routeId in Ids(scored);
      w := w[scored[i].routeId := Share(scored[i].score, ScoreTotal(scored), total)];
      i := i + 1;
    }
    SharesOrdered(scored, w, total);
  }

  lemma SharesOrdered(scored: seq<Scored>, w: map<RouteId, int>, total: nat)
    requires ScoreTotal(scored) > 0.0
    requires forall j | 0 <= j < |scored| :: scored[j].routeId in w && w[scored[j].routeId] == Share(scored[j].score, ScoreTotal(scored), total)
    ensures forall s | s in scored :: s.routeId in w && w[s.routeId] >= 1
    ensures Ordered(scored, w)
  {
    forall i, j | 0 <= i < |scored| && 0 <= j < |scored| && scored[i].score > scored[j].score
      ensures w[scored[i].routeId] >= w[scored[j].routeId]
    {
      ShareMonotone(scored[j].score, scored[i].score, ScoreTotal(scored), total);
    }
  }

  /** Take from the lowest score that has something to give, until the sum fits or every weight is one. */
  method Lower(keys: seq<RouteId>, scored: seq<Scored>, current: map<RouteId, int>, total: int, start: map<RouteId, int>)
    returns (w: map<RouteId, int>)
    requires Stage(keys, scored, current, start)
    ensures Stage(keys, scored, current, w)
    ensures var floor := Others(keys, scored, current) + |scored|;
      Sum(keys, w) == if Sum(keys, start) <= total then Sum(keys, start) else if total < floor then floor else total
    ensures NoneHigher(scored, w, start) && (Sum(keys, start) <= total ==> w == start)
    ensures (forall s | s in scored :: s.routeId in start && s.routeId in w) && LowestFirst(scored, start, w)
  {
    hide Stage, Sum, SumScored, Others, LowestFirst;
    w := start;
    StageSum(keys, scored, current, w);
    StageKeys(keys, scored, current, w);
    NobodyGave(scored, start);
    while Sum(keys, w) > total
      invariant Stage(keys, scored, current, w)
      invariant (forall k | k in keys :: k in w && k in current) && (forall s | s in scored :: s.routeId in w)
      invariant Sum(keys, w) == SumScored(scored, w) + Others(keys, scored, current)
      invariant Sum(keys, w) <= Sum(keys, start) && (Sum(keys, w) == Sum(keys, start) || Sum(keys, w) >= total)
      invariant NoneHigher(scored, w, start) && (Sum(keys, start) <= total ==> w == start)
      invariant (forall s | s in scored :: s.routeId in start) && LowestFirst(scored, start, w)
      decreases Sum(keys, w) - total
    {
      StageSum(keys, scored, current, w);
      var candidate := LowestAboveOne(scored, w);
      if candidate.None? {
        AllOnes(keys, scored, current, w);
        return;
      }
      var i := candidate.value;
      TakeOne(keys, scored, current, w, i);
      StageOrder(keys, scored, current, w);
      StageApart(keys, scored, current, w);
      GaveFirst(scored, start, w, i);
      w := w[scored[i].routeId := w[scored[i].routeId] - 1];
      StageSum(keys, scored, current, w);
      StageKeys(keys, scored, current, w);
    }
    StageSum(keys, scored, current, w);
  }

  lemma NobodyGave(scored: seq<Scored>, start: map<RouteId, int>)
    requires forall s | s in scored :: s.routeId in start
    ensures LowestFirst(scored, start, start) && OnlyBest(scored, start, start)
  {}

  lemma GaveFirst(scored: seq<Scored>, start: map<RouteId, int>, w: map<RouteId, int>, i: nat)
    requires (forall s | s in scored :: s.routeId in start && s.routeId in w && w[s.routeId] >= 1) && DistinctIds(scored)
    requires LowestFirst(scored, start, w) && IsLowestAboveOne(scored, w, |scored|, i)
    ensures LowestFirst(scored, start, w[scored[i].routeId := w[scored[i].routeId] - 1])
  {
    var v := w[scored[i].routeId := w[scored[i].routeId] - 1];
    assert forall j | 0 <= j < |scored| && j != i :: v[scored[j].routeId] == w[scored[j].routeId];
  }

  lemma StageApart(keys: seq<RouteId>, scored: seq<Scored>, current: map<RouteId, int>, w: map<RouteId, int>)
    requires Stage(keys, scored, current, w)
    ensures DistinctIds(scored)
  {}

  lemma StageKeys(keys: seq<RouteId>, scored: seq<Scored>, current: map<RouteId, int>, w: map<RouteId, int>)
    requires Stage(keys, scored, current, w)
    ensures (forall k | k in keys :: k in w && k in current) && forall s | s in scored :: s.routeId in w
  {}

  lemma AllOnes(keys: seq<RouteId>, scored: seq<Scored>, current: map<RouteId, int>, w: map<RouteId, int>)
    requires Stage(keys, scored, current, w)
    requires forall j | 0 <= j < |scored| :: w[scored[j].routeId] <= 1
    ensures SumScored(scored, w) == |scored|
  {
    StageSum(keys, scored, current, w);
  }

  /** Whoever scores less than the candidate weighs one already, so taking one keeps the order. */
  lemma TakeOne(keys: seq<RouteId>, scored: seq<Scored>, current: map<RouteId, int>, w: map<RouteId, int>, i: nat)
    requires Stage(keys, scored, current, w) && IsLowestAboveOne(scored, w, |scored|, i)
    ensures Stage(keys, scored, current, w[scored[i].routeId := w[scored[i].routeId] - 1])
    ensures SumScored(scored, w[scored[i].routeId := w[scored[i].routeId] - 1]) == SumScored(scored, w) - 1
  {
    hide SumScored, Fitting, Distinct;
    StageStep(keys, scored, current, w, i, w[scored[i].routeId] - 1);
  }

  lemma StageOrder(keys: seq<RouteId>, scored: seq<Scored>, current: map<RouteId, int>, w: map<RouteId, int>)
    requires Stage(keys, scored, current, w)
    ensures forall s | s in scored :: s.routeId in w && w[s.routeId] >= 1
    ensures Ordered(scored, w)
  {}

  lemma GiveOne(keys: seq<RouteId>, scored: seq<Scored>, current: map<RouteId, int>, w: map<RouteId, int>, i: nat)
    requires Stage(keys, scored, current, w) && i < |scored|
    requires forall j | 0 <= j < |scored| :: scored[j].score <= scored[i].score
    ensures Stage(keys, scored, current, w[scored[i].routeId := w[scored[i].routeId] + 1])
    ensures SumScored(scored, w[scored[i].routeId := w[scored[i].routeId] + 1]) == SumScored(scored, w) + 1
  {
    hide Stage, SumScored;
    StageOrder(keys, scored, current, w);
    StageStep(keys, scored, current, w, i, w[scored[i].routeId] + 1);
  }

  /** Give to the highest score until the sum is reached. */
  method Raise(keys: seq<RouteId>, scored: seq<Scored>, current: map<RouteId, int>, total: int, start: map<RouteId, int>)
    returns (w: map<RouteId, int>)
    requires Stage(keys, scored, current, start) && scored != []
    ensures Stage(keys, scored, current, w)
    ensures Sum(keys, w) == if Sum(keys, start) < total then total else Sum(keys, start)
    ensures NoneHigher(scored, start, w) && (Sum(keys, start) >= total ==> w == start)
    ensures (forall s | s in scored :: s.routeId in start && s.routeId in w) && OnlyBest(scored, start, w)
  {
    hide Stage, Sum, SumScored, Others, OnlyBest, IsBest;
    w := start;
    StageSum(keys, scored, current, w);
    StageKeys(keys, scored, current, w);
    NobodyGave(scored, start);
    while Sum(keys, w) < total
      invariant Stage(keys, scored, current, w)
      invariant (forall k | k in keys :: k in w && k in current) && (forall s | s in scored :: s.routeId in w)
      invariant Sum(keys, w) == SumScored(scored, w) + Others(keys, scored, current)
      invariant Sum(keys, w) == Sum(keys, start) || Sum(keys, w) <= total
      invariant Sum(keys, w) >= Sum(keys, start)
      invariant NoneHigher(scored, start, w) && (Sum(keys, start) >= total ==> w == start)
      invariant (forall s | s in scored :: s.routeId in start) && OnlyBest(scored, start, w)
      decreases total - Sum(keys, w)
    {
      var i := Highest(scored);
      BestIsHighest(scored, i);
      GiveOne(keys, scored, current, w, i);
      StageApart(keys, scored, current, w);
      BestReceived(scored, start, w, i);
      w := w[scored[i].routeId := w[scored[i].routeId] + 1];
      StageSum(keys, scored, current, w);
      StageKeys(keys, scored, current, w);
    }
  }

  lemma BestIsHighest(scored: seq<Scored>, i: nat)
    requires IsBest(scored, i)
    ensures i < |scored| && forall j | 0 <= j < |scored| :: scored[j].score <= scored[i].score
  {}

  lemma BestReceived(scored: seq<Scored>, start: map<RouteId, int>, w: map<RouteId, int>, i: nat)
    requires (forall s | s in scored :: s.routeId in start && s.routeId in w) && DistinctIds(scored) && IsBest(scored, i)
    requires OnlyBest(scored, start, w)
    ensures OnlyBest(scored, start, w[scored[i].routeId := w[scored[i].routeId] + 1])
  {
    hide IsBest;
    BestIsHighest(scored, i);
    var v := w[scored[i].routeId := w[scored[i].routeId] + 1];
    assert forall j | 0 <= j < |scored| && j != i :: v[scored[j].routeId] == w[scored[j].routeId];
  }

  // ----- the whole operation -----

  predicate Comparable(r: RouteStats, current: map<RouteId, int>, minimumSamples: nat) {
    r.runs >= minimumSamples && r.routeId in current && current[r.routeId] > 0 && r.originKnown >= minimumSamples
  }

  function ComparableRoutes(rows: seq<RouteStats>, current: map<RouteId, int>, minimumSamples: nat): (kept: seq<RouteStats>)
    ensures forall r :: r in kept <==> r in rows && Comparable(r, current, minimumSamples)
  {
    if rows == [] then []
    else (if Comparable(rows[0], current, minimumSamples) then [rows[0]] else []) + ComparableRoutes(rows[1..], current, minimumSamples)
  }

  predicate DistinctRows(rows: seq<RouteStats>) { forall i, j | 0 <= i < j < |rows| :: rows[i].routeId != rows[j].routeId }

  lemma {:induction false} ComparableDistinct(rows: seq<RouteStats>, current: map<RouteId, int>, minimumSamples: nat)
    requires DistinctRows(rows)
    ensures DistinctRows(ComparableRoutes(rows, current, minimumSamples))
  {
    if rows != [] {
      ComparableDistinct(rows[1..], current, minimumSamples);
      var rest := ComparableRoutes(rows[1..], current, minimumSamples);
      forall r | r in rest ensures r.routeId != rows[0].routeId {
        assert r in rows[1..];
        var j :| 0 <= j < |rows[1..]| && rows[1..][j] == r;
        assert rows[j + 1] == r;
      }
    }
  }

  /** The routes a rebalance compares, with their scores. */
  function ScoredRoutes(rows: seq<RouteStats>, current: map<RouteId, int>, minimumSamples: nat): seq<Scored> {
    var routes := ComparableRoutes(rows, current, minimumSamples);
    Scores(routes, MaxLatency(routes))
  }

  function Max(a: int, b: int): int { if a < b then b else a }

  /** Other routes as they were, every comparable weight at least one, better never less, and the sum settled. */
  predicate Balanced(keys: seq<RouteId>, scored: seq<Scored>, current: map<RouteId, int>, w: map<RouteId, int>) {
    && Stage(keys, scored, current, w)
    && (forall k | k in keys :: k in w)
    && Sum(keys, w) == Max(SumScored(scored, current), Others(keys, scored, current) + |scored|)
  }

  /** A score is taken from each comparable route in turn. */
  lemma ScoredInRange(rows: seq<RouteStats>, current: map<RouteId, int>, minimumSamples: nat)
    ensures forall s | s in ScoredRoutes(rows, current, minimumSamples) ::
      s.score >= 0.01 && s.routeId in current && current[s.routeId] >= 1
  {
    hide Score, MaxLatency;
    var routes := ComparableRoutes(rows, current, minimumSamples);
    var scored := ScoredRoutes(rows, current, minimumSamples);
    forall i | 0 <= i < |scored| ensures scored[i].score >= 0.01 && scored[i].routeId in current && current[scored[i].routeId] >= 1 {
      assert routes[i] in routes;
    }
  }

  lemma ScoredDistinct(rows: seq<RouteStats>, current: map<RouteId, int>, minimumSamples: nat)
    requires DistinctRows(rows)
    ensures DistinctIds(ScoredRoutes(rows, current, minimumSamples))
  {
    hide Score, MaxLatency, ComparableRoutes;
    ComparableDistinct(rows, current, minimumSamples);
  }

  lemma ScoredFit(keys: seq<RouteId>, rows: seq<RouteStats>, current: map<RouteId, int>, minimumSamples: nat)
    requires Distinct(keys) && (forall k :: k in keys <==> k in current) && DistinctRows(rows)
    ensures var scored := ScoredRoutes(rows, current, minimumSamples);
      && Fitting(keys, scored, current)
      && (forall s | s in scored :: s.score >= 0.01 && s.routeId in current && current[s.routeId] >= 1)
  {
    hide ScoredRoutes, DistinctIds, DistinctRows, Distinct;
    ScoredInRange(rows, current, minimumSamples);
    ScoredDistinct(rows, current, minimumSamples);
  }

  /**
   The suggestion, if there is one, is balanced; without one, either fewer than
   two routes compare or the current weights are balanced as they are. Each
   route starts from the whole number nearest to its proportion of the total.
   If these sum to too much the lowest scores give first, each down to one; if
   they sum to too little the best receives the rest.
   */
  method GenerateWeightRebalance(rows: seq<RouteStats>, keys: seq<RouteId>, current: map<RouteId, int>, minimumSamples: nat)
    returns (suggested: Option<map<RouteId, int>>, ghost shares: map<RouteId, int>)
    requires Distinct(keys) && (forall k :: k in keys <==> k in current) && DistinctRows(rows)
    ensures var scored := ScoredRoutes(rows, current, minimumSamples);
      match suggested
      case Some(w) => |scored| >= 2 && w != current && Balanced(keys, scored, current, w)
      case None => |scored| < 2 || Balanced(keys, scored, current, current)
    ensures var scored := ScoredRoutes(rows, current, minimumSamples);
      |scored| >= 2 ==>
        var w := suggested.GetOr(current); var total := SumScored(scored, current);
        && total >= 0 && ScoreTotal(scored) > 0.0 && AreShares(scored, total, shares) && (forall k | k in keys :: k in shares)
        && Proportional(scored, total, shares)
        && (forall s | s in scored :: s.routeId in shares && s.routeId in w)
        && (Sum(keys, shares) >= total ==> NoneHigher(scored, w, shares) && LowestFirst(scored, shares, w))
        && (Sum(keys, shares) <= total ==> NoneHigher(scored, shares, w) && OnlyBest(scored, shares, w))
  {
    hide Stage, Sum, SumScored, Others, Scores, Fitting, Distinct, DistinctRows, AreShares, Proportional, LowestFirst,
         OnlyBest;
    ScoredFit(keys, rows, current, minimumSamples);
    var scored := ScoredRoutes(rows, current, minimumSamples);
    shares := current;
    if |scored| < 2 { return None, shares; }
    ScoreTotalPositive(scored);
    SumScoredBound(scored, current);
    KeysNonEmpty(keys, scored, current);
    var total := SumScored(scored, current);
    var rounded := Distribute(keys, scored, current, total);
    shares := rounded;
    SharesProportional(scored, total, rounded);
    StageSum(keys, scored, current, rounded);
    StageKeys(keys, scored, current, rounded);
    var lowered := Lower(keys, scored, current, total, rounded);
    var w := Raise(keys, scored, current, total, lowered);
    StageKeys(keys, scored, current, w);
    if w == current { return None, shares; }
    return Some(w), shares;
  }

  lemma KeysNonEmpty(keys: seq<RouteId>, scored: seq<Scored>, current: map<RouteId, int>)
    requires Fitting(keys, scored, current) && scored != []
    ensures keys != []
  {
    assert scored[0] in scored;
  }

  /**
   The old total is kept exactly when no other route weighs anything or every
   comparable route weighed one; otherwise the others' weight is lost from it.
   */
  lemma TotalKept(keys: seq<RouteId>, scored: seq<Scored>, current: map<RouteId, int>, w: map<RouteId, int>)
    requires Balanced(keys, scored, current, w)
    requires forall k | k in current :: current[k] >= 0
    requires forall s | s in scored :: s.routeId in current && current[s.routeId] >= 1
    ensures Sum(keys, w) == Sum(keys, current) <==> Others(keys, scored, current) == 0 || SumScored(scored, current) == |scored|
    ensures Sum(keys, w) <= Sum(keys, current)
  {
    hide Stage, Sum, SumScored, Others;
    StageFits(keys, scored, current, w);
    SumIs(keys, scored, current);
    SumScoredBound(scored, current);
    OthersNonNegative(keys, scored, current);
  }

  lemma StageFits(keys: seq<RouteId>, scored: seq<Scored>, current: map<RouteId, int>, w: map<RouteId, int>)
    requires Stage(keys, scored, current, w)
    ensures Fitting(keys, scored, current)
  {}

  lemma OthersNonNegative(keys: seq<RouteId>, scored: seq<Scored>, current: map<RouteId, int>)
    requires (forall k | k in keys :: k in current) && forall k | k in current :: current[k] >= 0
    ensures Others(keys, scored, current) >= 0
  {
    SumOutNonNegative(keys, Ids(scored), current);
  }

  lemma {:induction false} SumOutNonNegative(keys: seq<RouteId>, ids: set<RouteId>, w: map<RouteId, int>)
    requires (forall k | k in keys :: k in w) && forall k | k in w :: w[k] >= 0
    ensures SumOut(keys, ids, w) >= 0
  {
    if keys != [] { SumOutNonNegative(keys[1..], ids, w); }
  }
}
