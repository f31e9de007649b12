/** The additive migrations every configuration passes through when it is read or written. */
module ConfigMigrations {
  import opened Wrappers

  type Text = string

  datatype Effort = Auto | Low | Medium | High | XHigh | Max

  datatype PoolEntry = PoolEntry(routeId: Text, enabled: bool, effort: Option<Effort>, weight: Option<int>)

  datatype Pool = Pool(entries: seq<PoolEntry>, policy: Option<Text>)

  datatype ProfileEntry = ProfileEntry(routeId: Text, enabled: bool, effort: Option<Effort>, weight: Option<int>)

  datatype Profile = Profile(routeIds: seq<Text>, entries: Option<seq<ProfileEntry>>, policy: Option<Text>)

  /** `rest` stands for the parts no migration touches. */
  datatype Config = Config(pools: map<Text, Pool>, bossProfiles: map<Text, Profile>, rest: Text)

  // ----- what each migration makes of one item -----

  function DefaultTo<T>(o: Option<T>, default: T): (r: Option<T>)
    ensures r.Some? && (o.Some? ==> r == o)
  {
    if o.None? then Some(default) else o
  }

  function Map<A, B>(f: A -> B, s: seq<A>): (r: seq<B>)
    ensures |r| == |s| && forall i | 0 <= i < |s| :: r[i] == f(s[i])
  {
    seq(|s|, i requires 0 <= i < |s| => f(s[i]))
  }

  function PoolWithEfforts(p: Pool): Pool {
    p.(entries := Map((e: PoolEntry) => e.(effort := DefaultTo(e.effort, Auto)), p.entries))
  }

  function PoolWithScheduling(p: Pool): Pool {
    p.(policy := DefaultTo(p.policy, "priority"),
       entries := Map((e: PoolEntry) => e.(weight := DefaultTo(e.weight, 1)), p.entries))
  }

  /** A profile without entries gets one for each of its route ids. */
  function EntriesOf(p: Profile): seq<ProfileEntry> {
    if p.entries.None? || (p.entries.value == [] && p.routeIds != [])
    then Map((r: Text) => ProfileEntry(r, true, Some(Max), Some(1)), p.routeIds)
    else p.entries.value
  }

  function ProfileWithDefaults(p: Profile): Profile {
    var entries := Map((e: ProfileEntry) => e.(effort := DefaultTo(e.effort, Max), weight := DefaultTo(e.weight, 1)), EntriesOf(p));
    Profile(Map((e: ProfileEntry) => e.routeId, entries), Some(entries), DefaultTo(p.policy, "weighted"))
  }

  function MigratePoolThinkingEffort(c: Config): Config {
    c.(pools := map k | k in c.pools :: PoolWithEfforts(c.pools[k]))
  }

  function MigratePoolScheduling(c: Config): Config {
    c.(pools := map k | k in c.pools :: PoolWithScheduling(c.pools[k]))
  }

  function MigrateBossRuntimeDefaults(c: Config): Config {
    c.(bossProfiles := map k | k in c.bossProfiles :: ProfileWithDefaults(c.bossProfiles[k]))
  }

  function MigratePoolRuntimeDefaults(c: Config): Config {
    MigrateBossRuntimeDefaults(MigratePoolScheduling(MigratePoolThinkingEffort(c)))
  }

  // ----- migrated configurations -----

  predicate PoolSettled(p: Pool) {
    p.policy.Some? && forall i | 0 <= i < |p.entries| :: p.entries[i].effort.Some? && p.entries[i].weight.Some?
  }

  predicate ProfileSettled(p: Profile) {
    && p.policy.Some? && p.entries.Some? && |p.entries.value| == |p.routeIds|
    && forall i | 0 <= i < |p.entries.value| ::
         p.entries.value[i].effort.Some? && p.entries.value[i].weight.Some? && p.routeIds[i] == p.entries.value[i].routeId
  }

  /** Nothing is left to default, and each profile's route ids are those of its entries. */
  predicate Settled(c: Config) {
    && (forall k | k in c.pools :: PoolSettled(c.pools[k]))
    && (forall k | k in c.bossProfiles :: ProfileSettled(c.bossProfiles[k]))
  }

  lemma PoolMigrated(p: Pool)
    ensures PoolSettled(PoolWithScheduling(PoolWithEfforts(p)))
    ensures PoolWithScheduling(PoolWithEfforts(p)) == p <==> PoolSettled(p)
  {
    var q := PoolWithScheduling(PoolWithEfforts(p));
    if PoolSettled(p) { assert q.entries == p.entries; }
    if q == p { assert PoolSettled(q); }
  }

  lemma ProfileMigrated(p: Profile)
    ensures ProfileSettled(ProfileWithDefaults(p))
    ensures ProfileWithDefaults(p) == p <==> ProfileSettled(p)
  {
    var q := ProfileWithDefaults(p);
    if ProfileSettled(p) {
      assert EntriesOf(p) == p.entries.value;
      assert q.entries.value == p.entries.value;
      assert q.routeIds == p.routeIds;
    }
    if q == p { assert ProfileSettled(q); }
  }

  /** Migration settles every configuration, and changes none but the unsettled ones. */
  lemma MigrationSettles(c: Config)
    ensures Settled(MigratePoolRuntimeDefaults(c))
    ensures MigratePoolRuntimeDefaults(c) == c <==> Settled(c)
  {
    hide PoolWithEfforts, PoolWithScheduling, ProfileWithDefaults, PoolSettled, ProfileSettled;
    var d := MigratePoolRuntimeDefaults(c);
    forall k | k in c.pools
      ensures d.pools[k] == PoolWithScheduling(PoolWithEfforts(c.pools[k])) && PoolSettled(d.pools[k])
      ensures d.pools[k] == c.pools[k] <==> PoolSettled(c.pools[k])
    {
      PoolMigrated(c.pools[k]);
    }
    forall k | k in c.bossProfiles
      ensures d.bossProfiles[k] == ProfileWithDefaults(c.bossProfiles[k]) && ProfileSettled(d.bossProfiles[k])
      ensures d.bossProfiles[k] == c.bossProfiles[k] <==> ProfileSettled(c.bossProfiles[k])
    {
      ProfileMigrated(c.bossProfiles[k]);
    }
    if Settled(c) { assert d.pools == c.pools && d.bossProfiles == c.bossProfiles; }
  }

  /** Reading a configuration that was written migrated gives it back unchanged. */
  lemma MigrationIsIdempotent(c: Config)
    ensures MigratePoolRuntimeDefaults(MigratePoolRuntimeDefaults(c)) == MigratePoolRuntimeDefaults(c)
  {
    hide MigratePoolRuntimeDefaults, Settled;
    MigrationSettles(c);
    MigrationSettles(MigratePoolRuntimeDefaults(c));
  }

  // ----- what a migration fills in, and what it leaves -----

  /** The value that was given, or the default where none was. */
  predicate Filled<T(==)>(before: Option<T>, after: Option<T>, default: T) {
    after == if before.Some? then before else Some(default)
  }

  /** The same routes in the same order, each with an effort and a weight. */
  predicate PoolFilled(p: Pool, q: Pool) {
    && Filled(p.policy, q.policy, "priority") && |q.entries| == |p.entries|
    && forall i | 0 <= i < |p.entries| ::
         q.entries[i].routeId == p.entries[i].routeId && q.entries[i].enabled == p.entries[i].enabled &&
         Filled(p.entries[i].effort, q.entries[i].effort, Auto) && Filled(p.entries[i].weight, q.entries[i].weight, 1)
  }

  /** A profile that lists routes without entries keeps them, one entry each; any other keeps its entries, and lists their routes. */
  predicate ProfileFilled(p: Profile, q: Profile) {
    && Filled(p.policy, q.policy, "weighted") && q.entries.Some? && |q.entries.value| == |q.routeIds|
    && (forall i | 0 <= i < |q.routeIds| :: q.entries.value[i].routeId == q.routeIds[i])
    && if p.entries.Some? && p.entries.value != [] then
         |q.entries.value| == |p.entries.value| &&
         forall i | 0 <= i < |p.entries.value| ::
           var e, f := p.entries.value[i], q.entries.value[i];
           f.routeId == e.routeId && f.enabled == e.enabled && Filled(e.effort, f.effort, Max) && Filled(e.weight, f.weight, 1)
       else
         q.routeIds == p.routeIds &&
         forall i | 0 <= i < |q.routeIds| ::
           q.entries.value[i].enabled && q.entries.value[i].effort == Some(Max) && q.entries.value[i].weight == Some(1)
  }

  predicate ConfigFilled(c: Config, d: Config) {
    && d.rest == c.rest && d.pools.Keys == c.pools.Keys && d.bossProfiles.Keys == c.bossProfiles.Keys
    && (forall k | k in c.pools :: PoolFilled(c.pools[k], d.pools[k]))
    && (forall k | k in c.bossProfiles :: ProfileFilled(c.bossProfiles[k], d.bossProfiles[k]))
  }

  lemma PoolIsFilled(p: Pool)
    ensures PoolFilled(p, PoolWithScheduling(PoolWithEfforts(p)))
  {}

  lemma ProfileIsFilled(p: Profile)
    ensures ProfileFilled(p, ProfileWithDefaults(p))
  {
    var q := ProfileWithDefaults(p);
    if p.entries.None? || p.entries.value == [] {
      assert q.routeIds == p.routeIds;
    }
  }

  /** Migration only fills in what is missing, each with its default; no route, order, switch or choice is lost. */
  lemma MigrationFills(c: Config)
    ensures ConfigFilled(c, MigratePoolRuntimeDefaults(c))
  {
    hide PoolWithEfforts, PoolWithScheduling, ProfileWithDefaults, PoolFilled, ProfileFilled;
    forall k | k in c.pools ensures PoolFilled(c.pools[k], MigratePoolRuntimeDefaults(c).pools[k]) {
      PoolIsFilled(c.pools[k]);
    }
    forall k | k in c.bossProfiles ensures ProfileFilled(c.bossProfiles[k], MigratePoolRuntimeDefaults(c).bossProfiles[k]) {
      ProfileIsFilled(c.bossProfiles[k]);
    }
  }

  // ----- the migrations as the code runs them: a clone, then assignments in loops -----

  method DefaultEfforts(entries: seq<PoolEntry>) returns (next: seq<PoolEntry>)
    ensures next == Map((e: PoolEntry) => e.(effort := DefaultTo(e.effort, Auto)), entries)
  {
    next := entries;
    for i := 0 to |entries|
      invariant |next| == |entries|
      invariant forall j | 0 <= j < i :: next[j] == entries[j].(effort := DefaultTo(entries[j].effort, Auto))
      invariant forall j | i <= j < |entries| :: next[j] == entries[j]
    {
      if next[i].effort.None? { next := next[i := next[i].(effort := Some(Auto))]; }
    }
  }

  method DefaultWeights(entries: seq<PoolEntry>) returns (next: seq<PoolEntry>)
    ensures next == Map((e: PoolEntry) => e.(weight := DefaultTo(e.weight, 1)), entries)
  {
    next := entries;
    for i := 0 to |entries|
      invariant |next| == |entries|
      invariant forall j | 0 <= j < i :: next[j] == entries[j].(weight := DefaultTo(entries[j].weight, 1))
      invariant forall j | i <= j < |entries| :: next[j] == entries[j]
    {
      if next[i].weight.None? { next := next[i := next[i].(weight := Some(1))]; }
    }
  }

  method DefaultProfileEntries(entries: seq<ProfileEntry>) returns (next: seq<ProfileEntry>)
    ensures next == Map((e: ProfileEntry) => e.(effort := DefaultTo(e.effort, Max), weight := DefaultTo(e.weight, 1)), entries)
  {
    next := entries;
    for i := 0 to |entries|
      invariant |next| == |entries|
      invariant forall j | 0 <= j < i ::
        next[j] == entries[j].(effort := DefaultTo(entries[j].effort, Max), weight := DefaultTo(entries[j].weight, 1))
      invariant forall j | i <= j < |entries| :: next[j] == entries[j]
    {
      if next[i].effort.None? { next := next[i := next[i].(effort := Some(Max))]; }
      if next[i].weight.None? { next := next[i := next[i].(weight := Some(1))]; }
    }
  }

  method Migrate(value: Config) returns (next: Config)
    ensures next == MigratePoolRuntimeDefaults(value) && ConfigFilled(value, next)
  {
    hide PoolWithEfforts, PoolWithScheduling, ProfileWithDefaults;
    var pools := value.pools;
    var todo := pools.Keys;
    while todo != {}
      invariant todo <= pools.Keys && pools.Keys == value.pools.Keys
      invariant forall k | k in pools :: pools[k] == if k in todo then value.pools[k] else PoolWithScheduling(PoolWithEfforts(value.pools[k]))
      decreases todo
    {
      var k :| k in todo;
      var pool := MigratePool(pools[k]);
      pools := pools[k := pool];
      todo := todo - {k};
    }
    var profiles := value.bossProfiles;
    todo := profiles.Keys;
    while todo != {}
      invariant todo <= profiles.Keys && profiles.Keys == value.bossProfiles.Keys
      invariant forall k | k in profiles :: profiles[k] == if k in todo then value.bossProfiles[k] else ProfileWithDefaults(value.bossProfiles[k])
      decreases todo
    {
      var k :| k in todo;
      var profile := MigrateProfile(profiles[k]);
      profiles := profiles[k := profile];
      todo := todo - {k};
    }
    next := Config(pools, profiles, value.rest);
    assert pools == MigratePoolRuntimeDefaults(value).pools;
    assert profiles == MigratePoolRuntimeDefaults(value).bossProfiles;
    MigrationFills(value);
  }

  method MigratePool(p: Pool) returns (next: Pool)
    ensures next == PoolWithScheduling(PoolWithEfforts(p))
  {
    var entries := DefaultEfforts(p.entries);
    entries := DefaultWeights(entries);
    next := Pool(entries, if p.policy.None? then Some("priority") else p.policy);
  }

  method MigrateProfile(p: Profile) returns (next: Profile)
    ensures next == ProfileWithDefaults(p)
  {
    var entries := EntriesOf(p);
    entries := DefaultProfileEntries(entries);
    var routeIds := [];
    for i := 0 to |entries|
      invariant |routeIds| == i && forall j | 0 <= j < i :: routeIds[j] == entries[j].routeId
    {
      routeIds := routeIds + [entries[i].routeId];
    }
    next := Profile(routeIds, Some(entries), if p.policy.None? then Some("weighted") else p.policy);
    assert routeIds == Map((e: ProfileEntry) => e.routeId, entries);
  }
}
