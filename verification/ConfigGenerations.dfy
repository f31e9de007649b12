/**
 Configuration generations on disk: every write goes through the history, any
 step may fail or be the last before a crash, and the active file may be
 damaged from outside. The exclusive storage lock is taken for granted.
 */
module ConfigGenerations {
  import opened Wrappers
  import opened ConfigDisk
  import opened ConfigMigrations

  datatype Stored = Stored(generation: nat, savedAt: nat, config: Config)

  type Files = map<Path, Content<Stored>>

  const DEFAULT_HISTORY_RETENTION: nat := 20
  const MAX_SAFE_INTEGER: nat := 9007199254740991

  datatype ConfigError = ConflictError | RecoveryError | PersistenceError

  datatype Outcome = Committed(generation: nat) | Unchanged(generation: nat) | Refused(error: ConfigError) | Lost

  datatype ActiveFile = Missing | Valid(stored: Stored) | Invalid

  // ----- reading -----

  /** What reading a complete file gives: its configuration passes through the migrations. */
  function Decoded(s: Stored): Stored { s.(config := MigratePoolRuntimeDefaults(s.config)) }

  function ActiveOf(files: Files): ActiveFile {
    if Active !in files then Missing
    else if files[Active].Whole? then Valid(Decoded(files[Active].value))
    else Invalid
  }

  /** Generations with a readable snapshot that names itself by its file name. */
  function Generations(files: Files): set<nat> {
    set p | p in files && p.Snapshot? && files[p].Whole? && files[p].value.generation == p.generation :: p.generation
  }

  // ----- generations in order -----

  predicate IsMax(s: set<nat>, m: nat) {
    (forall x | x in s :: x <= m) && (m in s || m == 0)
  }

  /** Some generation is within `d` of `n`, counting from zero when there is none. */
  ghost predicate Near(past: map<nat, Stored>, n: nat, d: nat) {
    n <= d || exists g :: g in past && n <= g + d
  }

  /** The superseded generations strictly between `g` and `top`. */
  function Between(past: map<nat, Stored>, g: nat, top: nat): set<nat> {
    set h | h in past && g < h < top
  }

  // ----- what the directory owes to the past -----

  ghost predicate SnapshotsTrue(files: Files, past: map<nat, Stored>) {
    forall g: nat :: Snapshot(g) in files ==> g in past && files[Snapshot(g)] == Whole(past[g])
  }

  predicate PastOk(past: map<nat, Stored>, last: nat) {
    forall g | g in past :: 1 <= g <= last && past[g].generation == g && Settled(past[g].config)
  }

  /** The 20 generations before the active one, and the active one itself once superseded, are in the history. */
  predicate Retained(files: Files, past: map<nat, Stored>, last: nat) {
    forall g | g in past :: (g == last || |Between(past, g, last)| < DEFAULT_HISTORY_RETENTION) ==> Snapshot(g) in files
  }

  predicate ActiveTrue(files: Files, past: map<nat, Stored>, last: nat) {
    && (Active in files <==> last > 0)
    && (Active in files && files[Active].Whole? ==>
          && files[Active].value.generation == last && Settled(files[Active].value.config)
          && (last in past ==> past[last] == files[Active].value))
  }

  ghost predicate Coherent(files: Files, past: map<nat, Stored>, last: nat) {
    SnapshotsTrue(files, past) && PastOk(past, last) && Retained(files, past, last) && ActiveTrue(files, past, last) && Near(past, last, 2)
  }

  lemma SameCoherent(a: Files, b: Files, past: map<nat, Stored>, last: nat)
    requires Coherent(a, past, last) && Same(a, b)
    ensures Coherent(b, past, last)
  {
    hide PastOk, Near, Settled;
  }

  /** Writing the active generation into the history, again or for the first time. */
  lemma SnapshotWritten(files: Files, past: map<nat, Stored>, last: nat, current: Stored)
    requires Coherent(files, past, last) && Active in files && files[Active] == Whole(current)
    ensures Coherent(files[Snapshot(last) := Whole(current)], past[last := current], last)
    ensures Near(past[last := current], last, 1)
  {
    hide Settled;
    assert current.generation == last;
    var next := past[last := current];
    forall g | g in next && (g == last || |Between(next, g, last)| < DEFAULT_HISTORY_RETENTION)
      ensures Snapshot(g) in files[Snapshot(last) := Whole(current)]
    {
      if g != last { assert Between(next, g, last) == Between(past, g, last); }
    }
  }

  lemma FewerBetween(past: map<nat, Stored>, g: nat, top: nat, higher: nat)
    requires top <= higher
    ensures |Between(past, g, top)| <= |Between(past, g, higher)|
  {
    SmallerPart(Between(past, g, top), Between(past, g, higher));
  }

  /** A new generation above every earlier one becomes active. */
  lemma Activated(files: Files, past: map<nat, Stored>, last: nat, next: Stored)
    requires Coherent(files, past, last) && next.generation >= last && next.generation > 0 && Settled(next.config)
    requires next.generation !in past && Near(past, next.generation, 2)
    ensures Coherent(files[Active := Whole(next)], past, next.generation)
  {
    hide Settled;
    forall g | g in past && |Between(past, g, next.generation)| < DEFAULT_HISTORY_RETENTION ensures Snapshot(g) in files {
      FewerBetween(past, g, last, next.generation);
    }
  }

  /** Every superseded generation the numbering needs to know is readable. */
  lemma GenerationsKnown(files: Files, past: map<nat, Stored>, last: nat)
    requires Coherent(files, past, last)
    ensures forall g: nat :: g in Generations(files) <==> Snapshot(g) in files
    ensures Generations(files) <= past.Keys
    ensures forall g | g in past :: exists h :: h in Generations(files) && g <= h
  {
    hide Settled, Near;
    forall g: nat ensures g in Generations(files) <==> Snapshot(g) in files {
      if Snapshot(g) in files { assert files[Snapshot(g)].Whole? && files[Snapshot(g)].value.generation == g; }
    }
    forall g | g in past ensures exists h :: h in Generations(files) && g <= h {
      NewestRetained(files, past, last, g);
    }
  }

  /** Climbing from any superseded generation ends at one that is retained. */
  lemma {:induction false} NewestRetained(files: Files, past: map<nat, Stored>, last: nat, g: nat)
    requires PastOk(past, last) && Retained(files, past, last) && g in past
    ensures exists h :: h in past && g <= h && Snapshot(h) in files
    decreases last - g
  {
    hide Settled;
    if g != last {
      if h :| h in Between(past, g, last) {
        NewestRetained(files, past, last, h);
      } else {
        assert Between(past, g, last) == {};
      }
    }
  }

  // ----- what the directory owes to the commits -----

  /**
   Each committed generation is still what was committed: in the history once
   superseded, in the active file before that unless that was damaged. A
   committed generation leaves no gap for a recovery to fall into.
   */
  ghost predicate Owed(files: Files, past: map<nat, Stored>, last: nat, written: map<nat, Stored>, damaged: set<nat>) {
    && (forall g | g in written ::
          && 1 <= g <= last && written[g].generation == g
          && (g in past ==> past[g] == written[g])
          && (g == last || g in past || g in damaged))
    && (last in written ==> Near(past, last, 1))
    && (last in written && Active in files && files[Active].Whole? ==> files[Active].value == written[last])
  }

  lemma SameOwed(a: Files, b: Files, past: map<nat, Stored>, last: nat, written: map<nat, Stored>, damaged: set<nat>)
    requires Owed(a, past, last, written, damaged) && Same(a, b)
    ensures Owed(b, past, last, written, damaged)
  {
    hide Near;
  }

  lemma OwedSuperseded(files: Files, past: map<nat, Stored>, last: nat, written: map<nat, Stored>, damaged: set<nat>, current: Stored)
    requires Owed(files, past, last, written, damaged) && Holds(files, current)
    requires Near(past[last := current], last, 1)
    ensures Owed(files[Snapshot(last) := Whole(current)], past[last := current], last, written, damaged)
  {
    hide Near;
  }

  lemma OwedCommitted(files: Files, past: map<nat, Stored>, last: nat, written: map<nat, Stored>, damaged: set<nat>, next: Stored)
    requires Owed(files, past, last, written, damaged) && (last == 0 || last in past)
    requires next.generation > last && next.generation !in past && Near(past, next.generation, 1)
    ensures Owed(files[Active := Whole(next)], past, next.generation, written[next.generation := next], damaged)
  {
    hide Near;
  }

  lemma OwedRecovered(files: Files, past: map<nat, Stored>, last: nat, written: map<nat, Stored>, damaged: set<nat>, next: Stored)
    requires Owed(files, past, last, written, damaged) && last in damaged && next.generation >= last
    requires next.generation > last <==> Near(past, last, 1)
    ensures Owed(files[Active := Whole(next)], past, next.generation, written, damaged) && next.generation !in written
  {
    hide Near;
  }

  predicate Increasing(s: seq<nat>) { forall i, j | 0 <= i < j < |s| :: s[i] < s[j] }

  /** The last of what became active is the active generation. */
  predicate EndsWith(activated: seq<nat>, last: nat) {
    if activated == [] then last == 0 else last > 0 && activated[|activated| - 1] == last
  }

  class ConfigStore {
    const disk: Disk<Stored>
    const defaults: Config

    /** Every snapshot ever written; the generation that last became active, and all that did in order. */
    ghost var past: map<nat, Stored>
    ghost var last: nat
    ghost var activated: seq<nat>
    /** What each commit made active, and the generations damaged while active. */
    ghost var written: map<nat, Stored>
    ghost var damaged: set<nat>

    constructor (disk: Disk<Stored>, defaults: Config)
      requires disk.Valid() && disk.files == map[]
      ensures this.disk == disk && this.defaults == defaults && Valid()
      ensures past == map[] && last == 0 && activated == [] && written == map[] && damaged == {}
    {
      this.disk, this.defaults := disk, defaults;
      past, last, activated, written, damaged := map[], 0, [], map[], {};
    }

    ghost predicate Valid()
      reads this, disk
    {
      && disk.Valid() && Coherent(disk.files, past, last)
      && Owed(disk.files, past, last, written, damaged)
      && EndsWith(activated, last)
      && (ActiveOf(disk.files).Invalid? ==> last in damaged)
      && (forall g | g in damaged :: g <= last)
    }

    method ReadActive() returns (active: ActiveFile)
      requires Valid()
      ensures active == ActiveOf(disk.files)
      ensures active.Valid? ==> Holds(disk.files, active.stored) && active.stored.generation == last
      ensures active.Missing? <==> last == 0
    {
      if Active !in disk.files { return Missing; }
      match disk.files[Active]
      case Whole(stored) =>
        MigrationSettles(stored.config);
        return ActiveFile.Valid(Decoded(stored));
      case Partial => return Invalid;
    }

    /** The highest generation in the history, or the given one if that is higher. */
    method HighestGeneration(current: Option<Stored>) returns (highest: nat)
      ensures IsMax(Generations(disk.files) + (if current.Some? then {current.value.generation} else {}), highest)
    {
      var todo := Generations(disk.files);
      highest := if current.Some? then current.value.generation else 0;
      ghost var seen: set<nat> := if current.Some? then {current.value.generation} else {};
      while todo != {}
        invariant Generations(disk.files) + (if current.Some? then {current.value.generation} else {}) == seen + todo
        invariant IsMax(seen, highest)
        decreases todo
      {
        var g :| g in todo;
        if g > highest { highest := g; }
        todo, seen := todo - {g}, seen + {g};
      }
    }

    // ----- writing -----

    /** What was superseded or committed stays as it was, and the disk stays healthy. */
    twostate predicate Grows()
      reads this, disk
    {
      && (forall g | g in old(past) :: g in past && past[g] == old(past)[g])
      && (forall g | g in old(written) :: g in written && written[g] == old(written)[g])
      && old(last) <= last && old(damaged) <= damaged
      && (old(disk.Healthy()) ==> disk.Healthy())
    }

    /** The active file did not change, and no gap opened below it. */
    twostate predicate ActiveKept()
      reads this, disk
    {
      && last == old(last) && activated == old(activated) && written == old(written)
      && (Active in disk.files <==> Active in old(disk.files))
      && (Active in disk.files ==> disk.files[Active] == old(disk.files[Active]))
      && (Near(old(past), last, 1) ==> Near(past, last, 1))
    }

    /** A commit became active: the next generation, which is recorded as committed. */
    twostate predicate Became(new next: Stored)
      reads this, disk
    {
      && next.generation == last == old(last) + 1 && Holds(disk.files, next)
      && activated == old(activated) + [last] && written == old(written)[last := next]
      && Near(past, last, 1)
    }

    method EnsureDirectories() returns (r: Written)
      requires Valid()
      modifies disk
      ensures Valid() && disk.files == old(disk.files)
      ensures old(disk.Healthy()) ==> r.Done? && disk.Healthy()
    {
      hide Coherent, Owed, Near;
      var fate := disk.Call();
      return match fate case Works => Done case Fails => Failed case Crashes => Crashed;
    }

    /** Put the active generation into the history. */
    method WriteHistorySnapshot(current: Stored) returns (r: Written)
      requires Valid() && Holds(disk.files, current)
      modifies `past, disk
      ensures Grows() && Valid() && ActiveKept()
      ensures past == old(past) || past == old(past)[last := current]
      ensures r.Done? ==> past == old(past)[last := current]
      ensures old(disk.Healthy()) ==> r.Done?
    {
      hide Coherent, Owed, Near;
      ActiveIs(disk.files, past, last, current);
      r := EnsureDirectories();
      if !r.Done? { return r; }
      ghost var before := disk.files;
      SnapshotWritten(before, past, last, current);
      OwedSuperseded(before, past, last, written, damaged, current);
      ghost var renamed;
      r, renamed := disk.WriteAtomicFile(Snapshot(current.generation), Whole(current));
      ghost var files := if renamed then before[Snapshot(last) := Whole(current)] else before;
      ghost var kept := if renamed then past[last := current] else past;
      SameCoherent(files, disk.files, kept, last);
      SameOwed(files, disk.files, kept, last, written, damaged);
      past := kept;
    }

    /** Make a committed generation active. */
    method WriteActive(next: Stored) returns (r: Written)
      requires Valid() && Settled(next.config) && next.generation == last + 1 && next.generation !in past && Near(past, next.generation, 1)
      requires last == 0 || last in past
      modifies `last, `activated, `written, disk
      ensures Grows() && Valid() && past == old(past)
      ensures ActiveKept() || Became(next)
      ensures r.Done? ==> Became(next)
      ensures r.Failed? ==> ActiveKept()
      ensures old(disk.Healthy()) ==> r.Done?
    {
      hide Coherent, Owed, Near, Settled;
      ghost var before := disk.files;
      NearWider(past, next.generation);
      Activated(before, past, last, next);
      OwedCommitted(before, past, last, written, damaged, next);
      NotYetWritten(before, past, last, written, damaged, next.generation);
      ghost var renamed;
      r, renamed := disk.WriteAtomicFile(Active, Whole(next));
      if renamed {
        SameCoherent(before[Active := Whole(next)], disk.files, past, next.generation);
        SameOwed(before[Active := Whole(next)], disk.files, past, next.generation, written[next.generation := next], damaged);
        activated, last, written := activated + [next.generation], next.generation, written[next.generation := next];
      } else {
        SameCoherent(before, disk.files, past, last);
        SameOwed(before, disk.files, past, last, written, damaged);
      }
    }

    /** The snapshots beyond the newest 20. */
    method ExcessSnapshots() returns (excess: set<nat>)
      requires Valid() && last !in past
      ensures excess == Excess(Generations(disk.files))
      ensures forall g | g in excess :: |Between(past, g, last)| >= DEFAULT_HISTORY_RETENTION && g != last
    {
      hide Coherent, Owed, Near, Between;
      var names := Generations(disk.files);
      GenerationsInPast(disk.files, past, last);
      excess := Excess(names);
      forall g | g in excess ensures |Between(past, g, last)| >= DEFAULT_HISTORY_RETENTION {
        HigherAreBetween(names, past, last, g);
      }
    }

    /**
     Delete them; a deletion that fails ends the pruning. Nothing else is
     deleted, and when none fails only the newest remain, at most 20.
     */
    method PruneHistory() returns (r: Written)
      requires Valid() && last !in past
      modifies disk
      ensures Grows() && Valid() && ActiveKept()
      ensures old(disk.Healthy()) ==> r.Done?
      ensures forall p | p in old(disk.files) && p !in disk.files :: p.Snapshot? && p.generation in Excess(old(Generations(disk.files)))
      ensures forall p | p in disk.files :: p in old(disk.files) && disk.files[p] == old(disk.files)[p]
      ensures r.Done? ==> Generations(disk.files) == old(Generations(disk.files)) - Excess(old(Generations(disk.files)))
      ensures r.Done? ==> |Generations(disk.files)| <= DEFAULT_HISTORY_RETENTION
    {
      hide Coherent, Owed, Near, Between, Generations, Excess;
      ghost var before := disk.files;
      var excess := ExcessSnapshots();
      ghost var all := excess;
      r := Done;
      assert all - excess == {};
      while excess != {} && r.Done?
        invariant Grows() && Valid() && ActiveKept() && (old(disk.Healthy()) ==> r.Done?)
        invariant excess <= all && forall g | g in all :: |Between(past, g, last)| >= DEFAULT_HISTORY_RETENTION && g != last
        invariant Pruned(before, disk.files, all) && (r.Done? ==> Removed(disk.files, all - excess))
        decreases excess, if r.Done? then 1 else 0
      {
        var g :| g in excess;
        excess := excess - {g};
        PruneOne(disk.files, past, last, g);
        OwedPruned(disk.files, past, last, written, damaged, g);
        r := disk.Remove(Snapshot(g));
      }
      if r.Done? {
        GenerationsRemain(before, disk.files, all);
        NewestFew(Generations(before));
      }
    }

    /** The old generation into the history, the new one into the active file, then the pruning. */
    method CommitNumbered(next: Stored, current: Option<Stored>) returns (r: Outcome)
      requires Valid() && Settled(next.config)
      requires if current.Some? then Holds(disk.files, current.value) else Active !in disk.files
      requires next.generation == last + 1
      modifies this, disk
      ensures Grows() && Valid() && damaged == old(damaged)
      ensures ActiveKept() || (Became(next) && Superseded(old(disk.files), old(last), disk.files, last))
      ensures r.Committed? ==> r.generation == last && Became(next)
      ensures r.Refused? ==> ActiveKept()
      ensures r.Committed? || r.Refused? || r.Lost?
      ensures past == old(past) || (current.Some? && past == old(past)[old(last) := current.value])
      ensures Became(next) && current.Some? ==> past == old(past)[old(last) := current.value]
      ensures old(disk.Healthy()) ==> r.Committed?
    {
      hide Coherent, Owed, Near, Between, Excess, Generations;
      MissingIsFirst(disk.files, past, last);
      NextIsNew(disk.files, past, last, current);
      if current.Some? {
        ActiveIs(disk.files, past, last, current.value);
        var kept := WriteHistorySnapshot(current.value);
        if !kept.Done? { return if kept.Crashed? then Lost else Refused(PersistenceError); }
      }
      var written := WriteActive(next);
      if current.Some? { HistoryHolds(disk.files, past, last, old(last)); }
      if !written.Done? { return if written.Crashed? then Lost else Refused(PersistenceError); }
      var pruned := PruneHistory();
      if current.Some? { HistoryHolds(disk.files, past, last, old(last)); }
      if pruned.Crashed? { return Lost; }
      return Committed(next.generation);
    }

    /**
     Whatever step is the last: the active file is wholly the old generation
     or wholly the new one, and if it is the new one the old is in the history.
     */
    method CommitConfig(candidate: Config, current: Option<Stored>, savedAt: nat) returns (r: Outcome)
      requires Valid()
      requires if current.Some? then Holds(disk.files, current.value) else Active !in disk.files
      modifies this, disk
      ensures Grows() && Valid() && damaged == old(damaged)
      ensures ActiveKept() || (Became(Stored(last, savedAt, MigratePoolRuntimeDefaults(candidate))) &&
                               Superseded(old(disk.files), old(last), disk.files, last))
      ensures r.Committed? ==> r.generation == last && !ActiveKept()
      ensures r.Refused? ==> ActiveKept()
      ensures r.Committed? || r.Refused? || r.Lost?
      ensures past == old(past) || (current.Some? && past == old(past)[old(last) := current.value])
      ensures r.Committed? && current.Some? ==> past == old(past)[old(last) := current.value]
      ensures old(disk.Healthy()) ==> if old(last) < MAX_SAFE_INTEGER then r.Committed? else r.Refused?
    {
      hide Coherent, Owed, Near, Between, MigratePoolRuntimeDefaults, Generations, IsMax, Superseded;
      var highest := HighestGeneration(current);
      NumberedAbove(disk.files, past, last, current, highest);
      if highest >= MAX_SAFE_INTEGER { return Refused(PersistenceError); }
      MigrationSettles(candidate);
      var next := Stored(highest + 1, savedAt, MigratePoolRuntimeDefaults(candidate));
      var made := EnsureDirectories();
      if !made.Done? { return if made.Crashed? then Lost else Refused(PersistenceError); }
      r := CommitNumbered(next, current);
    }

    // ----- the operations -----

    /** Write the defaults (or a given configuration) only when no file is there. */
    method Initialize(config: Option<Config>, savedAt: nat) returns (r: Outcome)
      requires Valid()
      modifies this, disk
      ensures Grows() && Valid() && damaged == old(damaged)
      ensures ActiveKept() || Became(Stored(last, savedAt, MigratePoolRuntimeDefaults(config.GetOr(defaults))))
      ensures r.Committed? ==> r.generation == last && !ActiveKept()
      ensures r.Refused? || r.Unchanged? || old(last) != 0 ==> ActiveKept()
      ensures (r.Unchanged? <==> ActiveOf(old(disk.files)).Valid?) && (r.Unchanged? ==> r.generation == last)
      ensures old(disk.Healthy()) ==> (r.Committed? <==> old(last) == 0) && !r.Lost?
    {
      hide Coherent, Owed, Near, MigratePoolRuntimeDefaults;
      var active := ReadActive();
      if active.Valid? { return Unchanged(active.stored.generation); }
      if active.Invalid? { return Refused(RecoveryError); }
      MissingIsFirst(disk.files, past, last);
      r := CommitConfig(config.GetOr(defaults), None, savedAt);
    }

    /** A save commits only over the generation it expects, and always when that is the active one and nothing fails. */
    method Save(config: Config, expected: Option<nat>, savedAt: nat) returns (r: Outcome)
      requires Valid()
      modifies this, disk
      ensures Grows() && Valid() && damaged == old(damaged)
      ensures ActiveKept() || (Became(Stored(last, savedAt, MigratePoolRuntimeDefaults(config))) &&
                               Superseded(old(disk.files), old(last), disk.files, last))
      ensures r.Committed? ==> r.generation == last && !ActiveKept() && (expected.Some? ==> expected.value == old(last))
      ensures r.Refused? ==> ActiveKept()
      ensures r.Committed? || r.Refused? || r.Lost?
      ensures expected.Some? && expected.value != old(last) ==> r.Refused?
      ensures old(disk.Healthy()) ==>
        (r.Committed? <==> old(last) < MAX_SAFE_INTEGER && !ActiveOf(old(disk.files)).Invalid? && (expected.Some? ==> expected.value == old(last)))
      ensures old(disk.Healthy()) ==> !r.Lost?
    {
      hide Coherent, Owed, Near, MigratePoolRuntimeDefaults, Superseded;
      var active := ReadActive();
      var current := if active.Valid? then Some(active.stored) else None;
      var actual := if current.Some? then current.value.generation else 0;
      if expected.Some? && expected.value != actual { return Refused(ConflictError); }
      if active.Invalid? { return Refused(RecoveryError); }
      MissingIsFirst(disk.files, past, last);
      r := CommitConfig(config, current, savedAt);
    }

    /** The configuration an update starts from. */
    function Base(files: Files): Config {
      if ActiveOf(files).Valid? then ActiveOf(files).stored.config else MigratePoolRuntimeDefaults(defaults)
    }

    /** Apply a change to the latest configuration; one that changes nothing is not committed. */
    method Update(mutate: Config -> Config, savedAt: nat) returns (r: Outcome)
      requires Valid()
      modifies this, disk
      ensures Grows() && Valid() && damaged == old(damaged)
      ensures ActiveKept() || (Became(Stored(last, savedAt, MigratePoolRuntimeDefaults(mutate(Base(old(disk.files)))))) &&
                               Superseded(old(disk.files), old(last), disk.files, last))
      ensures r.Committed? ==> r.generation == last && !ActiveKept()
      ensures r.Unchanged? || r.Refused? ==> ActiveKept()
      ensures r.Unchanged? <==> ActiveOf(old(disk.files)).Valid? && MigratePoolRuntimeDefaults(mutate(Base(old(disk.files)))) == Base(old(disk.files))
      ensures r.Unchanged? ==> r.generation == last
      ensures old(disk.Healthy()) ==>
        (r.Committed? <==> old(last) < MAX_SAFE_INTEGER && !ActiveOf(old(disk.files)).Invalid? && !r.Unchanged?)
      ensures old(disk.Healthy()) ==> !r.Lost?
    {
      hide Coherent, Owed, Near, MigratePoolRuntimeDefaults, Superseded;
      var active := ReadActive();
      if active.Invalid? { return Refused(RecoveryError); }
      MissingIsFirst(disk.files, past, last);
      var current := if active.Valid? then Some(active.stored) else None;
      var base := if active.Valid? then active.stored.config else MigratePoolRuntimeDefaults(defaults);
      var candidate := MigratePoolRuntimeDefaults(mutate(base));
      if current.Some? && current.value.config == candidate { return Unchanged(current.value.generation); }
      MigrationIsIdempotent(mutate(base));
      r := CommitConfig(candidate, current, savedAt);
    }

    /** Commit the configuration of a generation from the history. */
    method Restore(generation: nat, expected: Option<nat>, savedAt: nat) returns (r: Outcome)
      requires Valid()
      modifies this, disk
      ensures Grows() && Valid() && damaged == old(damaged)
      ensures ActiveKept() || (Superseded(old(disk.files), old(last), disk.files, last) && generation in old(past) &&
                               Became(Stored(last, savedAt, old(past)[generation].config)))
      ensures r.Committed? ==> r.generation == last && !ActiveKept()
      ensures r.Refused? ==> ActiveKept()
      ensures r.Committed? || r.Refused? || r.Lost?
      ensures r.Committed? ==> ActiveOf(old(disk.files)).Valid? && past == old(past)[old(last) := ActiveOf(old(disk.files)).stored]
      ensures old(disk.Healthy()) ==>
        (r.Committed? <==> old(last) < MAX_SAFE_INTEGER && ActiveOf(old(disk.files)).Valid? &&
                           (expected.Some? ==> expected.value == old(last)) && Snapshot(generation) in old(disk.files))
      ensures old(disk.Healthy()) ==> !r.Lost?
    {
      hide Coherent, Owed, Near, MigratePoolRuntimeDefaults, Superseded;
      var active := ReadActive();
      if !active.Valid? { return Refused(RecoveryError); }
      if expected.Some? && expected.value != active.stored.generation { return Refused(ConflictError); }
      var target := FindSnapshot(generation);
      if target.None? { return Refused(RecoveryError); }
      r := CommitConfig(target.value.config, Some(active.stored), savedAt);
    }

    /** The readable snapshot of a generation. */
    method FindSnapshot(generation: nat) returns (found: Option<Stored>)
      requires Valid()
      ensures found.Some? <==> Snapshot(generation) in disk.files
      ensures found.Some? ==> generation in past && found.value == past[generation] && found.value.generation == generation
      ensures found.Some? ==> MigratePoolRuntimeDefaults(found.value.config) == found.value.config
    {
      hide Coherent, Owed, Near, MigratePoolRuntimeDefaults;
      if Snapshot(generation) !in disk.files { return None; }
      SnapshotIs(disk.files, past, last, generation);
      match disk.files[Snapshot(generation)]
      case Whole(stored) => return if stored.generation == generation then Some(Decoded(stored)) else None;
      case Partial => return None;
    }

    // ----- damage and recovery -----

    /** Something else spoils the active file. */
    method DamageActive()
      requires Valid()
      modifies `damaged, disk
      ensures Grows() && Valid() && damaged == old(damaged) + (if last > 0 then {last} else {})
      ensures ActiveOf(disk.files) == if last == 0 then Missing else Invalid
    {
      hide Owed, Near;
      ghost var before := disk.files;
      disk.Damage(Active);
      Damaged(before, past, last);
      OwedDamaged(before, past, last, written, damaged);
      if last > 0 { damaged := damaged + {last}; }
    }

    /** The newest readable generation. */
    method NewestSnapshot() returns (newest: Option<Stored>)
      requires Valid()
      ensures newest.None? <==> past == map[]
      ensures newest.Some? ==> IsNewest(past, newest.value.generation) && newest.value == past[newest.value.generation]
    {
      hide Coherent, Owed, Near, Generations;
      var highest := HighestGeneration(None);
      GenerationsKnown(disk.files, past, last);
      NewestKnown(disk.files, past, last, highest);
      newest := FindSnapshot(highest);
    }

    /** A recovery became active: two above the newest superseded generation, and nothing is recorded as committed. */
    twostate predicate Recovered(savedAt: nat)
      reads this, disk
    {
      && last >= 2 && IsNewest(past, last - 2) && Holds(disk.files, Stored(last, savedAt, past[last - 2].config))
      && activated == old(activated) + [last] && written == old(written) && past == old(past)
      && (last > old(last) <==> Near(past, old(last), 1)) && !Near(past, last, 1) && last <= old(last) + 2
    }

    /**
     Repair a damaged active file from the newest snapshot, leaving a gap in
     the numbering. The generation is newer than the damaged one exactly when
     that one was within one of the history; otherwise it is the same again.
     */
    method Recover(savedAt: nat) returns (r: Outcome)
      requires Valid()
      modifies this, disk
      ensures Grows() && Valid() && damaged == old(damaged)
      ensures ActiveKept() || Recovered(savedAt)
      ensures !ActiveOf(old(disk.files)).Invalid? ==> ActiveKept() && r == Unchanged(old(last))
      ensures r.Committed? ==> r.generation == last && Recovered(savedAt)
      ensures r.Refused? || r.Unchanged? ==> ActiveKept()
      ensures old(disk.Healthy()) && ActiveOf(old(disk.files)).Invalid? && old(last) + 2 < MAX_SAFE_INTEGER ==>
        (r.Committed? <==> past != map[])
      ensures old(disk.Healthy()) ==> !r.Lost?
    {
      hide Coherent, Owed, Near, MigratePoolRuntimeDefaults;
      var active := ReadActive();
      if !active.Invalid? { return Unchanged(if active.Valid? then active.stored.generation else 0); }
      var quarantined := Quarantine();
      if !quarantined.Done? { return if quarantined.Crashed? then Lost else Refused(RecoveryError); }
      var newest := NewestSnapshot();
      if newest.None? { return Refused(RecoveryError); }
      NewestBelow(disk.files, past, last, newest.value.generation);
      if newest.value.generation >= MAX_SAFE_INTEGER { return Refused(PersistenceError); }
      var next := Stored(newest.value.generation + 2, savedAt, MigratePoolRuntimeDefaults(newest.value.config));
      var made := EnsureDirectories();
      if !made.Done? { return if made.Crashed? then Lost else Refused(RecoveryError); }
      r := WriteRecovered(next, newest.value);
    }

    /** Copy the damaged bytes aside. */
    method Quarantine() returns (r: Written)
      requires Valid()
      modifies disk
      ensures Grows() && Valid() && ActiveKept()
      ensures old(disk.Healthy()) ==> r.Done?
    {
      hide Owed, Near;
      ghost var before := disk.files;
      var id := disk.calls;
      ghost var renamed;
      r, renamed := disk.WriteAtomicFile(Quarantined(id), Partial);
      QuarantinedKeeps(before, past, last, id);
      OwedQuarantined(before, past, last, written, damaged, id);
      ghost var files := if renamed then before[Quarantined(id) := Partial] else before;
      SameCoherent(files, disk.files, past, last);
      SameOwed(files, disk.files, past, last, written, damaged);
    }

    method WriteRecovered(next: Stored, newest: Stored) returns (r: Outcome)
      requires Valid() && IsNewest(past, newest.generation) && newest == past[newest.generation] && last in damaged
      requires next == Stored(newest.generation + 2, next.savedAt, MigratePoolRuntimeDefaults(newest.config))
      modifies this, disk
      ensures Grows() && Valid() && damaged == old(damaged)
      ensures ActiveKept() || Recovered(next.savedAt)
      ensures r.Committed? ==> r.generation == last && Recovered(next.savedAt)
      ensures r.Refused? ==> ActiveKept()
      ensures r.Committed? || r.Refused? || r.Lost?
      ensures old(disk.Healthy()) ==> r.Committed?
    {
      hide Coherent, Owed, Near, MigratePoolRuntimeDefaults, Settled;
      ghost var before := disk.files;
      MigrationSettles(newest.config);
      RecoveredAbove(before, past, last, newest.generation);
      NewestBelow(before, past, last, newest.generation);
      SnapshotSettled(before, past, last, newest.generation);
      Activated(before, past, last, next);
      OwedRecovered(before, past, last, written, damaged, next);
      var done;
      ghost var renamed;
      done, renamed := disk.WriteAtomicFile(Active, Whole(next));
      ghost var files := if renamed then before[Active := Whole(next)] else before;
      ghost var top := if renamed then next.generation else last;
      SameCoherent(files, disk.files, past, top);
      SameOwed(files, disk.files, past, top, written, damaged);
      if renamed { activated, last := activated + [next.generation], next.generation; }
      return match done case Done => Committed(next.generation) case Failed => Refused(RecoveryError) case Crashed => Lost;
    }

    // ----- over whole runs -----

    /**
     Each of the 20 superseded generations before the active one is in the
     history, and so is the one a commit has just replaced.
     */
    lemma Restorable(g: nat)
      requires Valid() && g in past && (g == last || |Between(past, g, last)| < DEFAULT_HISTORY_RETENTION)
      ensures Snapshot(g) in disk.files && disk.files[Snapshot(g)] == Whole(past[g])
      ensures past[g].generation == g && MigratePoolRuntimeDefaults(past[g].config) == past[g].config
      ensures g in written ==> past[g] == written[g]
    {
      hide Near, MigratePoolRuntimeDefaults, Settled;
      SnapshotIs(disk.files, past, last, g);
    }

    /** A committed generation that is no longer active was superseded, unless it was damaged first. */
    lemma CommittedIsKept(g: nat)
      requires Valid() && g in written && g != last && g !in damaged
      ensures g in past && past[g] == written[g]
    {
      hide Near, Coherent;
    }

    /** Restoring the generation a restore replaced brings the old configuration back, and on a healthy disk nothing stops it. */
    method RestoreAndUndo(generation: nat, savedAt: nat, undoneAt: nat) returns (first: Outcome, second: Outcome)
      requires Valid()
      modifies this, disk
      ensures Grows() && Valid()
      ensures second.Committed? ==> ActiveOf(old(disk.files)).Valid?
      ensures second.Committed? ==> Holds(disk.files, Stored(last, undoneAt, ActiveOf(old(disk.files)).stored.config))
      ensures old(disk.Healthy()) && old(last) + 1 < MAX_SAFE_INTEGER && ActiveOf(old(disk.files)).Valid? ==>
        (Snapshot(generation) in old(disk.files) ==> first.Committed? && second.Committed?)
    {
      hide Coherent, Owed, Near, MigratePoolRuntimeDefaults;
      var active := ReadActive();
      first := Restore(generation, None, savedAt);
      second := Refused(RecoveryError);
      if first.Committed? && active.Valid? {
        second := Restore(active.stored.generation, None, undoneAt);
      }
    }

    /** What one operation may do to what is active, and what its outcome says about it. */
    twostate predicate Effect(op: ConfigOp, new r: Outcome)
      reads this, disk
    {
      && (if activated == old(activated) then last == old(last) else activated == old(activated) + [last])
      && (r.Committed? ==> activated != old(activated) && r.generation == last)
      && (r.Refused? || r.Unchanged? ==> activated == old(activated))
      && (activated != old(activated) && (!op.DoRecover? || Near(old(past), old(last), 1)) ==> last > old(last))
      && (Near(old(past), old(last), 1) && (!op.DoRecover? || activated == old(activated)) ==> Near(past, last, 1))
      && (!op.DoRecover? && r.Committed? ==> Near(past, last, 1))
      && (op.DoSave? && r.Committed? && op.expected.Some? ==> op.expected.value == old(last) < last)
      && (if op.DoDamage? then last == old(last) && damaged <= old(damaged) + {last} else damaged == old(damaged))
      && (r.Committed? || (!op.DoDamage? && ActiveOf(old(disk.files)).Valid?) ==> ActiveOf(disk.files).Valid?)
      && (activated != old(activated) ==> last <= old(last) + Step(op))
      && (old(disk.Healthy()) ==> !r.Lost?)
    }

    method Perform(op: ConfigOp) returns (r: Outcome)
      requires Valid()
      modifies this, disk
      ensures Grows() && Valid() && Effect(op, r)
    {
      hide Coherent, Owed, Near, MigratePoolRuntimeDefaults, Superseded;
      match op
      case DoInitialize(config, savedAt) => r := Initialize(config, savedAt);
      case DoSave(config, expected, savedAt) => r := Save(config, expected, savedAt);
      case DoUpdate(mutate, savedAt) => r := Update(mutate, savedAt);
      case DoRestore(generation, expected, savedAt) => r := Restore(generation, expected, savedAt);
      case DoRecover(savedAt) => r := Recover(savedAt);
      case DoDamage =>
        DamageActive();
        r := Unchanged(0);
    }

    /**
     Over any run of operations, failures, crashes and damage that starts
     without a gap: if a commit lies between any two recoveries that may have
     succeeded, the generations that become active strictly increase. And
     whatever happens, two saves that expect one generation never both commit.
     */
    method PerformAll(ops: seq<ConfigOp>) returns (outcomes: seq<Outcome>)
      requires Valid()
      modifies this, disk
      ensures Grows() && Valid() && |outcomes| == |ops|
      ensures Near(old(past), old(last), 1) && Spaced(ops, outcomes) && Increasing(old(activated)) ==> Increasing(activated)
      ensures Near(old(past), old(last), 1) && Spaced(ops, outcomes) ==> CommitsIncrease(outcomes)
      ensures SavesApart(ops, outcomes)
      ensures ReplacedFirst(ops, outcomes) ==> last > old(last) && (old(last) in damaged ==> old(last) in old(damaged))
      ensures ActiveOf(old(disk.files)).Valid? && Repaired(ops, outcomes) ==> ActiveOf(disk.files).Valid?
      ensures old(disk.Healthy()) ==> last <= old(last) + Advance(ops, outcomes)
    {
      hide Valid, Near, Increasing, Spaced, CommitsIncrease, SavesApart, ReplacedFirst, Repaired, Advance, Undamaged;
      outcomes := [];
      NothingRun(ops);
      for i := 0 to |ops|
        invariant |outcomes| == i && Grows() && Valid()
        invariant Near(old(past), old(last), 1) && Spaced(ops[..i], outcomes) && !Near(past, last, 1) ==> RecoveryOpen(ops[..i], outcomes)
        invariant Near(old(past), old(last), 1) && Spaced(ops[..i], outcomes) && Increasing(old(activated)) ==> Increasing(activated)
        invariant Near(old(past), old(last), 1) && Spaced(ops[..i], outcomes) ==> CommitsIncrease(outcomes)
        invariant CommitsBelow(outcomes, last) && SavesBelow(ops[..i], outcomes, last) && SavesApart(ops[..i], outcomes)
        invariant Undamaged(ops[..i]) ==> damaged == old(damaged)
        invariant ReplacedFirst(ops[..i], outcomes) ==> last > old(last) && (old(last) in damaged ==> old(last) in old(damaged))
        invariant ActiveOf(old(disk.files)).Valid? && Repaired(ops[..i], outcomes) ==> ActiveOf(disk.files).Valid?
        invariant old(disk.Healthy()) ==> last <= old(last) + Advance(ops[..i], outcomes)
      {
        ghost var before, was := last, activated;
        ghost var near := Near(past, last, 1);
        EndsWithLast();
        var r := Perform(ops[i]);
        assert ops[..i + 1] == ops[..i] + [ops[i]];
        OneMoreOutcome(ops[..i], outcomes, ops[i], r, before, last, near, activated != was);
        OneMoreStep(ops[..i], outcomes, ops[i], r);
        OneMoreActivated(was, before, last);
        outcomes := outcomes + [r];
      }
      assert ops[..|ops|] == ops;
    }

    /** Of two saves that expect one generation, with any run between them, at most one commits. */
    method SaveRunSave(first: Config, second: Config, expected: nat, savedAt: nat, ops: seq<ConfigOp>)
      returns (one: Outcome, outcomes: seq<Outcome>, other: Outcome)
      requires Valid()
      modifies this, disk
      ensures Grows() && Valid()
      ensures !(one.Committed? && other.Committed?)
    {
      hide Valid, Near, Increasing, Spaced, CommitsIncrease, SavesApart;
      one := Save(first, Some(expected), savedAt);
      outcomes := PerformAll(ops);
      other := Save(second, Some(expected), savedAt);
    }

    /**
     What is saved can be restored. After a save and any run, a restore of the
     saved generation that commits brings back exactly the configuration that
     was saved; and on a healthy disk it does commit, if a commit replaced the
     saved generation before any damage, the last damage was repaired, and the
     run moved at most 20 generations on.
     */
    method SaveRunRestore(config: Config, expected: Option<nat>, savedAt: nat, ops: seq<ConfigOp>, restoredAt: nat)
      returns (saved: Outcome, outcomes: seq<Outcome>, restored: Outcome)
      requires Valid()
      modifies this, disk
      ensures Grows() && Valid() && |outcomes| == |ops|
      ensures restored.Committed? ==>
        saved.Committed? && Holds(disk.files, Stored(last, restoredAt, MigratePoolRuntimeDefaults(config)))
      ensures old(disk.Healthy()) && saved.Committed? && old(last) + 21 < MAX_SAFE_INTEGER &&
              ReplacedFirst(ops, outcomes) && Repaired(ops, outcomes) && Advance(ops, outcomes) <= DEFAULT_HISTORY_RETENTION ==>
        restored.Committed?
    {
      hide Coherent, Owed, Near, Increasing, Spaced, CommitsIncrease, SavesApart, MigratePoolRuntimeDefaults, Between;
      hide ReplacedFirst, Repaired, Advance;
      saved := Save(config, expected, savedAt);
      ghost var g := last;
      outcomes := PerformAll(ops);
      restored := Refused(RecoveryError);
      if saved.Committed? {
        if g < last && g !in damaged {
          FewBetween(past, g, last);
          CommittedIsKept(g);
        }
        if g in past && |Between(past, g, last)| < DEFAULT_HISTORY_RETENTION { Restorable(g); }
        if g in past { KeptAsCommitted(g); }
        restored := Restore(saved.generation, None, restoredAt);
      }
    }

    lemma KeptAsCommitted(g: nat)
      requires Valid() && g in written && g in past
      ensures past[g] == written[g]
    {
      hide Near, Coherent;
    }

    lemma EndsWithLast()
      requires Valid()
      ensures EndsWith(activated, last)
    {}
  }

  /** From an empty directory no more is asked: with its recoveries spaced, a run only ever moves the generation up. */
  method RunFromEmpty(disk: Disk<Stored>, defaults: Config, ops: seq<ConfigOp>) returns (store: ConfigStore, outcomes: seq<Outcome>)
    requires disk.Valid() && disk.files == map[]
    modifies disk
    ensures fresh(store) && store.disk == disk && store.Valid() && |outcomes| == |ops|
    ensures Spaced(ops, outcomes) ==> Increasing(store.activated) && CommitsIncrease(outcomes)
    ensures SavesApart(ops, outcomes)
  {
    hide Coherent, Owed, Spaced, CommitsIncrease, SavesApart;
    store := new ConfigStore(disk, defaults);
    outcomes := store.PerformAll(ops);
  }

  datatype ConfigOp =
    | DoInitialize(config: Option<Config>, savedAt: nat)
    | DoSave(saved: Config, expected: Option<nat>, savedAt: nat)
    | DoUpdate(mutate: Config -> Config, savedAt: nat)
    | DoRestore(generation: nat, expected: Option<nat>, savedAt: nat)
    | DoRecover(savedAt: nat)
    | DoDamage

  // ----- what the outcomes of a run say -----

  /** A recovery whose generation became active, or may have before a crash. */
  predicate MayRecover(op: ConfigOp, r: Outcome) { op.DoRecover? && (r.Committed? || r.Lost?) }

  predicate Commits(op: ConfigOp, r: Outcome) { !op.DoRecover? && r.Committed? }

  /** A commit lies between any two such recoveries. */
  ghost predicate Spaced(ops: seq<ConfigOp>, outcomes: seq<Outcome>)
    requires |ops| == |outcomes|
  {
    forall i, j | 0 <= i < j < |ops| :: MayRecover(ops[i], outcomes[i]) && MayRecover(ops[j], outcomes[j]) ==> CommitBetween(ops, outcomes, i, j)
  }

  ghost predicate CommitBetween(ops: seq<ConfigOp>, outcomes: seq<Outcome>, i: nat, j: nat)
    requires i <= j <= |ops| == |outcomes|
  {
    exists k :: i < k < j && Commits(ops[k], outcomes[k])
  }

  /** A recovery that no commit has followed. */
  ghost predicate RecoveryOpen(ops: seq<ConfigOp>, outcomes: seq<Outcome>)
    requires |ops| == |outcomes|
  {
    exists i :: 0 <= i < |ops| && MayRecover(ops[i], outcomes[i]) && !CommitBetween(ops, outcomes, i, |ops|)
  }

  predicate CommitsIncrease(outcomes: seq<Outcome>) {
    forall i, j | 0 <= i < j < |outcomes| ::
      outcomes[i].Committed? && outcomes[j].Committed? ==> outcomes[i].generation < outcomes[j].generation
  }

  predicate CommitsBelow(outcomes: seq<Outcome>, last: nat) {
    forall i | 0 <= i < |outcomes| :: outcomes[i].Committed? ==> outcomes[i].generation <= last
  }

  predicate ExpectingSave(op: ConfigOp, r: Outcome) { op.DoSave? && op.expected.Some? && r.Committed? }

  /** Two saves that committed did not expect one generation. */
  predicate SavesApart(ops: seq<ConfigOp>, outcomes: seq<Outcome>)
    requires |ops| == |outcomes|
  {
    forall i, j | 0 <= i < j < |ops| ::
      ExpectingSave(ops[i], outcomes[i]) && ExpectingSave(ops[j], outcomes[j]) ==> ops[i].expected.value < ops[j].expected.value
  }

  predicate SavesBelow(ops: seq<ConfigOp>, outcomes: seq<Outcome>, last: nat)
    requires |ops| == |outcomes|
  {
    forall i | 0 <= i < |ops| :: ExpectingSave(ops[i], outcomes[i]) ==> ops[i].expected.value < last
  }

  predicate Undamaged(ops: seq<ConfigOp>) { forall i | 0 <= i < |ops| :: !ops[i].DoDamage? }

  /** A commit comes before any damage. */
  ghost predicate ReplacedFirst(ops: seq<ConfigOp>, outcomes: seq<Outcome>)
    requires |ops| == |outcomes|
  {
    exists k :: 0 <= k < |ops| && Commits(ops[k], outcomes[k]) && Undamaged(ops[..k])
  }

  /** After every damage something is committed again. */
  ghost predicate Repaired(ops: seq<ConfigOp>, outcomes: seq<Outcome>)
    requires |ops| == |outcomes|
  {
    forall i | 0 <= i < |ops| && ops[i].DoDamage? :: exists k :: i < k < |ops| && outcomes[k].Committed?
  }

  /** How far an operation that commits may move the generation on. */
  function Step(op: ConfigOp): nat { if op.DoRecover? then 2 else 1 }

  function Advance(ops: seq<ConfigOp>, outcomes: seq<Outcome>): nat
    requires |ops| == |outcomes|
  {
    var n := |ops|;
    if n == 0 then 0 else Advance(ops[..n - 1], outcomes[..n - 1]) + (if outcomes[n - 1].Committed? then Step(ops[n - 1]) else 0)
  }

  lemma OneMoreStep(ops: seq<ConfigOp>, outcomes: seq<Outcome>, op: ConfigOp, r: Outcome)
    requires |ops| == |outcomes|
    ensures Undamaged(ops + [op]) <==> Undamaged(ops) && !op.DoDamage?
    ensures ReplacedFirst(ops + [op], outcomes + [r]) ==> ReplacedFirst(ops, outcomes) || (Commits(op, r) && Undamaged(ops))
    ensures Repaired(ops + [op], outcomes + [r]) && !r.Committed? ==> !op.DoDamage? && Repaired(ops, outcomes)
    ensures Advance(ops + [op], outcomes + [r]) == Advance(ops, outcomes) + (if r.Committed? then Step(op) else 0)
  {
    var n := |ops|;
    var allOps, all := ops + [op], outcomes + [r];
    assert allOps[..n] == ops && all[..n] == outcomes && allOps[n] == op && all[n] == r;
    assert forall i | 0 <= i < n :: allOps[i] == ops[i] && all[i] == outcomes[i];
    if ReplacedFirst(allOps, all) {
      var k :| 0 <= k < n + 1 && Commits(allOps[k], all[k]) && Undamaged(allOps[..k]);
      assert k < n ==> allOps[..k] == ops[..k];
    }
    if Repaired(allOps, all) && !r.Committed? { StillRepaired(ops, outcomes, op, r); }
  }

  lemma StillRepaired(ops: seq<ConfigOp>, outcomes: seq<Outcome>, op: ConfigOp, r: Outcome)
    requires |ops| == |outcomes| && Repaired(ops + [op], outcomes + [r]) && !r.Committed?
    ensures !op.DoDamage? && Repaired(ops, outcomes)
  {
    var n := |ops|;
    var allOps, all := ops + [op], outcomes + [r];
    assert allOps[n] == op;
    forall i | 0 <= i < n && ops[i].DoDamage? ensures exists k :: i < k < n && outcomes[k].Committed? {
      assert allOps[i].DoDamage?;
      var k :| i < k < n + 1 && all[k].Committed?;
      assert outcomes[k].Committed?;
    }
  }

  lemma {:induction false} FewBetween(past: map<nat, Stored>, g: nat, top: nat)
    requires g < top
    ensures |Between(past, g, top)| < top - g
    decreases top
  {
    if top == g + 1 {
      assert Between(past, g, top) == {};
    } else {
      FewBetween(past, g, top - 1);
      assert Between(past, g, top) <= Between(past, g, top - 1) + {top - 1};
      SmallerPart(Between(past, g, top), Between(past, g, top - 1) + {top - 1});
    }
  }

  lemma NothingRun(ops: seq<ConfigOp>)
    ensures Spaced(ops[..0], []) && CommitsIncrease([]) && SavesApart(ops[..0], []) && !ReplacedFirst(ops[..0], [])
  {}

  lemma OneMoreActivated(activated: seq<nat>, last: nat, next: nat)
    requires EndsWith(activated, last)
    ensures Increasing(activated) && next > last ==> Increasing(activated + [next])
  {
    if activated != [] && Increasing(activated) && next > last {
      var longer := activated + [next];
      forall i, j | 0 <= i < j < |longer| ensures longer[i] < longer[j] {
        if j == |activated| && i < |activated| - 1 { assert activated[i] < activated[|activated| - 1]; }
      }
    }
  }

  /** One more operation, from what its effect says about the generations before and after it. */
  lemma OneMoreOutcome(ops: seq<ConfigOp>, outcomes: seq<Outcome>, op: ConfigOp, r: Outcome, before: nat, after: nat, near: bool, changed: bool)
    requires |ops| == |outcomes| && before <= after && CommitsBelow(outcomes, before) && SavesBelow(ops, outcomes, before)
    requires r.Committed? ==> changed && r.generation == after
    requires op.DoRecover? && changed ==> r.Committed? || r.Lost?
    requires ExpectingSave(op, r) ==> op.expected.value == before < after
    ensures CommitsBelow(outcomes + [r], after) && SavesBelow(ops + [op], outcomes + [r], after)
    ensures SavesApart(ops, outcomes) ==> SavesApart(ops + [op], outcomes + [r])
    ensures CommitsIncrease(outcomes) && (changed ==> after > before) ==> CommitsIncrease(outcomes + [r])
    ensures Spaced(ops + [op], outcomes + [r]) ==> Spaced(ops, outcomes)
    ensures Spaced(ops + [op], outcomes + [r]) && RecoveryOpen(ops, outcomes) ==> !MayRecover(op, r)
    ensures RecoveryOpen(ops, outcomes) && !Commits(op, r) ==> RecoveryOpen(ops + [op], outcomes + [r])
    ensures MayRecover(op, r) ==> RecoveryOpen(ops + [op], outcomes + [r])
  {
    StillBelow(ops, outcomes, op, r, before, after, changed);
    StillSpaced(ops, outcomes, op, r);
  }

  lemma StillBelow(ops: seq<ConfigOp>, outcomes: seq<Outcome>, op: ConfigOp, r: Outcome, before: nat, after: nat, changed: bool)
    requires |ops| == |outcomes| && before <= after && CommitsBelow(outcomes, before) && SavesBelow(ops, outcomes, before)
    requires r.Committed? ==> changed && r.generation == after
    requires ExpectingSave(op, r) ==> op.expected.value == before < after
    ensures CommitsBelow(outcomes + [r], after) && SavesBelow(ops + [op], outcomes + [r], after)
    ensures SavesApart(ops, outcomes) ==> SavesApart(ops + [op], outcomes + [r])
    ensures CommitsIncrease(outcomes) && (changed ==> after > before) ==> CommitsIncrease(outcomes + [r])
  {
    var allOps, all := ops + [op], outcomes + [r];
    assert forall i | 0 <= i < |ops| :: allOps[i] == ops[i] && all[i] == outcomes[i];
  }

  lemma StillSpaced(ops: seq<ConfigOp>, outcomes: seq<Outcome>, op: ConfigOp, r: Outcome)
    requires |ops| == |outcomes|
    ensures Spaced(ops + [op], outcomes + [r]) ==> Spaced(ops, outcomes)
    ensures Spaced(ops + [op], outcomes + [r]) && RecoveryOpen(ops, outcomes) ==> !MayRecover(op, r)
    ensures RecoveryOpen(ops, outcomes) && !Commits(op, r) ==> RecoveryOpen(ops + [op], outcomes + [r])
    ensures MayRecover(op, r) ==> RecoveryOpen(ops + [op], outcomes + [r])
  {
    var n := |ops|;
    var allOps, all := ops + [op], outcomes + [r];
    assert forall i | 0 <= i < n :: allOps[i] == ops[i] && all[i] == outcomes[i];
    forall i, j | 0 <= i <= j <= n ensures CommitBetween(allOps, all, i, j) <==> CommitBetween(ops, outcomes, i, j) {
      SameBetween(ops, outcomes, op, r, i, j);
    }
    if RecoveryOpen(ops, outcomes) {
      var i :| 0 <= i < n && MayRecover(ops[i], outcomes[i]) && !CommitBetween(ops, outcomes, i, n);
      assert MayRecover(allOps[i], all[i]);
      if !Commits(op, r) { OneFurther(allOps, all, i, n); }
    }
    if MayRecover(op, r) { assert MayRecover(allOps[n], all[n]) && !CommitBetween(allOps, all, n, n + 1); }
  }

  lemma SameBetween(ops: seq<ConfigOp>, outcomes: seq<Outcome>, op: ConfigOp, r: Outcome, i: nat, j: nat)
    requires |ops| == |outcomes| && i <= j <= |ops|
    ensures CommitBetween(ops + [op], outcomes + [r], i, j) <==> CommitBetween(ops, outcomes, i, j)
  {
    var allOps, all := ops + [op], outcomes + [r];
    assert forall k | 0 <= k < |ops| :: allOps[k] == ops[k] && all[k] == outcomes[k];
    if CommitBetween(ops, outcomes, i, j) {
      var k :| i < k < j && Commits(ops[k], outcomes[k]);
      assert Commits(allOps[k], all[k]);
    }
  }

  lemma OneFurther(ops: seq<ConfigOp>, outcomes: seq<Outcome>, i: nat, j: nat)
    requires i <= j < |ops| == |outcomes| && !Commits(ops[j], outcomes[j])
    ensures CommitBetween(ops, outcomes, i, j + 1) ==> CommitBetween(ops, outcomes, i, j)
  {
    if CommitBetween(ops, outcomes, i, j + 1) {
      var k :| i < k < j + 1 && Commits(ops[k], outcomes[k]);
      assert k != j;
    }
  }

  lemma OwedDamaged(files: Files, past: map<nat, Stored>, last: nat, written: map<nat, Stored>, damaged: set<nat>)
    requires Owed(files, past, last, written, damaged)
    ensures var after := if Active in files then files[Active := Partial] else files;
      Owed(after, past, last, written, damaged) && Owed(after, past, last, written, damaged + {last})
  {
    hide Near;
  }

  lemma OwedQuarantined(files: Files, past: map<nat, Stored>, last: nat, written: map<nat, Stored>, damaged: set<nat>, id: nat)
    requires Owed(files, past, last, written, damaged)
    ensures Owed(files[Quarantined(id) := Partial], past, last, written, damaged)
  {
    hide Near;
  }

  lemma NewestBelow(files: Files, past: map<nat, Stored>, last: nat, g: nat)
    requires Coherent(files, past, last) && g in past
    ensures g <= last
  {
    hide Near, Settled;
  }

  lemma NotYetWritten(files: Files, past: map<nat, Stored>, last: nat, written: map<nat, Stored>, damaged: set<nat>, g: nat)
    requires Owed(files, past, last, written, damaged) && g > last
    ensures g !in written
  {}

  /** Snapshots with 20 or more above them. */
  function Excess(names: set<nat>): set<nat> { set g | g in names && |Higher(names, g)| >= DEFAULT_HISTORY_RETENTION }

  /** Only snapshots of `gone` are missing. */
  predicate Pruned(before: Files, after: Files, gone: set<nat>) {
    && (forall p | p in after :: p in before && after[p] == before[p])
    && (forall p | p in before :: p in after || (p.Snapshot? && p.generation in gone))
  }

  predicate Removed(files: Files, gone: set<nat>) { forall g | g in gone :: Snapshot(g) !in files }

  lemma GenerationsRemain(before: Files, after: Files, gone: set<nat>)
    requires Pruned(before, after, gone) && Removed(after, gone)
    ensures Generations(after) == Generations(before) - gone
  {
    forall g: nat ensures g in Generations(after) <==> g in Generations(before) - gone {
      GenerationIn(before, g);
      GenerationIn(after, g);
    }
  }

  lemma GenerationIn(files: Files, g: nat)
    ensures g in Generations(files) <==>
      Snapshot(g) in files && files[Snapshot(g)].Whole? && files[Snapshot(g)].value.generation == g
  {
    if Snapshot(g) in files && files[Snapshot(g)].Whole? && files[Snapshot(g)].value.generation == g {
      assert Snapshot(g).generation in Generations(files);
    }
  }

  predicate IsLeast(s: set<nat>, m: nat) { m in s && forall x | x in s :: m <= x }

  lemma {:induction false} HasLeast(s: set<nat>)
    requires s != {}
    ensures exists m :: IsLeast(s, m)
    decreases s
  {
    var x :| x in s;
    if s - {x} == {} {
      forall y | y in s ensures y == x { assert y !in s - {x}; }
      assert IsLeast(s, x);
    } else {
      HasLeast(s - {x});
      var m :| IsLeast(s - {x}, m);
      var least := if x < m then x else m;
      forall y | y in s ensures least <= y { assert y == x || y in s - {x}; }
      assert IsLeast(s, least);
    }
  }

  lemma SmallerPart<T>(a: set<T>, b: set<T>)
    requires a <= b
    ensures |a| <= |b|
  {
    assert b == a + (b - a);
  }

  /** What is left without the excess is at most 20. */
  lemma NewestFew(names: set<nat>)
    ensures |names - Excess(names)| <= DEFAULT_HISTORY_RETENTION
  {
    var few := names - Excess(names);
    if few != {} {
      HasLeast(few);
      var m :| IsLeast(few, m);
      SmallerPart(few - {m}, Higher(names, m));
      assert |few - {m}| == |few| - 1;
    }
  }

  lemma OwedPruned(files: Files, past: map<nat, Stored>, last: nat, written: map<nat, Stored>, damaged: set<nat>, g: nat)
    requires Owed(files, past, last, written, damaged)
    ensures Owed(files - {Snapshot(g)}, past, last, written, damaged)
  {
    hide Near;
  }

  predicate IsNewest(past: map<nat, Stored>, g: nat) { g in past && forall h | h in past :: h <= g }

  lemma Damaged(files: Files, past: map<nat, Stored>, last: nat)
    requires Coherent(files, past, last)
    ensures Coherent(if Active in files then files[Active := Partial] else files, past, last)
  {
    hide Settled, Near;
  }

  lemma QuarantinedKeeps(files: Files, past: map<nat, Stored>, last: nat, id: nat)
    requires Coherent(files, past, last)
    ensures Coherent(files[Quarantined(id) := Partial], past, last)
  {
    hide Settled, Near;
  }

  lemma NewestKnown(files: Files, past: map<nat, Stored>, last: nat, highest: nat)
    requires Coherent(files, past, last) && IsMax(Generations(files) + {}, highest)
    ensures past != map[] ==> highest in past && Snapshot(highest) in files
    ensures past == map[] ==> Snapshot(highest) !in files
    ensures forall g | g in past :: g <= highest
  {
    hide Settled, Near;
    GenerationsKnown(files, past, last);
  }

  lemma RecoveredAbove(files: Files, past: map<nat, Stored>, last: nat, newest: nat)
    requires Coherent(files, past, last) && IsNewest(past, newest)
    ensures newest + 2 >= last && newest + 2 !in past && Near(past, newest + 2, 2)
    ensures newest + 2 > last <==> Near(past, last, 1)
    ensures !Near(past, newest + 2, 1)
  {
    hide Settled;
  }

  lemma SnapshotSettled(files: Files, past: map<nat, Stored>, last: nat, g: nat)
    requires Coherent(files, past, last) && g in past
    ensures MigratePoolRuntimeDefaults(past[g].config) == past[g].config
  {
    hide Settled, Near, MigratePoolRuntimeDefaults;
    MigrationSettles(past[g].config);
  }

  lemma MissingIsFirst(files: Files, past: map<nat, Stored>, last: nat)
    requires Coherent(files, past, last)
    ensures Active !in files <==> last == 0
  {
    hide Settled, Near;
  }

  /** A snapshot reads back exactly as it was committed: its configuration is a fixed point of the migrations. */
  lemma SnapshotIs(files: Files, past: map<nat, Stored>, last: nat, g: nat)
    requires Coherent(files, past, last) && Snapshot(g) in files
    ensures g in past && files[Snapshot(g)] == Whole(past[g]) && past[g].generation == g && Decoded(past[g]) == past[g]
    ensures MigratePoolRuntimeDefaults(past[g].config) == past[g].config
  {
    hide Settled, Near, MigratePoolRuntimeDefaults;
    MigrationSettles(past[g].config);
  }

  /** The active file is complete and holds this. */
  predicate Holds(files: Files, stored: Stored) { Active in files && files[Active] == Whole(stored) }

  /** A newer generation is active, and the one it replaced is readable in the history. */
  ghost predicate Superseded(before: Files, replaced: nat, files: Files, last: nat) {
    && last > replaced && Active in files
    && (Active in before ==> Snapshot(replaced) in files && files[Snapshot(replaced)] == before[Active])
  }

  function Higher(s: set<nat>, g: nat): set<nat> { set h | h in s && h > g }

  lemma HigherAreBetween(names: set<nat>, past: map<nat, Stored>, last: nat, g: nat)
    requires forall h | h in names :: h in past && h < last
    ensures |Higher(names, g)| <= |Between(past, g, last)|
  {
    SmallerPart(Higher(names, g), Between(past, g, last));
  }

  lemma GenerationsInPast(files: Files, past: map<nat, Stored>, last: nat)
    requires Coherent(files, past, last) && last !in past
    ensures forall g | g in Generations(files) :: g in past && g < last
  {
    hide Settled, Near;
    GenerationsKnown(files, past, last);
  }

  lemma PruneOne(files: Files, past: map<nat, Stored>, last: nat, g: nat)
    requires Coherent(files, past, last) && g != last && |Between(past, g, last)| >= DEFAULT_HISTORY_RETENTION
    ensures Coherent(files - {Snapshot(g)}, past, last)
  {
    hide Settled, Near;
  }

  /** The highest known generation is the active one, so the next number is one more. */
  lemma NumberedAbove(files: Files, past: map<nat, Stored>, last: nat, current: Option<Stored>, highest: nat)
    requires Coherent(files, past, last)
    requires current.Some? ==> Holds(files, current.value)
    requires current.None? ==> Active !in files
    requires IsMax(Generations(files) + (if current.Some? then {current.value.generation} else {}), highest)
    ensures highest == last
  {
    hide Settled, Near, Generations, SnapshotsTrue, Retained;
    GenerationsKnown(files, past, last);
    if current.Some? { assert last in Generations(files) + {current.value.generation}; }
  }

  lemma NextIsNew(files: Files, past: map<nat, Stored>, last: nat, current: Option<Stored>)
    requires Coherent(files, past, last) && (current.None? ==> last == 0)
    ensures last + 1 !in past && Near(if current.Some? then past[last := current.value] else past, last + 1, 1)
  {
    hide Settled;
    if current.Some? { assert last in past[last := current.value]; }
  }

  /** The generation just replaced is the newest one superseded, so no pruning takes it. */
  lemma HistoryHolds(files: Files, past: map<nat, Stored>, last: nat, replaced: nat)
    requires Coherent(files, past, last) && replaced in past && forall g | g in past :: g <= replaced
    ensures Snapshot(replaced) in files && files[Snapshot(replaced)] == Whole(past[replaced])
  {
    hide Settled, Near;
    assert Between(past, replaced, last) == {};
  }

  lemma ActiveIs(files: Files, past: map<nat, Stored>, last: nat, current: Stored)
    requires Coherent(files, past, last) && Active in files && files[Active] == Whole(current)
    ensures current.generation == last && Settled(current.config) && last > 0
    ensures last in past ==> past[last] == current
    ensures forall g | g in past :: g <= last
  {
    hide Settled, Near;
  }

  lemma NearWider(past: map<nat, Stored>, n: nat)
    ensures Near(past, n, 1) ==> Near(past, n, 2)
  {}
}
