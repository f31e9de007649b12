/**
 Which of a mission's task rows still count. The mission's listing is folded
 into one task per identity key, and three gates decide from it whether the
 mission may be completed: the Boss's two and the store's own.
 */
module TaskIdentity {
  import opened Wrappers
  import opened MissionTables
  import opened MissionStore
  import Ops = MissionOps

  datatype IdentityKey = IdentityKey(executionClass: ExecutionClass, objectiveKey: Text)

  function KeyOf(task: Task): IdentityKey { IdentityKey(task.executionClass, task.objectiveKey) }

  // ----- the listing of a mission's tasks -----

  predicate Ordered(tasks: map<Id, Task>, rows: seq<Id>) {
    && (forall t | t in rows :: t in tasks)
    && (forall i, j | 0 <= i < j < |rows| :: TaskBefore(tasks, rows[i], rows[j]))
  }

  /** The rows of mission `m`, each once, by creation time and then id. */
  ghost predicate IsListing(tasks: map<Id, Task>, m: Id, rows: seq<Id>) {
    Ordered(tasks, rows) && forall t :: t in rows <==> t in tasks && tasks[t].mission == m
  }

  lemma Around(tasks: map<Id, Task>, rows: seq<Id>, t: Id, i: nat)
    requires Ordered(tasks, rows) && t in tasks && i <= |rows|
    requires i > 0 ==> TaskBefore(tasks, rows[i - 1], t)
    requires i < |rows| ==> TaskBefore(tasks, t, rows[i])
    ensures forall j | 0 <= j < |rows| :: rows[j] in tasks && if j < i then TaskBefore(tasks, rows[j], t) else TaskBefore(tasks, t, rows[j])
  {
    forall j | 0 <= j < |rows| ensures rows[j] in tasks && if j < i then TaskBefore(tasks, rows[j], t) else TaskBefore(tasks, t, rows[j]) {
      assert rows[j] in rows;
      if j < i - 1 { assert TaskBefore(tasks, rows[j], rows[i - 1]); }
      if i < j { assert TaskBefore(tasks, rows[i], rows[j]); }
    }
  }

  function InsertAt(rows: seq<Id>, i: nat, t: Id): (next: seq<Id>)
    requires i <= |rows|
    ensures |next| == |rows| + 1
    ensures forall j | 0 <= j < |next| :: next[j] == if j < i then rows[j] else if j == i then t else rows[j - 1]
  {
    seq(|rows| + 1, j requires 0 <= j <= |rows| => if j < i then rows[j] else if j == i then t else rows[j - 1])
  }

  lemma InsertedMembers(rows: seq<Id>, i: nat, t: Id, u: Id)
    requires i <= |rows|
    ensures u in InsertAt(rows, i, t) <==> u in rows || u == t
  {
    var next := InsertAt(rows, i, t);
    assert next[i] == t;
    if u in rows {
      var j :| 0 <= j < |rows| && rows[j] == u;
      assert next[if j < i then j else j + 1] == u;
    }
  }

  lemma Inserted(tasks: map<Id, Task>, rows: seq<Id>, t: Id, i: nat)
    requires Ordered(tasks, rows) && t in tasks && i <= |rows|
    requires i > 0 ==> TaskBefore(tasks, rows[i - 1], t)
    requires i < |rows| ==> TaskBefore(tasks, t, rows[i])
    ensures Ordered(tasks, InsertAt(rows, i, t))
  {
    hide TaskBefore;
    Around(tasks, rows, t, i);
    var next := InsertAt(rows, i, t);
    forall u | u in next ensures u in tasks { InsertedMembers(rows, i, t, u); }
  }

  lemma NotBefore(tasks: map<Id, Task>, t: Id, u: Id)
    requires t in tasks && u in tasks && t != u
    ensures TaskBefore(tasks, t, u) || TaskBefore(tasks, u, t)
  {}

  method InsertRow(tasks: map<Id, Task>, rows: seq<Id>, t: Id) returns (next: seq<Id>)
    requires Ordered(tasks, rows) && t in tasks && t !in rows
    ensures Ordered(tasks, next) && forall u :: u in next <==> u in rows || u == t
  {
    hide Ordered;
    OrderedRows(tasks, rows);
    var i := |rows|;
    while i > 0 && TaskBefore(tasks, t, rows[i - 1])
      invariant 0 <= i <= |rows|
      invariant i < |rows| ==> TaskBefore(tasks, t, rows[i])
    {
      i := i - 1;
    }
    if i > 0 { NotBefore(tasks, rows[i - 1], t); }
    Inserted(tasks, rows, t, i);
    next := InsertAt(rows, i, t);
    forall u ensures u in next <==> u in rows || u == t { InsertedMembers(rows, i, t, u); }
  }

  method ListTasks(tasks: map<Id, Task>, m: Id) returns (rows: seq<Id>)
    ensures IsListing(tasks, m, rows)
  {
    var todo := set t | t in tasks && tasks[t].mission == m;
    ghost var all := todo;
    rows := [];
    while todo != {}
      invariant todo <= all && Ordered(tasks, rows) && forall t :: t in rows <==> t in all - todo
      decreases todo
    {
      var t :| t in todo;
      rows := InsertRow(tasks, rows, t);
      todo := todo - {t};
    }
  }

  // ----- the tasks that count -----

  /** `t` is the last live row of its key among the first `n` rows. */
  predicate LastOf(tasks: map<Id, Task>, rows: seq<Id>, n: nat, t: Id): (last: bool)
    requires n <= |rows| && forall u | u in rows :: u in tasks
    ensures last ==> t in tasks
  {
    exists i | 0 <= i < n :: rows[i] == t && !tasks[t].status.Cancelled? &&
      forall j | i < j < n :: tasks[rows[j]].status.Cancelled? || !SameIdentity(tasks[rows[j]], tasks[t])
  }

  lemma LastListedIsActive(tasks: map<Id, Task>, m: Id, rows: seq<Id>, t: Id)
    requires IsListing(tasks, m, rows)
    ensures LastOf(tasks, rows, |rows|, t) <==> t in ActiveTasks(tasks, m)
  {
    if LastOf(tasks, rows, |rows|, t) {
      LastListedActive(tasks, m, rows, t);
    }
    if t in ActiveTasks(tasks, m) {
      ActiveLastListed(tasks, m, rows, t);
    }
  }

  lemma LastListedActive(tasks: map<Id, Task>, m: Id, rows: seq<Id>, t: Id)
    requires IsListing(tasks, m, rows) && LastOf(tasks, rows, |rows|, t)
    ensures IsActive(tasks, m, t)
  {
    var i :| 0 <= i < |rows| && rows[i] == t && !tasks[t].status.Cancelled? &&
      forall j | i < j < |rows| :: tasks[rows[j]].status.Cancelled? || !SameIdentity(tasks[rows[j]], tasks[t]);
    forall u | u in tasks && Live(tasks, m, u) && SameIdentity(tasks[u], tasks[t]) ensures !TaskBefore(tasks, t, u) {
      assert u in rows;
      var j :| 0 <= j < |rows| && rows[j] == u;
      PlacesFollowOrder(tasks, rows, i, j);
    }
  }

  lemma ActiveLastListed(tasks: map<Id, Task>, m: Id, rows: seq<Id>, t: Id)
    requires IsListing(tasks, m, rows) && IsActive(tasks, m, t)
    ensures LastOf(tasks, rows, |rows|, t)
  {
    assert t in rows;
    var i :| 0 <= i < |rows| && rows[i] == t;
    forall j | i < j < |rows| ensures tasks[rows[j]].status.Cancelled? || !SameIdentity(tasks[rows[j]], tasks[t]) {
      assert rows[j] in rows && TaskBefore(tasks, t, rows[j]);
    }
  }

  /** One more row: it displaces the earlier row of its key, unless it is cancelled. */
  lemma LastOfNext(tasks: map<Id, Task>, rows: seq<Id>, n: nat, t: Id)
    requires n < |rows| && Ordered(tasks, rows)
    ensures LastOf(tasks, rows, n + 1, t) <==>
      if tasks[rows[n]].status.Cancelled? then LastOf(tasks, rows, n, t)
      else t == rows[n] || (LastOf(tasks, rows, n, t) && !SameIdentity(tasks[rows[n]], tasks[t]))
  {
    if LastOf(tasks, rows, n + 1, t) {
      var i :| 0 <= i < n + 1 && rows[i] == t && !tasks[t].status.Cancelled? &&
        forall j | i < j < n + 1 :: tasks[rows[j]].status.Cancelled? || !SameIdentity(tasks[rows[j]], tasks[t]);
      assert i < n ==> LastOf(tasks, rows, n, t);
    }
    if t == rows[n] && !tasks[t].status.Cancelled? { assert LastOf(tasks, rows, n + 1, t); }
    if LastOf(tasks, rows, n, t) && (tasks[rows[n]].status.Cancelled? || !SameIdentity(tasks[rows[n]], tasks[t])) {
      var i :| 0 <= i < n && rows[i] == t && !tasks[t].status.Cancelled? &&
        forall j | i < j < n :: tasks[rows[j]].status.Cancelled? || !SameIdentity(tasks[rows[j]], tasks[t]);
      assert LastOf(tasks, rows, n + 1, t);
    }
  }

  /** What the JavaScript Map holds after `n` rows. */
  ghost predicate Folded(tasks: map<Id, Task>, rows: seq<Id>, n: nat, latest: map<IdentityKey, Id>)
    requires n <= |rows| && Ordered(tasks, rows)
  {
    && (forall k | k in latest :: LastOf(tasks, rows, n, latest[k]) && KeyOf(tasks[latest[k]]) == k)
    && (forall t :: LastOf(tasks, rows, n, t) ==> KeyOf(tasks[t]) in latest && latest[KeyOf(tasks[t])] == t)
  }

  lemma FoldRow(tasks: map<Id, Task>, rows: seq<Id>, n: nat, latest: map<IdentityKey, Id>)
    requires n < |rows| && Ordered(tasks, rows) && Folded(tasks, rows, n, latest)
    ensures Folded(tasks, rows, n + 1,
      if tasks[rows[n]].status.Cancelled? then latest else latest[KeyOf(tasks[rows[n]]) := rows[n]])
  {
    hide Ordered, LastOf;
    OrderedRows(tasks, rows);
    forall t ensures LastOf(tasks, rows, n + 1, t) <==>
      if tasks[rows[n]].status.Cancelled? then LastOf(tasks, rows, n, t)
      else t == rows[n] || (LastOf(tasks, rows, n, t) && !SameIdentity(tasks[rows[n]], tasks[t]))
    {
      if n < |rows| { LastOfNext(tasks, rows, n, t); }
    }
  }

  lemma OrderedRows(tasks: map<Id, Task>, rows: seq<Id>)
    requires Ordered(tasks, rows)
    ensures forall t | t in rows :: t in tasks
  {}

  /** One task per identity key, in the order the keys first appear; exactly the active tasks. */
  method ActiveMissionTasks(tasks: map<Id, Task>, m: Id) returns (active: seq<Id>)
    ensures forall t :: t in active <==> t in ActiveTasks(tasks, m)
    ensures forall i, j | 0 <= i < j < |active| :: active[i] in tasks && active[j] in tasks && !SameIdentity(tasks[active[i]], tasks[active[j]])
  {
    hide LastOf, ActiveTasks, Ordered, TaskBefore;
    var rows := ListTasks(tasks, m);
    OrderedRows(tasks, rows);
    var latest: map<IdentityKey, Id> := map[];
    var keys: seq<IdentityKey> := [];
    NothingFolded(tasks, rows);
    var n := 0;
    while n < |rows|
      invariant 0 <= n <= |rows| && Folded(tasks, rows, n, latest)
      invariant forall k :: k in keys <==> k in latest
      invariant forall i, j | 0 <= i < j < |keys| :: keys[i] != keys[j]
    {
      FoldRow(tasks, rows, n, latest);
      var t := rows[n];
      if !tasks[t].status.Cancelled? {
        if KeyOf(tasks[t]) !in latest { keys := keys + [KeyOf(tasks[t])]; }
        latest := latest[KeyOf(tasks[t]) := t];
      }
      n := n + 1;
    }
    active := Values(keys, latest);
    ValuesAreActive(tasks, m, rows, keys, latest, active);
  }

  lemma NothingFolded(tasks: map<Id, Task>, rows: seq<Id>)
    requires Ordered(tasks, rows)
    ensures Folded(tasks, rows, 0, map[])
  {}

  function Values(keys: seq<IdentityKey>, latest: map<IdentityKey, Id>): (values: seq<Id>)
    requires forall k | k in keys :: k in latest
    ensures |values| == |keys| && forall i | 0 <= i < |keys| :: values[i] == latest[keys[i]]
  {
    seq(|keys|, i requires 0 <= i < |keys| => latest[keys[i]])
  }

  lemma ValuesAreActive(tasks: map<Id, Task>, m: Id, rows: seq<Id>, keys: seq<IdentityKey>, latest: map<IdentityKey, Id>, active: seq<Id>)
    requires IsListing(tasks, m, rows) && Folded(tasks, rows, |rows|, latest)
    requires (forall k :: k in keys <==> k in latest) && forall i, j | 0 <= i < j < |keys| :: keys[i] != keys[j]
    requires active == Values(keys, latest)
    ensures forall t :: t in active <==> t in ActiveTasks(tasks, m)
    ensures forall i, j | 0 <= i < j < |active| :: active[i] in tasks && active[j] in tasks && !SameIdentity(tasks[active[i]], tasks[active[j]])
  {
    hide LastOf, ActiveTasks, Values, TaskBefore;
    forall t ensures t in active <==> t in ActiveTasks(tasks, m) {
      LastListedIsActive(tasks, m, rows, t);
      if t in active {
        var i :| 0 <= i < |active| && active[i] == t;
        assert keys[i] in latest;
      }
      if LastOf(tasks, rows, |rows|, t) {
        var i :| 0 <= i < |keys| && keys[i] == KeyOf(tasks[t]);
        assert active[i] == t;
      }
    }
    forall i, j | 0 <= i < j < |active| ensures active[i] in tasks && active[j] in tasks && !SameIdentity(tasks[active[i]], tasks[active[j]]) {
      assert keys[i] in latest && keys[j] in latest;
    }
  }


  // ----- finding a task for a planned piece of work -----

  datatype TaskSpec = TaskSpec(taskId: Option<Id>, executionClass: ExecutionClass, objectiveKey: Text, fieldsOk: bool)

  predicate Repairable(status: TaskStatus) { !status.Running? && !status.Cancelled? }

  /** A live task of the spec's identity. */
  predicate Matches(tasks: map<Id, Task>, m: Id, spec: TaskSpec, t: Id) {
    Live(tasks, m, t) && KeyOf(tasks[t]) == IdentityKey(spec.executionClass, spec.objectiveKey)
  }

  /** The last listed task that may be taken up again for the spec. */
  predicate IsReusable(tasks: map<Id, Task>, m: Id, spec: TaskSpec, t: Id) {
    && Matches(tasks, m, spec, t) && Repairable(tasks[t].status)
    && forall u | u in tasks :: Matches(tasks, m, spec, u) && TaskBefore(tasks, t, u) ==> tasks[u].status.Running?
  }

  method FindReusable(tasks: map<Id, Task>, m: Id, spec: TaskSpec) returns (found: Option<Id>)
    ensures found.Some? ==> IsReusable(tasks, m, spec, found.value)
    ensures found.None? ==> forall u | u in tasks :: Matches(tasks, m, spec, u) ==> tasks[u].status.Running?
  {
    hide SameIdentity;
    var rows := ListTasks(tasks, m);
    var i := |rows|;
    while i > 0
      invariant 0 <= i <= |rows|
      invariant forall j | i <= j < |rows| :: rows[j] in tasks && (Matches(tasks, m, spec, rows[j]) ==> tasks[rows[j]].status.Running?)
    {
      i := i - 1;
      assert rows[i] in rows;
      if Matches(tasks, m, spec, rows[i]) && Repairable(tasks[rows[i]].status) {
        LaterRows(tasks, m, rows, i);
        return Some(rows[i]);
      }
    }
    forall u | u in tasks && Matches(tasks, m, spec, u) ensures tasks[u].status.Running? { assert u in rows; }
    return None;
  }

  lemma PlacesFollowOrder(tasks: map<Id, Task>, rows: seq<Id>, i: nat, j: nat)
    requires Ordered(tasks, rows) && i < |rows| && j < |rows|
    ensures rows[i] in tasks && rows[j] in tasks && (TaskBefore(tasks, rows[i], rows[j]) <==> i < j)
  {
    assert rows[i] in rows && rows[j] in rows;
  }

  lemma LaterRows(tasks: map<Id, Task>, m: Id, rows: seq<Id>, i: nat)
    requires IsListing(tasks, m, rows) && i < |rows|
    ensures forall u | u in tasks :: tasks[u].mission == m && TaskBefore(tasks, rows[i], u) ==> exists j :: i < j < |rows| && rows[j] == u
  {
    assert rows[i] in rows;
    forall u | u in tasks && tasks[u].mission == m && TaskBefore(tasks, rows[i], u) ensures exists j :: i < j < |rows| && rows[j] == u {
      assert u in rows;
      var j :| 0 <= j < |rows| && rows[j] == u;
      PlacesFollowOrder(tasks, rows, i, j);
    }
  }

  /** The task a spec names outright, when the mission has it and it is not cancelled. */
  predicate Names(db: Database, m: Id, spec: TaskSpec) {
    spec.taskId.Some? && Live(db.tasks, m, spec.taskId.value)
  }

  function DraftOf(m: Id, spec: TaskSpec): Ops.TaskDraft {
    Ops.TaskDraft(m, spec.executionClass, spec.objectiveKey, TaskStatus.Planned, spec.fieldsOk)
  }

  /**
   A row is created only when the spec names no live task of the mission and
   every live task of its identity is running.
   */
  method ResolveOrCreateMissionTask(store: SQLiteMissionStore, now: Time, m: Id, spec: TaskSpec, newId: Id)
    returns (task: Id, created: bool, thrown: Option<Error>)
    requires store.transactionDepth == 0
    modifies store
    ensures store.transactionDepth == 0
    ensures thrown.None? ==> Live(store.db.tasks, m, task) && (Names(old(store.db), m, spec) || Matches(store.db.tasks, m, spec, task))
    ensures Names(old(store.db), m, spec) ==> thrown.None? && !created && task == spec.taskId.value
    ensures !created && !Names(old(store.db), m, spec) ==> IsReusable(store.db.tasks, m, spec, task)
    ensures !created ==> thrown.None? && store.db == old(store.db)
    ensures created ==> forall u | u in old(store.db).tasks :: Matches(old(store.db).tasks, m, spec, u) ==> old(store.db).tasks[u].status.Running?
    ensures created ==> Ops.Reply(store.db, thrown) == Ops.Apply(old(store.db), now, Ops.OpCreateTask(newId, DraftOf(m, spec)))
    ensures created && thrown.None? ==> task == newId
  {
    hide IsReusable;
    if Names(store.db, m, spec) { return spec.taskId.value, false, None; }
    var reusable := FindReusable(store.db.tasks, m, spec);
    if reusable.Some? {
      ReusableMatches(store.db.tasks, m, spec, reusable.value);
      return reusable.value, false, None;
    }
    thrown := store.CreateTask(now, newId, DraftOf(m, spec));
    return newId, true, thrown;
  }

  lemma ReusableMatches(tasks: map<Id, Task>, m: Id, spec: TaskSpec, t: Id)
    requires IsReusable(tasks, m, spec, t)
    ensures Matches(tasks, m, spec, t)
  {}
}
