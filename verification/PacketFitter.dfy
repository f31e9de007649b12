/**
 Selecting canonical items for a task packet and trimming the packet to its
 budget. The length of a packet's canonical JSON is an opaque function, so
 nothing here depends on how trimming changes it.
 */
module PacketFitter {
  type Text = string
  type Id = nat
  type Kind = nat

  datatype Item = Item(id: Id, kind: Kind, scopes: set<Text>, tags: set<Text>, acceptedStatus: bool, sensitiveKind: bool)

  /** What a packet asks for; an empty filter lets everything through. */
  datatype Request = Request(ids: set<Id>, kinds: set<Kind>, scopes: set<Text>, tags: set<Text>, maxItems: nat)

  // ----- the order of the items -----

  predicate Before(a: Item, b: Item) { a.id < b.id || (a.id == b.id && a.kind <= b.kind) }

  predicate Sorted(s: seq<Item>) { forall i, j | 0 <= i < j < |s| :: Before(s[i], s[j]) }

  predicate Admissible(item: Item) { item.acceptedStatus && !item.sensitiveKind }

  function Admitted(items: seq<Item>): (r: seq<Item>)
    ensures forall x :: x in r <==> x in items && Admissible(x)
  {
    if items == [] then [] else (if Admissible(items[0]) then [items[0]] else []) + Admitted(items[1..])
  }

  function Refused(items: seq<Item>): (r: seq<Item>)
    ensures forall x :: x in r <==> x in items && !Admissible(x)
  {
    if items == [] then [] else (if Admissible(items[0]) then [] else [items[0]]) + Refused(items[1..])
  }

  lemma {:induction false} EveryItemOnce(items: seq<Item>)
    ensures |items| == |Admitted(items)| + |Refused(items)|
  {
    if items != [] { EveryItemOnce(items[1..]); }
  }

  lemma SortedAround(sorted: seq<Item>, item: Item, i: nat, r: seq<Item>)
    requires Sorted(sorted) && i <= |sorted| && |r| == |sorted| + 1
    requires forall j | 0 <= j < |r| :: r[j] == if j < i then sorted[j] else if j == i then item else sorted[j - 1]
    requires i > 0 ==> Before(sorted[i - 1], item)
    requires i < |sorted| ==> Before(item, sorted[i])
    ensures Sorted(r)
  {
    forall j | 0 <= j < |sorted| ensures if j < i then Before(sorted[j], item) else Before(item, sorted[j]) {
      if j < i - 1 { assert Before(sorted[j], sorted[i - 1]); }
      if i < j { assert Before(sorted[i], sorted[j]); }
    }
    forall a, b | 0 <= a < b < |r| ensures Before(r[a], r[b]) {
      if b < i {
        assert Before(sorted[a], sorted[b]);
      } else if b == i || a == i {
        assert r[i] == item;
      } else if a < i {
        assert Before(sorted[a], sorted[b - 1]);
      } else {
        assert Before(sorted[a - 1], sorted[b - 1]);
      }
    }
  }

  lemma Spliced(s: seq<Item>, x: Item, i: nat)
    requires i <= |s|
    ensures var r := s[..i] + [x] + s[i..];
      && |r| == |s| + 1
      && (forall j | 0 <= j < |r| :: r[j] == if j < i then s[j] else if j == i then x else s[j - 1])
      && multiset(r) == multiset(s) + multiset{x}
  {
    assert s == s[..i] + s[i..];
  }

  /** Stable insertion, from the right. */
  method Insert(sorted: seq<Item>, item: Item) returns (r: seq<Item>)
    requires Sorted(sorted)
    ensures Sorted(r) && multiset(r) == multiset(sorted) + multiset{item}
  {
    hide Sorted, Before;
    TotalOrder();
    var i := |sorted|;
    while i > 0 && !Before(sorted[i - 1], item)
      invariant 0 <= i <= |sorted|
      invariant i < |sorted| ==> Before(item, sorted[i])
    {
      i := i - 1;
    }
    r := sorted[..i] + [item] + sorted[i..];
    Spliced(sorted, item, i);
    SortedAround(sorted, item, i, r);
  }

  lemma TotalOrder()
    ensures forall a, b :: !Before(a, b) ==> Before(b, a)
  {}

  lemma NothingSorted()
    ensures Sorted([])
  {}

  method OrderItems(items: seq<Item>) returns (ordered: seq<Item>)
    ensures Sorted(ordered) && multiset(ordered) == multiset(Admitted(items))
  {
    hide Sorted, Admitted;
    ordered := [];
    NothingSorted();
    var rest := Admitted(items);
    var i := 0;
    while i < |rest|
      invariant 0 <= i <= |rest| && Sorted(ordered) && multiset(ordered) == multiset(rest[..i])
    {
      assert rest[..i + 1] == rest[..i] + [rest[i]];
      ordered := Insert(ordered, rest[i]);
      i := i + 1;
    }
    assert rest[..i] == rest;
  }

  // ----- selection -----

  predicate Wanted(item: Item, request: Request, fits: Item -> bool) {
    && (request.ids != {} ==> item.id in request.ids)
    && (request.kinds != {} ==> item.kind in request.kinds)
    && (request.scopes != {} ==> request.scopes * item.scopes != {})
    && (request.tags != {} ==> request.tags * item.tags != {})
    && fits(item)
  }

  function WantedOf(items: seq<Item>, request: Request, fits: Item -> bool): seq<Item> {
    if items == [] then []
    else WantedOf(items[..|items| - 1], request, fits) + (if Wanted(items[|items| - 1], request, fits) then [items[|items| - 1]] else [])
  }

  function Take<T>(s: seq<T>, n: nat): (r: seq<T>)
    ensures r <= s && |r| <= n && (|r| == n || r == s)
  {
    if |s| <= n then s else s[..n]
  }

  function IdsOf(items: seq<Item>): set<Id> { set x | x in items :: x.id }

  datatype Selection = Selection(items: seq<Item>, omittedCount: nat, omittedItemIds: seq<Id>)

  /** Take the wanted items in order until there are enough; everything else is omitted. */
  method Choose(ordered: seq<Item>, request: Request, fits: Item -> bool) returns (selected: seq<Item>, omitted: seq<Id>)
    ensures selected == Take(WantedOf(ordered, request, fits), request.maxItems)
    ensures |selected| + |omitted| == |ordered|
    ensures forall x :: x in omitted ==> x in IdsOf(ordered)
  {
    selected, omitted := [], [];
    var i := 0;
    while i < |ordered|
      invariant 0 <= i <= |ordered| && |selected| + |omitted| == i
      invariant selected == Take(WantedOf(ordered[..i], request, fits), request.maxItems)
      invariant forall x :: x in omitted ==> x in IdsOf(ordered)
    {
      assert ordered[..i + 1][..i] == ordered[..i] && ordered[..i + 1][i] == ordered[i];
      assert ordered[i] in ordered;
      if !Wanted(ordered[i], request, fits) || |selected| >= request.maxItems {
        omitted := omitted + [ordered[i].id];
      } else {
        selected := selected + [ordered[i]];
      }
      i := i + 1;
    }
    assert ordered[..i] == ordered;
  }

  function Members(ids: seq<Id>): set<Id> { set x | x in ids }

  /** Add to the omitted ids those of a list that are not there yet. */
  method AddMissing(omitted: seq<Id>, ids: seq<Id>, skip: set<Id>) returns (r: seq<Id>)
    requires forall x :: x in omitted && x in ids ==> x in skip
    ensures omitted <= r && forall x :: x in r <==> x in omitted || (x in ids && x !in skip)
    ensures |r| == |omitted| + |Members(ids) - skip|
  {
    r := omitted;
    ghost var added: set<Id> := {};
    var i := 0;
    while i < |ids|
      invariant 0 <= i <= |ids| && omitted <= r && |r| == |omitted| + |added|
      invariant forall x :: x in added <==> x in ids[..i] && x !in skip
      invariant forall x :: x in r <==> x in omitted || x in added
    {
      assert ids[..i + 1] == ids[..i] + [ids[i]];
      assert ids[i] in ids;
      if ids[i] !in skip && ids[i] !in r {
        r := r + [ids[i]];
        added := added + {ids[i]};
      }
      i := i + 1;
    }
    assert ids[..i] == ids;
    assert added == Members(ids) - skip;
  }

  function Ids(items: seq<Item>): (r: seq<Id>)
    ensures |r| == |items| && forall i | 0 <= i < |items| :: r[i] == items[i].id
  {
    seq(|items|, i requires 0 <= i < |items| => items[i].id)
  }

  lemma IdsSame(items: seq<Item>)
    ensures forall x :: x in Ids(items) <==> x in IdsOf(items)
    ensures Members(Ids(items)) == IdsOf(items)
  {
    forall x ensures x in Ids(items) <==> x in IdsOf(items) {
      if x in Ids(items) {
        var i :| 0 <= i < |items| && Ids(items)[i] == x;
        assert items[i] in items;
      }
      if x in IdsOf(items) {
        var y :| y in items && y.id == x;
        var i :| 0 <= i < |items| && items[i] == y;
        assert Ids(items)[i] == x;
      }
    }
  }

  /** The ids as a list, in some order. */
  method Listed(ids: set<Id>) returns (r: seq<Id>)
    ensures (forall x :: x in r <==> x in ids) && |r| == |ids|
  {
    var todo := ids;
    r := [];
    while todo != {}
      invariant todo <= ids && |r| + |todo| == |ids| && forall x :: x in r <==> x in ids - todo
      decreases todo
    {
      var x :| x in todo;
      r, todo := r + [x], todo - {x};
    }
  }

  // ----- the count -----

  /** Refused items whose id no admitted item has, and requested ids no item has. */
  function RefusedIds(items: seq<Item>): set<Id> { IdsOf(Refused(items)) - IdsOf(Admitted(items)) }

  function UnknownIds(items: seq<Item>, request: Request): set<Id> { request.ids - IdsOf(items) }

  /**
   Every admitted item is either included or omitted, every refused id is
   omitted once, and so is every requested id that no item has.
   */
  method SelectItems(items: seq<Item>, request: Request, fits: Item -> bool) returns (selection: Selection, ghost ordered: seq<Item>)
    ensures Sorted(ordered) && multiset(ordered) == multiset(Admitted(items))
    ensures selection.items == Take(WantedOf(ordered, request, fits), request.maxItems)
    ensures |selection.items| + selection.omittedCount ==
      |Admitted(items)| + |RefusedIds(items)| + |UnknownIds(items, request)|
  {
    hide Sorted, Admitted, Refused, WantedOf, Take, IdsOf;
    var sorted := OrderItems(items);
    ordered := sorted;
    SameItems(ordered, Admitted(items));
    var chosen, omitted := Choose(sorted, request, fits);
    omitted := OmitRest(items, request, sorted, omitted);
    var distinct := SortedDistinct(omitted);
    selection := Selection(chosen, |omitted|, distinct);
  }

  /** The refused items and the unknown requests are omitted as well. */
  method OmitRest(items: seq<Item>, request: Request, ordered: seq<Item>, start: seq<Id>) returns (omitted: seq<Id>)
    requires IdsOf(ordered) == IdsOf(Admitted(items)) && forall x :: x in start ==> x in IdsOf(ordered)
    ensures |omitted| == |start| + |RefusedIds(items)| + |UnknownIds(items, request)|
  {
    hide Admitted, Refused, Ids, IdsOf;
    var refused := Refused(items);
    IdsSame(refused);
    ItemsAreBoth(items);
    omitted := AddMissing(start, Ids(refused), IdsOf(ordered));
    var requested := Listed(request.ids);
    assert Members(requested) == request.ids;
    omitted := AddMissing(omitted, requested, IdsOf(items));
  }

  lemma SameItems(a: seq<Item>, b: seq<Item>)
    requires multiset(a) == multiset(b)
    ensures |a| == |b| && IdsOf(a) == IdsOf(b)
  {
    assert |multiset(a)| == |multiset(b)|;
    forall x ensures x in a <==> x in b { assert x in multiset(a) <==> x in multiset(b); }
  }

  lemma ItemsAreBoth(items: seq<Item>)
    ensures IdsOf(items) == IdsOf(Admitted(items)) + IdsOf(Refused(items))
  {
    forall x | x in IdsOf(items) ensures x in IdsOf(Admitted(items)) + IdsOf(Refused(items)) {
      var y :| y in items && y.id == x;
      assert y in Admitted(items) || y in Refused(items);
    }
  }

  /** Without repetitions, in order. */
  method SortedDistinct(ids: seq<Id>) returns (r: seq<Id>)
    ensures (forall x :: x in r <==> x in ids) && forall i, j | 0 <= i < j < |r| :: r[i] < r[j]
  {
    var todo := set x | x in ids;
    ghost var all := todo;
    r := [];
    while todo != {}
      invariant todo <= all && forall x :: x in r <==> x in all - todo
      invariant forall i, j | 0 <= i < j < |r| :: r[i] < r[j]
      invariant forall x, y | x in r && y in todo :: x < y
      decreases todo
    {
      var x := Least(todo);
      forall i | 0 <= i < |r| ensures r[i] < x { assert r[i] in r; }
      r, todo := r + [x], todo - {x};
    }
  }

  method Least(ids: set<Id>) returns (least: Id)
    requires ids != {}
    ensures least in ids && forall x | x in ids :: least <= x
  {
    least :| least in ids;
    var todo := ids - {least};
    while todo != {}
      invariant todo <= ids && least in ids && forall x | x in ids && x !in todo :: least <= x
      decreases todo
    {
      var x :| x in todo;
      if x < least { least := x; }
      todo := todo - {x};
    }
  }

  // ----- when nothing is lost from the count -----

  predicate DistinctIds(items: seq<Item>) { forall i, j | 0 <= i < j < |items| :: items[i].id != items[j].id }

  /** No refused item shares its id with any other item. */
  predicate RefusedApart(items: seq<Item>) {
    DistinctIds(Refused(items)) && IdsOf(Refused(items)) !! IdsOf(Admitted(items))
  }

  lemma LastRepeats(rest: seq<Item>, last: Item)
    ensures DistinctIds(rest + [last]) <==> DistinctIds(rest) && last.id !in IdsOf(rest)
    ensures IdsOf(rest + [last]) == IdsOf(rest) + {last.id}
  {
    var items := rest + [last];
    assert forall i | 0 <= i < |rest| :: items[i] == rest[i];
    if last.id in IdsOf(rest) {
      var y :| y in rest && y.id == last.id;
      var i :| 0 <= i < |rest| && rest[i] == y;
      assert items[i].id == items[|rest|].id;
    } else {
      forall i | 0 <= i < |rest| ensures items[i].id != last.id { assert rest[i] in rest; }
    }
  }

  lemma {:induction false} IdsCount(items: seq<Item>)
    ensures |IdsOf(items)| <= |items|
    ensures |IdsOf(items)| == |items| <==> DistinctIds(items)
  {
    if items == [] {
      assert IdsOf(items) == {};
    } else {
      hide DistinctIds, IdsOf;
      var rest := items[..|items| - 1];
      IdsCount(rest);
      assert items == rest + [items[|items| - 1]];
      LastRepeats(rest, items[|items| - 1]);
    }
  }

  /**
   Included plus omitted is the number of source items plus the number of
   unknown requests exactly when no refused item shares its id with another.
   */
  lemma CountLaw(items: seq<Item>, request: Request)
    ensures |Admitted(items)| + |RefusedIds(items)| + |UnknownIds(items, request)| == |items| + |UnknownIds(items, request)|
       <==> RefusedApart(items)
  {
    hide Admitted, Refused, DistinctIds;
    EveryItemOnce(items);
    IdsCount(Refused(items));
    var refused, admitted := IdsOf(Refused(items)), IdsOf(Admitted(items));
    assert refused == (refused - admitted) + refused * admitted;
    assert |refused| == |refused - admitted| + |refused * admitted|;
    if |refused * admitted| == 0 { assert refused * admitted == {}; }
  }

  /** Distinct source ids are enough. */
  lemma {:induction false} DistinctEnough(items: seq<Item>)
    requires DistinctIds(items)
    ensures RefusedApart(items)
  {
    if items != [] {
      DistinctEnough(items[1..]);
      forall x | x in items[1..] ensures x.id != items[0].id {
        var i :| 0 <= i < |items[1..]| && items[1..][i] == x;
        assert items[i + 1] == x;
      }
      FirstApart(items);
    }
  }

  lemma FirstAlone(first: Item, rest: seq<Item>)
    requires forall x | x in rest :: x.id != first.id
    ensures DistinctIds(rest) ==> DistinctIds([first] + rest)
    ensures IdsOf([first] + rest) == {first.id} + IdsOf(rest) && first.id !in IdsOf(rest)
  {
    var all := [first] + rest;
    assert forall i | 0 < i < |all| :: all[i] == rest[i - 1];
  }

  lemma FirstApart(items: seq<Item>)
    requires items != [] && RefusedApart(items[1..]) && forall x | x in items[1..] :: x.id != items[0].id
    ensures RefusedApart(items)
  {
    hide DistinctIds, IdsOf;
    FirstAlone(items[0], Admitted(items[1..]));
    FirstAlone(items[0], Refused(items[1..]));
    if Admissible(items[0]) {
      assert Refused(items) == Refused(items[1..]);
    } else {
      assert Admitted(items) == Admitted(items[1..]);
    }
  }

  /** Two refused items with one id are counted once. */
  lemma RepeatedRefusalLosesOne(a: Item)
    requires !Admissible(a)
    ensures |Admitted([a, a])| + |RefusedIds([a, a])| == 1
  {
    assert [a, a][1..] == [a] && [a][1..] == [];
    assert Refused([a]) == [a] && Refused([a, a]) == [a, a];
    assert IdsOf([a, a]) == {a.id};
    EveryItemOnce([a, a]);
    assert Admitted([a, a]) == [];
    assert IdsOf(Admitted([a, a])) == {};
    assert RefusedIds([a, a]) == {a.id};
  }

  // ----- fitting the packet -----

  const PACKET_METADATA_RESERVE: nat := 0

  /** The parts of a packet that trimming touches; `lists` are the nine optional lists in the order they are trimmed. */
  datatype Packet = Packet(
    findings: seq<Item>, includedIds: seq<Id>, omittedCount: nat, omittedItemIds: seq<Id>, lists: seq<seq<Text>>, objective: Text)

  predicate Oversized(size: Packet -> nat, maxChars: nat, p: Packet) { size(p) + PACKET_METADATA_RESERVE > maxChars }

  /** The findings are cut at the end, and what is cut is counted as omitted. */
  predicate FindingsCut(base: Packet, selection: Selection, p: Packet) {
    && p.findings <= base.findings && p.includedIds == Ids(p.findings)
    && |p.findings| + p.omittedCount == |base.findings| + selection.omittedCount
    && (if p.findings == base.findings then p.omittedItemIds <= selection.omittedItemIds
        else |p.omittedItemIds| == |base.findings| - |p.findings| &&
             forall i | 0 <= i < |p.omittedItemIds| :: p.omittedItemIds[i] == base.findings[|base.findings| - 1 - i].id)
  }

  /** The lists are cut at the end, each only after the findings and the lists before it are used up. */
  predicate ListsCut(base: Packet, p: Packet) {
    && |p.lists| == |base.lists|
    && forall i | 0 <= i < |p.lists| ::
         p.lists[i] <= base.lists[i] && (p.lists[i] != base.lists[i] ==> p.findings == [] && forall j | 0 <= j < i :: p.lists[j] == [])
  }

  predicate NoLists(p: Packet) { forall i | 0 <= i < |p.lists| :: p.lists[i] == [] }

  /** The objective is cut last, and never below 16 characters. */
  predicate ObjectiveCut(base: Packet, p: Packet) {
    p.objective <= base.objective && (p.objective != base.objective ==> |p.objective| >= 16 && p.findings == [] && NoLists(p))
  }

  // ----- trimming only when it is needed -----

  /** The packet before any trimming. */
  function Candidate(base: Packet, selection: Selection): Packet {
    base.(includedIds := Ids(base.findings), omittedCount := selection.omittedCount, omittedItemIds := selection.omittedItemIds)
  }

  /** The last omitted id was dropped from, or the last finding taken out of, a packet that was too long. */
  predicate FindingsNeeded(size: Packet -> nat, maxChars: nat, base: Packet, selection: Selection, p: Packet) {
    if p.findings == base.findings then
      p.omittedItemIds <= selection.omittedItemIds && (p.omittedItemIds != selection.omittedItemIds ==>
        Oversized(size, maxChars, p.(omittedItemIds := selection.omittedItemIds[..|p.omittedItemIds| + 1])))
    else
      p.findings < base.findings && |p.omittedItemIds| > 0 && p.omittedCount > 0 &&
      var before := base.findings[..|p.findings| + 1];
      Oversized(size, maxChars, p.(findings := before, includedIds := Ids(before), omittedCount := p.omittedCount - 1,
                                   omittedItemIds := p.omittedItemIds[..|p.omittedItemIds| - 1]))
  }

  /** The last entry of list `f` was taken from a packet that was too long. */
  predicate ListNeeded(size: Packet -> nat, maxChars: nat, base: Packet, p: Packet, f: nat)
    requires f < |p.lists| == |base.lists|
  {
    p.lists[f] <= base.lists[f] && (p.lists[f] != base.lists[f] ==>
      Oversized(size, maxChars, p.(lists := p.lists[..f] + [base.lists[f][..|p.lists[f]| + 1]] + base.lists[f + 1..])))
  }

  predicate ListsNeeded(size: Packet -> nat, maxChars: nat, base: Packet, p: Packet) {
    |p.lists| == |base.lists| && forall f | 0 <= f < |p.lists| :: ListNeeded(size, maxChars, base, p, f)
  }

  /** The last cut of the objective took 64 characters, or all but 16, from a packet that was too long. */
  ghost predicate ObjectiveNeeded(size: Packet -> nat, maxChars: nat, base: Packet, p: Packet) {
    p.objective != base.objective ==> exists length :: LastLength(size, maxChars, base, p, length)
  }

  predicate LastLength(size: Packet -> nat, maxChars: nat, base: Packet, p: Packet, length: nat) {
    && 16 < length <= |base.objective| && (|base.objective| - length) % 64 == 0
    && |p.objective| == (if length >= 80 then length - 64 else 16)
    && Oversized(size, maxChars, p.(objective := base.objective[..length]))
  }

  /** Drop omitted ids, from the last on, until the packet fits or none is left. */
  method DropOmittedIds(size: Packet -> nat, base: Packet, selection: Selection, maxChars: nat) returns (p: Packet)
    ensures p == Candidate(base, selection).(omittedItemIds := p.omittedItemIds) && p.omittedItemIds <= selection.omittedItemIds
    ensures Oversized(size, maxChars, p) ==> p.omittedItemIds == []
    ensures FindingsNeeded(size, maxChars, base, selection, p)
    ensures !Oversized(size, maxChars, Candidate(base, selection)) ==> p == Candidate(base, selection)
  {
    p := Candidate(base, selection);
    while Oversized(size, maxChars, p) && |p.omittedItemIds| > 0
      invariant p == Candidate(base, selection).(omittedItemIds := p.omittedItemIds)
      invariant p.omittedItemIds <= selection.omittedItemIds && FindingsNeeded(size, maxChars, base, selection, p)
      invariant !Oversized(size, maxChars, Candidate(base, selection)) ==> p == Candidate(base, selection)
      decreases |p.omittedItemIds|
    {
      ghost var before := p;
      p := p.(omittedItemIds := p.omittedItemIds[..|p.omittedItemIds| - 1]);
      assert before == p.(omittedItemIds := selection.omittedItemIds[..|p.omittedItemIds| + 1]);
    }
  }

  method FitFindings(size: Packet -> nat, base: Packet, selection: Selection, maxChars: nat) returns (p: Packet)
    ensures FindingsCut(base, selection, p) && p.lists == base.lists && p.objective == base.objective
    ensures Oversized(size, maxChars, p) ==> p.findings == []
    ensures FindingsNeeded(size, maxChars, base, selection, p)
    ensures !Oversized(size, maxChars, Candidate(base, selection)) ==> p == Candidate(base, selection)
  {
    p := DropOmittedIds(size, base, selection, maxChars);
    while |p.findings| > 0 && Oversized(size, maxChars, p)
      invariant FindingsCut(base, selection, p) && p.lists == base.lists && p.objective == base.objective
      invariant Oversized(size, maxChars, p) && p.findings == base.findings ==> p.omittedItemIds == []
      invariant FindingsNeeded(size, maxChars, base, selection, p)
      invariant !Oversized(size, maxChars, Candidate(base, selection)) ==> p == Candidate(base, selection)
      decreases |p.findings|
    {
      OneFindingLess(base, selection, p);
      var kept := |p.findings| - 1;
      p := p.(findings := p.findings[..kept], includedIds := Ids(p.findings[..kept]), omittedCount := p.omittedCount + 1,
              omittedItemIds := p.omittedItemIds + [p.findings[kept].id]);
    }
  }

  lemma OneFindingLess(base: Packet, selection: Selection, p: Packet)
    requires FindingsCut(base, selection, p) && |p.findings| > 0 && (p.findings == base.findings ==> p.omittedItemIds == [])
    ensures var kept := |p.findings| - 1;
      var next := p.(findings := p.findings[..kept], includedIds := Ids(p.findings[..kept]), omittedCount := p.omittedCount + 1,
                     omittedItemIds := p.omittedItemIds + [p.findings[kept].id]);
      && FindingsCut(base, selection, next) && next.findings != base.findings
      && |next.omittedItemIds| > 0 && next.omittedCount > 0
      && p == next.(findings := base.findings[..|next.findings| + 1], includedIds := Ids(base.findings[..|next.findings| + 1]),
                    omittedCount := next.omittedCount - 1, omittedItemIds := next.omittedItemIds[..|next.omittedItemIds| - 1])
  {
    assert base.findings[..|p.findings|] == p.findings;
    assert (p.omittedItemIds + [p.findings[|p.findings| - 1].id])[..|p.omittedItemIds|] == p.omittedItemIds;
  }

  /** The lists from `f` on are still whole, and each one before was cut only as far as it had to be. */
  predicate ListsUpTo(size: Packet -> nat, maxChars: nat, base: Packet, p: Packet, f: nat) {
    && f <= |p.lists| == |base.lists| && p.lists[f..] == base.lists[f..]
    && forall j | 0 <= j < f :: ListNeeded(size, maxChars, base, p, j)
  }

  /** Cut one list at its end until the packet fits or the list is gone. */
  method FitList(size: Packet -> nat, base: Packet, start: Packet, maxChars: nat, f: nat) returns (p: Packet)
    requires f < |start.lists| && ListsCut(base, start) && ListsUpTo(size, maxChars, base, start, f)
    requires forall j | 0 <= j < f :: Oversized(size, maxChars, start) ==> start.lists[j] == []
    requires Oversized(size, maxChars, start) ==> start.findings == []
    ensures p == start.(lists := p.lists) && ListsCut(base, p) && ListsUpTo(size, maxChars, base, p, f + 1)
    ensures forall j | 0 <= j <= f :: Oversized(size, maxChars, p) ==> p.lists[j] == []
    ensures Oversized(size, maxChars, p) ==> p.findings == []
    ensures !Oversized(size, maxChars, start) ==> p == start
  {
    p := start;
    while Oversized(size, maxChars, p) && |p.lists[f]| > 0
      invariant |p.lists| == |start.lists| && p == start.(lists := start.lists[f := p.lists[f]]) && ListsCut(base, p)
      invariant forall j | 0 <= j < f :: Oversized(size, maxChars, p) ==> p.lists[j] == []
      invariant p != start ==> p.findings == [] && forall j | 0 <= j < f :: p.lists[j] == []
      invariant ListNeeded(size, maxChars, base, p, f) && (!Oversized(size, maxChars, start) ==> p == start)
      decreases |p.lists[f]|
    {
      ghost var before := p;
      var next := p.lists[f][..|p.lists[f]| - 1];
      p := p.(lists := p.lists[f := next]);
      OneEntryLess(base, before, p, f);
    }
    LaterListsWhole(size, maxChars, base, start, p, f);
  }

  lemma OneEntryLess(base: Packet, before: Packet, p: Packet, f: nat)
    requires f < |before.lists| == |base.lists| && before.lists[f] <= base.lists[f] && |before.lists[f]| > 0
    requires before.lists[f + 1..] == base.lists[f + 1..]
    requires p == before.(lists := before.lists[f := before.lists[f][..|before.lists[f]| - 1]])
    ensures before == p.(lists := p.lists[..f] + [base.lists[f][..|p.lists[f]| + 1]] + base.lists[f + 1..])
  {
    assert before.lists == before.lists[..f] + [before.lists[f]] + before.lists[f + 1..];
    assert p.lists[..f] == before.lists[..f];
    assert base.lists[f][..|p.lists[f]| + 1] == before.lists[f];
  }

  lemma LaterListsWhole(size: Packet -> nat, maxChars: nat, base: Packet, start: Packet, p: Packet, f: nat)
    requires f < |start.lists| == |p.lists| && p == start.(lists := start.lists[f := p.lists[f]])
    requires ListsUpTo(size, maxChars, base, start, f) && ListNeeded(size, maxChars, base, p, f)
    ensures ListsUpTo(size, maxChars, base, p, f + 1)
  {
    hide Oversized;
    assert p.lists[f + 1..] == start.lists[f..][1..] == base.lists[f..][1..] == base.lists[f + 1..];
    forall j | 0 <= j < f ensures ListNeeded(size, maxChars, base, p, j) {
      assert ListNeeded(size, maxChars, base, start, j);
      assert p.lists[..j] == start.lists[..j] && p.lists[j] == start.lists[j];
      if p.lists[j] != base.lists[j] {
        assert p.(lists := p.lists[..j] + [base.lists[j][..|p.lists[j]| + 1]] + base.lists[j + 1..]) ==
               start.(lists := start.lists[..j] + [base.lists[j][..|start.lists[j]| + 1]] + base.lists[j + 1..]);
      }
    }
  }

  method FitLists(size: Packet -> nat, base: Packet, start: Packet, maxChars: nat) returns (p: Packet)
    requires start.lists == base.lists && (Oversized(size, maxChars, start) ==> start.findings == [])
    ensures p == start.(lists := p.lists) && ListsCut(base, p) && ListsNeeded(size, maxChars, base, p)
    ensures Oversized(size, maxChars, p) ==> p.findings == [] && NoLists(p)
    ensures !Oversized(size, maxChars, start) ==> p == start
  {
    hide ListNeeded;
    p := start;
    var f := 0;
    while f < |p.lists|
      invariant 0 <= f <= |p.lists| && p == start.(lists := p.lists) && ListsCut(base, p) && ListsUpTo(size, maxChars, base, p, f)
      invariant forall j | 0 <= j < f :: Oversized(size, maxChars, p) ==> p.lists[j] == []
      invariant Oversized(size, maxChars, p) ==> p.findings == []
      invariant !Oversized(size, maxChars, start) ==> p == start
      decreases |base.lists| - f
    {
      p := FitList(size, base, p, maxChars, f);
      f := f + 1;
    }
  }

  method FitObjective(size: Packet -> nat, start: Packet, maxChars: nat) returns (p: Packet)
    requires Oversized(size, maxChars, start) ==> start.findings == [] && NoLists(start)
    ensures p == start.(objective := p.objective) && ObjectiveCut(start, p) && ObjectiveNeeded(size, maxChars, start, p)
    ensures Oversized(size, maxChars, p) ==> p.findings == [] && NoLists(p) && |p.objective| <= 16
    ensures !Oversized(size, maxChars, start) ==> p == start
  {
    p := start;
    while Oversized(size, maxChars, p) && |p.objective| > 16
      invariant p == start.(objective := p.objective) && ObjectiveCut(start, p) && ObjectiveNeeded(size, maxChars, start, p)
      invariant |p.objective| > 16 ==> (|start.objective| - |p.objective|) % 64 == 0
      invariant !Oversized(size, maxChars, start) ==> p == start
      decreases |p.objective|
    {
      ghost var before := p;
      var length := if |p.objective| - 64 < 16 then 16 else |p.objective| - 64;
      p := p.(objective := p.objective[..length]);
      assert before == p.(objective := start.objective[..|before.objective|]);
      assert LastLength(size, maxChars, start, p, |before.objective|);
    }
  }

  /**
   Trim in order until the packet fits, and no further: before each last cut
   the packet was still too long, and one that fits is returned as it is. It
   throws only when nothing is left to trim; what it returns fits.
   */
  method FitPacketBudget(size: Packet -> nat, base: Packet, selection: Selection, maxChars: nat) returns (p: Packet, ok: bool)
    ensures FindingsCut(base, selection, p) && ListsCut(base, p) && ObjectiveCut(base, p)
    ensures FindingsNeeded(size, maxChars, base, selection, p.(lists := base.lists, objective := base.objective))
    ensures ListsNeeded(size, maxChars, base, p.(objective := base.objective)) && ObjectiveNeeded(size, maxChars, base, p)
    ensures size(Candidate(base, selection)) <= maxChars ==> p == Candidate(base, selection) && ok
    ensures ok <==> size(p) <= maxChars
    ensures !ok ==> p.findings == [] && NoLists(p) && |p.objective| <= 16
  {
    hide FindingsCut, ListsCut, ObjectiveCut, NoLists, FindingsNeeded, ListsNeeded, ObjectiveNeeded;
    var first := FitFindings(size, base, selection, maxChars);
    var second := FitLists(size, base, first, maxChars);
    p := FitObjective(size, second, maxChars);
    StagesCompose(base, selection, first, second, p);
    NeedsCompose(size, maxChars, base, first, second, p);
    ok := !Oversized(size, maxChars, p);
  }

  lemma NeedsCompose(size: Packet -> nat, maxChars: nat, base: Packet, first: Packet, second: Packet, p: Packet)
    requires first.lists == base.lists && first.objective == base.objective && second == first.(lists := second.lists)
    requires p == second.(objective := p.objective) && ObjectiveNeeded(size, maxChars, second, p)
    ensures first == p.(lists := base.lists, objective := base.objective) && second == p.(objective := base.objective)
    ensures ObjectiveNeeded(size, maxChars, base, p)
  {
    if p.objective != base.objective {
      var length :| LastLength(size, maxChars, second, p, length);
      assert LastLength(size, maxChars, base, p, length);
    }
  }

  lemma StagesCompose(base: Packet, selection: Selection, first: Packet, second: Packet, p: Packet)
    requires FindingsCut(base, selection, first) && first.lists == base.lists && first.objective == base.objective
    requires second == first.(lists := second.lists) && ListsCut(base, second)
    requires p == second.(objective := p.objective) && ObjectiveCut(second, p)
    ensures FindingsCut(base, selection, p) && ListsCut(base, p) && ObjectiveCut(base, p)
  {}

  /** From the source items to the packet, nothing is lost from the count. */
  lemma PacketCount(items: seq<Item>, request: Request, selection: Selection, base: Packet, p: Packet)
    requires |selection.items| + selection.omittedCount == |Admitted(items)| + |RefusedIds(items)| + |UnknownIds(items, request)|
    requires base.findings == selection.items && FindingsCut(base, selection, p)
    ensures |p.findings| + p.omittedCount == |items| + |UnknownIds(items, request)| <==> RefusedApart(items)
  {
    hide Admitted, Refused, RefusedApart;
    CountLaw(items, request);
  }
}
