/** Snapshot destinations claimed twice, and the decision whether a run may start (internal/controller/helpers.go). */
module RunSet {
  import opened Wrappers
  import opened Text
  import opened Ordering
  import opened Paths
  import opened Destinations
  import opened Attachment
  import opened MirrorOverlaps

  /** What must be claimed only once: a path of a namespace (the machine is fixed). */
  datatype Slot = Slot(ns: string, path: string)

  /** The sources attached to a snapshot machine that claim a slot. */
  ghost predicate Claims(machine: Machine, sources: Sources, slot: Slot, x: Name) {
    !IsMirror(machine) && Attached(machine, sources, x) && x.ns == slot.ns
    && CleanRelative(sources[x].destinationPath) == Ok(slot.path)
  }

  datatype Conflict = Conflict(slot: Slot, sources: seq<Name>)

  /** The sort key, without the machine, which is the same for all conflicts of one machine. */
  function SlotKey(slot: Slot): string {
    slot.ns + [0 as char] + slot.path
  }

  predicate ConflictLess(a: Conflict, b: Conflict) { Less(SlotKey(a.slot), SlotKey(b.slot)) }

  ghost predicate CleanDestinations(machine: Machine, sources: Sources) {
    forall n :: Attached(machine, sources, n) ==> CleanRelative(sources[n].destinationPath).Ok?
  }

  /** Sorted, one entry for each slot claimed more than once, listing exactly its claimants, sorted. */
  ghost predicate ConflictReport(machine: Machine, sources: Sources, r: seq<Conflict>) {
    Increasing(r, ConflictLess)
    && (forall c :: c in r ==>
          |c.sources| > 1 && Increasing(c.sources, NameLess) &&
          forall x :: x in c.sources <==> Claims(machine, sources, c.slot, x))
    && (forall slot, x, y :: Claims(machine, sources, slot, x) && Claims(machine, sources, slot, y) && x != y ==>
          exists c :: c in r && c.slot == slot)
  }

  /** `list` holds exactly the claimants of `slot` outside `todo`. */
  ghost predicate ListFor(machine: Machine, sources: Sources, todo: set<Name>, slot: Slot, list: seq<Name>) {
    NoDuplicates(list) && forall x :: x in list <==> Claims(machine, sources, slot, x) && x !in todo
  }

  ghost predicate ClaimLists(machine: Machine, sources: Sources, todo: set<Name>, lists: map<Slot, seq<Name>>) {
    (forall slot :: slot in lists ==> ListFor(machine, sources, todo, slot, lists[slot])) &&
    (forall slot, x :: Claims(machine, sources, slot, x) && x !in todo ==> slot in lists)
  }

  method DetectDestinationPathConflicts(machine: Machine, sources: Sources) returns (r: Result<seq<Conflict>>)
    requires ValidNames(sources)
    ensures r.Err? <==> !IsMirror(machine) && !CleanDestinations(machine, sources)
    ensures r.Ok? ==> ConflictReport(machine, sources, r.value)
  {
    hide NamespaceAllowed, ResolveReference, CleanRelative;
    var lists: map<Slot, seq<Name>> := map[];
    var todo := sources.Keys;
    while todo != {}
      invariant todo <= sources.Keys
      invariant ClaimLists(machine, sources, todo, lists)
      invariant !IsMirror(machine) ==>
        forall n :: Attached(machine, sources, n) && n !in todo ==> CleanRelative(sources[n].destinationPath).Ok?
      decreases todo
    {
      var n :| n in todo;
      ghost var before := todo;
      todo := todo - {n};
      if !Attached(machine, sources, n) || IsMirror(machine) {
        ClaimListsSkip(machine, sources, todo, n, lists);
        continue;
      }
      var cleaned := CleanRelative(sources[n].destinationPath);
      if cleaned.Err? {
        return Err(cleaned.problem);
      }
      assert before == todo + {n};
      var slot := Slot(n.ns, cleaned.value);
      var list := if slot in lists then lists[slot] else [];
      ClaimListsStep(machine, sources, todo, n, lists, slot, list);
      lists := lists[slot := list + [n]];
    }
    var conflicts := ListConflicts(lists, machine, sources);
    return Ok(conflicts);
  }

  lemma ClaimListsSkip(machine: Machine, sources: Sources, todo: set<Name>, n: Name, lists: map<Slot, seq<Name>>)
    requires ClaimLists(machine, sources, todo + {n}, lists) && (!Attached(machine, sources, n) || IsMirror(machine))
    ensures ClaimLists(machine, sources, todo, lists)
  {
    forall slot | slot in lists ensures ListFor(machine, sources, todo, slot, lists[slot]) {
      assert ListFor(machine, sources, todo + {n}, slot, lists[slot]);
    }
  }

  lemma ClaimListsStep(machine: Machine, sources: Sources, todo: set<Name>, n: Name,
                       lists: map<Slot, seq<Name>>, slot: Slot, list: seq<Name>)
    requires ClaimLists(machine, sources, todo + {n}, lists) && n !in todo && Claims(machine, sources, slot, n)
    requires list == if slot in lists then lists[slot] else []
    ensures ClaimLists(machine, sources, todo, lists[slot := list + [n]])
  {
    assert slot in lists ==> ListFor(machine, sources, todo + {n}, slot, lists[slot]);
    assert forall x :: x in list <==> Claims(machine, sources, slot, x) && x !in todo + {n};
    assert ListFor(machine, sources, todo, slot, list + [n]);
    forall s | s in lists && s != slot ensures ListFor(machine, sources, todo, s, lists[s]) {
      assert ListFor(machine, sources, todo + {n}, s, lists[s]);
    }
  }

  /** `c` is the report's entry for `slot`. */
  ghost predicate Reports(lists: map<Slot, seq<Name>>, c: Conflict) {
    c.slot in lists && |lists[c.slot]| > 1 && NoDuplicates(c.sources) && Increasing(c.sources, NameLess)
    && forall x :: x in c.sources <==> x in lists[c.slot]
  }

  method ListConflicts(lists: map<Slot, seq<Name>>, ghost machine: Machine, ghost sources: Sources)
    returns (r: seq<Conflict>)
    requires ValidNames(sources) && ClaimLists(machine, sources, {}, lists)
    ensures ConflictReport(machine, sources, r)
  {
    r := [];
    var todo := lists.Keys;
    while todo != {}
      invariant todo <= lists.Keys
      invariant forall c :: c in r ==> Reports(lists, c) && c.slot !in todo
      invariant forall slot :: slot in lists.Keys - todo && |lists[slot]| > 1 ==> exists c :: c in r && c.slot == slot
      invariant DifferentSlots(r)
      decreases todo
    {
      var slot :| slot in todo;
      todo := todo - {slot};
      if |lists[slot]| <= 1 {
        continue;
      }
      assert ListFor(machine, sources, {}, slot, lists[slot]);
      var sorted := SortNames(lists[slot]);
      ghost var before := r;
      r := r + [Conflict(slot, sorted)];
      assert forall c :: c in r <==> c in before || c == Conflict(slot, sorted);
    }
    ghost var listed := r;
    ConflictOrder(machine, sources, lists, r);
    SortByIncreasing(r, ConflictLess);
    r := SortBy(r, ConflictLess);
    CompleteReport(machine, sources, lists, listed, r);
  }

  ghost predicate DifferentSlots(r: seq<Conflict>) {
    forall i, j :: 0 <= i < j < |r| ==> r[i].slot != r[j].slot
  }

  lemma CompleteReport(machine: Machine, sources: Sources, lists: map<Slot, seq<Name>>, listed: seq<Conflict>,
                       r: seq<Conflict>)
    requires ClaimLists(machine, sources, {}, lists)
    requires forall c :: c in listed ==> Reports(lists, c)
    requires forall slot :: slot in lists && |lists[slot]| > 1 ==> exists c :: c in listed && c.slot == slot
    requires Increasing(r, ConflictLess) && forall c :: c in r <==> c in listed
    ensures ConflictReport(machine, sources, r)
  {
    forall c | c in r
      ensures |c.sources| > 1 && Increasing(c.sources, NameLess)
      ensures forall x :: x in c.sources <==> Claims(machine, sources, c.slot, x)
    {
      assert Reports(lists, c);
      assert ListFor(machine, sources, {}, c.slot, lists[c.slot]);
      SameLength(c.sources, lists[c.slot]);
    }
    forall slot, x, y | Claims(machine, sources, slot, x) && Claims(machine, sources, slot, y) && x != y
      ensures exists c :: c in r && c.slot == slot
    {
      assert ListFor(machine, sources, {}, slot, lists[slot]);
      TwoElements(lists[slot], x, y);
    }
  }

  lemma SameLength(a: seq<Name>, b: seq<Name>)
    requires NoDuplicates(a) && NoDuplicates(b) && forall x :: x in a <==> x in b
    ensures |a| == |b|
  {
    DistinctCount(a);
    DistinctCount(b);
    assert Elements(a) == Elements(b);
  }

  lemma TwoElements(list: seq<Name>, x: Name, y: Name)
    requires x in list && y in list && x != y
    ensures |list| > 1
  {
    var i :| 0 <= i < |list| && list[i] == x;
    var j :| 0 <= j < |list| && list[j] == y;
  }

  lemma ConflictOrder(machine: Machine, sources: Sources, lists: map<Slot, seq<Name>>, r: seq<Conflict>)
    requires ValidNames(sources) && ClaimLists(machine, sources, {}, lists) && DifferentSlots(r)
    requires forall c :: c in r ==> Reports(lists, c)
    ensures Transitive(ConflictLess) && Comparable(r, ConflictLess) && NoDuplicates(r)
  {
    forall a: Conflict, b: Conflict, c: Conflict | ConflictLess(a, b) && ConflictLess(b, c) ensures ConflictLess(a, c) {
      LessTransitive(SlotKey(a.slot), SlotKey(b.slot), SlotKey(c.slot));
    }
    forall i | 0 <= i < |r| ensures IsDnsLabel(r[i].slot.ns) {
      assert Reports(lists, r[i]);
      assert ListFor(machine, sources, {}, r[i].slot, lists[r[i].slot]);
      assert Claims(machine, sources, r[i].slot, lists[r[i].slot][0]);
    }
    forall i, j | 0 <= i < |r| && 0 <= j < |r| && r[i] != r[j]
      ensures ConflictLess(r[i], r[j]) || ConflictLess(r[j], r[i])
    {
      SlotKeyInjective(r[i].slot, r[j].slot);
      LessTrichotomy(SlotKey(r[i].slot), SlotKey(r[j].slot));
    }
  }

  lemma SlotKeyInjective(a: Slot, b: Slot)
    requires IsDnsLabel(a.ns) && IsDnsLabel(b.ns)
    ensures SlotKey(a) == SlotKey(b) ==> a == b
  {
    if SlotKey(a) == SlotKey(b) {
      FirstSeparator(a.ns, a.path, b.ns, b.path, 0 as char);
    }
  }

  // ---------------------------------------------------------------- the run set

  /** Two attached sources of one namespace with the same cleaned path. */
  ghost predicate SnapshotClash(machine: Machine, sources: Sources) {
    exists x, y :: Attached(machine, sources, x) && Attached(machine, sources, y) && x != y && x.ns == y.ns
      && CleanRelative(sources[x].destinationPath) == CleanRelative(sources[y].destinationPath)
  }

  /** Two attached sources with nested destinations, one of which deletes. */
  ghost predicate MirrorClash(machine: Machine, sources: Sources)
    requires CleanPaths(machine, sources)
  {
    exists x, y :: Attached(machine, sources, x) && Attached(machine, sources, y) && x != y
      && Conflicting(ClaimOf(sources, x), ClaimOf(sources, y))
  }

  /** When a run may start at all. */
  ghost predicate Runnable(machine: Machine, sources: Sources) {
    machine.strategy.Some? && (IsMirror(machine) ==> machine.retentionEmpty)
    && CleanDestinations(machine, sources)
    && (if IsMirror(machine) then CleanPaths(machine, sources) && !MirrorClash(machine, sources)
        else !SnapshotClash(machine, sources))
    && exists n :: Attached(machine, sources, n)
  }

  /** A path that one of the cleaning steps accepts is accepted by all of them. */
  lemma CleanEverywhere(machine: Machine, sources: Sources)
    requires ValidNames(sources)
    ensures CleanDestinations(machine, sources) <==> CleanPaths(machine, sources)
    ensures CleanDestinations(machine, sources) ==>
      forall n, strategy :: Attached(machine, sources, n) ==> Effective(strategy, n.ns, sources[n].destinationPath).Ok?
  {
  }

  lemma ConflictsIffClash(machine: Machine, sources: Sources, r: seq<Conflict>)
    requires CleanDestinations(machine, sources) && ConflictReport(machine, sources, r)
    ensures r != [] <==> !IsMirror(machine) && SnapshotClash(machine, sources)
  {
    if r != [] {
      var c := r[0];
      assert c in r && c.sources[0] in c.sources && c.sources[1] in c.sources;
      assert NameLess(c.sources[0], c.sources[1]);
      LessTrichotomy(c.sources[0].ToText(), c.sources[1].ToText());
      assert Claims(machine, sources, c.slot, c.sources[0]) && Claims(machine, sources, c.slot, c.sources[1]);
    }
    if !IsMirror(machine) && SnapshotClash(machine, sources) {
      var x, y :| Attached(machine, sources, x) && Attached(machine, sources, y) && x != y && x.ns == y.ns
        && CleanRelative(sources[x].destinationPath) == CleanRelative(sources[y].destinationPath);
      var slot := Slot(x.ns, CleanRelative(sources[x].destinationPath).value);
      assert Claims(machine, sources, slot, x) && Claims(machine, sources, slot, y);
    }
  }

  lemma OverlapsIffClash(machine: Machine, sources: Sources, r: seq<Overlap>)
    requires CleanPaths(machine, sources) && OverlapReport(machine, sources, r)
    ensures r != [] <==> MirrorClash(machine, sources)
  {
    if r != [] {
      var o := r[0];
      assert o in r && o.sources[0] in o.sources;
      assert Involved(machine, sources, o.path, o.sources[0]);
    }
    if MirrorClash(machine, sources) {
      var x, y :| Attached(machine, sources, x) && Attached(machine, sources, y) && x != y
        && Conflicting(ClaimOf(sources, x), ClaimOf(sources, y));
      assert Involved(machine, sources, MirrorOverlapPath(ClaimOf(sources, x).path, ClaimOf(sources, y).path), x);
    }
  }

  /** The attached sources, sorted by name. */
  method AttachedNames(machine: Machine, sources: Sources) returns (refs: seq<Name>)
    requires ValidNames(sources)
    ensures Increasing(refs, NameLess) && NoDuplicates(refs)
    ensures forall n :: n in refs <==> Attached(machine, sources, n)
  {
    hide NamespaceAllowed, ResolveReference;
    refs := [];
    var todo := sources.Keys;
    while todo != {}
      invariant todo <= sources.Keys && NoDuplicates(refs)
      invariant forall n :: n in refs <==> Attached(machine, sources, n) && n !in todo
      decreases todo
    {
      var n :| n in todo;
      todo := todo - {n};
      if Attached(machine, sources, n) {
        refs := refs + [n];
      }
    }
    refs := SortNames(refs);
  }

  method ResolveAll(strategy: Strategy, sources: Sources, refs: seq<Name>) returns (r: Result<seq<Resolved>>)
    requires NoDuplicates(refs) && forall n :: n in refs ==> n in sources && n.Valid()
    ensures r.Err? <==> exists n :: n in refs && Effective(strategy, n.ns, sources[n].destinationPath).Err?
    ensures r.Ok? ==> |r.value| == |refs| && forall i :: 0 <= i < |refs| ==> r.value[i].ref == refs[i]
    ensures r.Ok? ==> RunSources(strategy, r.value)
  {
    var out: seq<Resolved> := [];
    for i := 0 to |refs|
      invariant |out| == i && forall k :: 0 <= k < i ==> out[k].ref == refs[k] && ResolvedOf(strategy, sources, out[k])
    {
      assert refs[i] in refs;
      var effective := Effective(strategy, refs[i].ns, sources[refs[i]].destinationPath);
      if effective.Err? {
        return Err(effective.problem);
      }
      out := out + [Resolved(refs[i], sources[refs[i]].destinationPath, effective.value)];
    }
    forall n | n in refs ensures Effective(strategy, n.ns, sources[n].destinationPath).Ok? {
      var k :| 0 <= k < |refs| && refs[k] == n;
      assert ResolvedOf(strategy, sources, out[k]);
    }
    assert forall k :: 0 <= k < |refs| ==> refs[k] in refs;
    return Ok(out);
  }

  ghost predicate ResolvedOf(strategy: Strategy, sources: Sources, s: Resolved) {
    s.ref in sources && s.destinationPath == sources[s.ref].destinationPath
    && Effective(strategy, s.ref.ns, s.destinationPath) == Ok(s.effective)
  }

  method CalculateTargetRunSet(machine: Machine, sources: Sources) returns (r: Result<seq<Resolved>>)
    requires ValidNames(sources)
    ensures r.Ok? <==> Runnable(machine, sources)
    ensures r.Ok? ==> RunSources(machine.strategy.value, r.value)
    ensures r.Ok? ==> forall n :: n in Refs(r.value) <==> Attached(machine, sources, n)
    ensures r.Ok? ==> forall i, j :: 0 <= i < j < |r.value| ==> NameLess(r.value[i].ref, r.value[j].ref)
  {
    if machine.strategy.None? {
      return Err(UnsupportedStrategy);
    }
    if IsMirror(machine) && !machine.retentionEmpty {
      return Err(RetentionNotEmpty);
    }
    CleanEverywhere(machine, sources);
    var conflicts := DetectDestinationPathConflicts(machine, sources);
    if conflicts.Err? {
      return Err(conflicts.problem);
    }
    if CleanDestinations(machine, sources) {
      ConflictsIffClash(machine, sources, conflicts.value);
    }
    if conflicts.value != [] {
      return Err(PathConflict);
    }
    var overlaps := DetectMirrorDestinationPathOverlaps(machine, sources);
    if overlaps.Err? {
      return Err(overlaps.problem);
    }
    if IsMirror(machine) {
      OverlapsIffClash(machine, sources, overlaps.value);
    }
    if overlaps.value != [] {
      return Err(PathOverlap);
    }
    var refs := AttachedNames(machine, sources);
    r := ResolveAll(machine.strategy.value, sources, refs);
    if r.Ok? {
      RefsOf(r.value, refs);
      if r.value == [] {
        return Err(NoSources);
      }
      assert refs[0] in refs;
    }
  }

  lemma RefsOf(resolved: seq<Resolved>, refs: seq<Name>)
    requires |resolved| == |refs| && forall i :: 0 <= i < |refs| ==> resolved[i].ref == refs[i]
    ensures forall n :: n in Refs(resolved) <==> n in refs
  {
    forall n | n in refs ensures n in Refs(resolved) {
      var i :| 0 <= i < |refs| && refs[i] == n;
      assert resolved[i] in resolved;
    }
  }

  /** The report goes by namespace and then by path, and the sources of an entry by rising name. */
  lemma ConflictOrderIsBySlot(machine: Machine, sources: Sources, r: seq<Conflict>, i: nat, j: nat)
    requires ConflictReport(machine, sources, r) && i < j < |r| && r[i].slot.ns == r[j].slot.ns
    ensures Less(r[i].slot.path, r[j].slot.path)
  {
    assert ConflictLess(r[i], r[j]);
    var prefix := r[i].slot.ns + [0 as char];
    assert SlotKey(r[i].slot) == prefix + r[i].slot.path && SlotKey(r[j].slot) == prefix + r[j].slot.path;
    LessAfter(prefix, r[i].slot.path, r[j].slot.path);
  }
}
