/** Pruning snapshots until enough space is free (internal/dataplane/snapshot.go). Snapshots share files by hard links,
    so removing one frees only the files that no other tree links. */
module SpaceRecovery {
  import opened Wrappers
  import opened Text
  import opened Ordering
  import opened Paths
  import opened Volume
  import opened SnapshotStore
  import opened Pruning
  import opened StoreCalls

  // ---------------------------------------------------------------- free space

  function LinkedInodes(d: Disk): set<nat> {
    set r, p | r in d.trees && p in d.trees[r] && d.trees[r][p].File? :: d.trees[r][p].inode
  }

  function SpaceOf(files: map<nat, Data>, i: nat): nat {
    if i in files then files[i].space else 0
  }

  ghost function Space(files: map<nat, Data>, inodes: set<nat>): nat {
    if inodes == {} then 0
    else
      var i :| i in inodes;
      SpaceOf(files, i) + Space(files, inodes - {i})
  }

  lemma {:induction false} SpaceWithout(files: map<nat, Data>, inodes: set<nat>, i: nat)
    requires i in inodes
    ensures Space(files, inodes) == SpaceOf(files, i) + Space(files, inodes - {i})
  {
    var j :| j in inodes && Space(files, inodes) == SpaceOf(files, j) + Space(files, inodes - {j});
    if i != j {
      SpaceWithout(files, inodes - {j}, i);
      SpaceWithout(files, inodes - {i}, j);
      assert inodes - {j} - {i} == inodes - {i} - {j};
    }
  }

  lemma {:induction false} SpaceSplit(files: map<nat, Data>, all: set<nat>, part: set<nat>)
    requires part <= all
    ensures Space(files, all) == Space(files, part) + Space(files, all - part)
  {
    if part == {} {
      assert all - part == all;
    } else {
      var i :| i in part;
      SpaceWithout(files, all, i);
      SpaceWithout(files, part, i);
      SpaceSplit(files, all - {i}, part - {i});
      assert all - {i} - (part - {i}) == all - part;
    }
  }

  /** `AvailableBytes` of a volume of the given capacity. */
  ghost function Available(d: Disk, capacity: int): int {
    capacity - Space(d.files, LinkedInodes(d))
  }

  /** Removing trees frees exactly the files that no remaining tree links. */
  lemma FreedByRemoval(d: Disk, roots: set<Root>, capacity: int)
    ensures Available(Without(d, roots), capacity) - Available(d, capacity)
      == Space(d.files, LinkedInodes(d) - LinkedInodes(Without(d, roots)))
  {
    SpaceSplit(d.files, LinkedInodes(d), LinkedInodes(Without(d, roots)));
  }

  /** Pruning a snapshot with one file of its own frees the space of that file. */
  lemma OwnFileIsFreed(d: Disk, r: Root, path: seq<string>, capacity: int)
    requires r in d.trees && path in d.trees[r] && d.trees[r][path].File? && d.trees[r][path].inode in d.files
    requires forall r', p' | r' in d.trees && p' in d.trees[r'] :: d.trees[r'][p'] == d.trees[r][path] ==> r' == r
    requires forall p | p in d.trees[r] && d.trees[r][p].File? && d.trees[r][p] != d.trees[r][path] ::
      exists r', p' :: r' in d.trees && r' != r && p' in d.trees[r'] && d.trees[r'][p'] == d.trees[r][p]
    ensures Available(Without(d, {r}), capacity) - Available(d, capacity) == d.files[d.trees[r][path].inode].space
  {
    var i, e := d.trees[r][path].inode, Without(d, {r});
    forall j ensures j in LinkedInodes(d) - LinkedInodes(e) <==> j == i {
      if j in LinkedInodes(d) && j != i {
        var q, p :| q in d.trees && p in d.trees[q] && d.trees[q][p].File? && d.trees[q][p].inode == j;
        if q == r {
          var r', p' :| r' in d.trees && r' != r && p' in d.trees[r'] && d.trees[r'][p'] == d.trees[r][p];
          assert r' in e.trees;
        } else {
          assert q in e.trees;
        }
      }
    }
    assert LinkedInodes(d) - LinkedInodes(e) == {i};
    FreedByRemoval(d, {r}, capacity);
    SpaceWithout(d.files, {i}, i);
    assert {i} - {i} == {};
  }

  /** Pruning a snapshot whose files are all linked from other trees frees nothing. */
  lemma SharedSnapshotFreesNothing(d: Disk, r: Root, capacity: int)
    requires r in d.trees
    requires forall p | p in d.trees[r] && d.trees[r][p].File? ::
      exists r', p' :: r' in d.trees && r' != r && p' in d.trees[r'] && d.trees[r'][p'] == d.trees[r][p]
    ensures Available(Without(d, {r}), capacity) == Available(d, capacity)
  {
    forall i ensures i in LinkedInodes(d) <==> i in LinkedInodes(Without(d, {r})) {
      if i in LinkedInodes(d) {
        var q, p :| q in d.trees && p in d.trees[q] && d.trees[q][p].File? && d.trees[q][p].inode == i;
        if q == r {
          var r', p' :| r' in d.trees && r' != r && p' in d.trees[r'] && d.trees[r'][p'] == d.trees[r][p];
          assert r' in Without(d, {r}).trees;
        } else {
          assert q in Without(d, {r}).trees;
        }
      }
    }
    assert LinkedInodes(d) == LinkedInodes(Without(d, {r}));
  }

  // ---------------------------------------------------------------- candidates

  predicate Older(modified: Root -> int, a: Root, b: Root) {
    modified(a) < modified(b) || (modified(a) == modified(b) && Less(a.ToText(), b.ToText()))
  }

  predicate Removable(d: Disk, r: Root) {
    r.dir in TIERS && IsTree(d, r)
  }

  predicate Readable(d: Disk) {
    forall t :: t in TIERS && t in d.tops ==> d.tops[t].Folder?
  }

  lemma OlderIsStrictOrder(modified: Root -> int)
    ensures Transitive((a, b) => Older(modified, a, b)) && Asymmetric((a, b) => Older(modified, a, b))
  {
    var lt := (a, b) => Older(modified, a, b);
    forall a: Root, b: Root, c: Root | lt(a, b) && lt(b, c) ensures lt(a, c) {
      if modified(a) == modified(b) == modified(c) { LessTransitive(a.ToText(), b.ToText(), c.ToText()); }
    }
    forall a: Root, b: Root | lt(a, b) ensures !lt(b, a) {
      LessTrichotomy(a.ToText(), b.ToText());
    }
  }

  lemma OlderComparable(modified: Root -> int, s: seq<Root>)
    requires forall r :: r in s ==> r.dir in TIERS
    ensures Comparable(s, (a, b) => Older(modified, a, b))
  {
    forall i, j | 0 <= i < |s| && 0 <= j < |s| && s[i] != s[j]
      ensures Older(modified, s[i], s[j]) || Older(modified, s[j], s[i])
    {
      LessTrichotomy(s[i].ToText(), s[j].ToText());
      if s[i].ToText() == s[j].ToText() {
        assert '/' !in s[i].dir && '/' !in s[j].dir;
        FirstSeparator(s[i].dir, s[i].name, s[j].dir, s[j].name, '/');
      }
    }
  }

  /** `removableSnapshots`: the snapshots, least recently modified first. */
  method RemovableSnapshots(d: Disk, modified: Root -> int) returns (r: Option<seq<Root>>)
    ensures r.Some? <==> Readable(d)
    ensures r.Some? ==> Increasing(r.value, (a, b) => Older(modified, a, b))
    ensures r.Some? ==> forall x :: x in r.value <==> Removable(d, x)
  {
    if !Readable(d) {
      return None;
    }
    var infos: seq<Root> := [];
    var todo := set x | x in d.trees && Removable(d, x);
    while todo != {}
      invariant NoDuplicates(infos) && forall x :: x in infos ==> x !in todo
      invariant forall x :: Removable(d, x) <==> x in infos || x in todo
      decreases todo
    {
      var x :| x in todo;
      todo := todo - {x};
      infos := infos + [x];
    }
    OlderIsStrictOrder(modified);
    OlderComparable(modified, infos);
    SortByIncreasing(infos, (a, b) => Older(modified, a, b));
    return Some(SortBy(infos, (a, b) => Older(modified, a, b)));
  }

  // ---------------------------------------------------------------- recovering

  /** The normal forms of the protected snapshots. */
  method Protect(snapshots: seq<string>) returns (r: Option<set<string>>)
    ensures r.Some? <==> forall s :: s in snapshots ==> NormalizeRelative(s).Ok?
    ensures r.Some? ==> r.value == ProtectedNames(snapshots)
  {
    var names: set<string> := {};
    for i := 0 to |snapshots|
      invariant forall k :: 0 <= k < i ==> NormalizeRelative(snapshots[k]).Ok?
      invariant names == ProtectedNames(snapshots[..i])
    {
      hide NormalizeRelative;
      var normal := NormalizeRelativePath(snapshots[i]);
      if normal.Err? {
        assert snapshots[i] in snapshots;
        return None;
      }
      ProtectedStep(snapshots, i);
      names := names + {normal.value};
    }
    assert snapshots[..|snapshots|] == snapshots;
    return Some(names);
  }

  lemma ProtectedStep(snapshots: seq<string>, i: nat)
    requires i < |snapshots| && NormalizeRelative(snapshots[i]).Ok?
    ensures ProtectedNames(snapshots[..i + 1]) ==
      ProtectedNames(snapshots[..i]) + {NormalizeRelative(snapshots[i]).value}
  {
    hide NormalizeRelative;
    assert snapshots[..i + 1] == snapshots[..i] + [snapshots[i]];
  }

  function ProtectedNames(snapshots: seq<string>): set<string> {
    set s | s in snapshots && NormalizeRelative(s).Ok? :: NormalizeRelative(s).value
  }

  /** The unprotected ones, in the same order. */
  function Unprotected(candidates: seq<Root>, names: set<string>): (r: seq<Root>)
    ensures forall x :: x in r <==> x in candidates && x.ToText() !in names
  {
    if candidates == [] then []
    else
      var last := candidates[|candidates| - 1];
      assert candidates == candidates[..|candidates| - 1] + [last];
      Unprotected(candidates[..|candidates| - 1], names) + if last.ToText() in names then [] else [last]
  }

  /** The first `k` victims are gone; before each removal space was short, and at the end it suffices or nothing more
      can be removed. */
  ghost predicate Recovered(d: Disk, victims: seq<Root>, capacity: int, least: int, k: nat, ok: bool, e: Disk) {
    k <= |victims| && e == Without(d, Elements(victims[..k]))
    && (forall j :: 0 <= j < k ==> Available(Without(d, Elements(victims[..j])), capacity) < least)
    && (ok <==> Available(e, capacity) >= least)
    && (!ok ==> k == |victims|)
  }

  /** The victims of a call: the unprotected snapshots, least recently modified first. */
  ghost predicate Victims(d: Disk, modified: Root -> int, protectedSnapshots: seq<string>, victims: seq<Root>) {
    Increasing(victims, (a, b) => Older(modified, a, b))
    && forall r :: r in victims <==> Removable(d, r) && r.ToText() !in ProtectedNames(protectedSnapshots)
  }

  /** What RecoverSpace promises: it removes the shortest prefix of the victims that frees enough. */
  lemma RecoveredIsMinimal(d: Disk, victims: seq<Root>, capacity: int, least: int, k: nat, ok: bool, e: Disk)
    requires Recovered(d, victims, capacity, least, k, ok, e)
    ensures ok <==> exists n :: 0 <= n <= |victims| && Available(Without(d, Elements(victims[..n])), capacity) >= least
    ensures ok ==> forall n :: 0 <= n <= |victims| ==>
      (Available(Without(d, Elements(victims[..n])), capacity) >= least <==> k <= n)
  {
    forall m, n | 0 <= m <= n <= |victims|
      ensures Available(Without(d, Elements(victims[..m])), capacity)
           <= Available(Without(d, Elements(victims[..n])), capacity)
    {
      MoreIsFreed(d, Elements(victims[..m]), Elements(victims[..n]), capacity, victims, m, n);
    }
  }

  lemma MoreIsFreed(d: Disk, a: set<Root>, b: set<Root>, capacity: int, victims: seq<Root>, m: nat, n: nat)
    requires m <= n <= |victims| && a == Elements(victims[..m]) && b == Elements(victims[..n])
    ensures Available(Without(d, a), capacity) <= Available(Without(d, b), capacity)
  {
    assert victims[..m] == victims[..n][..m];
    assert a <= b;
    assert Without(Without(d, a), b).trees == Without(d, b).trees;
    FreedByRemoval(Without(d, a), b, capacity);
  }

  /** One of the given snapshots names the root, in any spelling that normalises to its path. */
  predicate Protects(protectedSnapshots: seq<string>, r: Root) {
    exists s :: s in protectedSnapshots && NormalizeRelative(s) == Ok(r.ToText())
  }

  /** The protected snapshots, and everything that is not a directory in a tier, survive; after a failure no other
      snapshot is left. */
  lemma ProtectedSurvive(d: Disk, modified: Root -> int, protectedSnapshots: seq<string>, victims: seq<Root>,
                         capacity: int, least: int, k: nat, ok: bool, e: Disk)
    requires Victims(d, modified, protectedSnapshots, victims) && Recovered(d, victims, capacity, least, k, ok, e)
    ensures forall r :: r in d.trees && (Protects(protectedSnapshots, r) || r.dir !in TIERS || !IsTree(d, r)) ==>
      r in e.trees && e.trees[r] == d.trees[r]
    ensures !ok ==> forall r :: r in e.trees && r.dir in TIERS && IsTree(e, r) ==> Protects(protectedSnapshots, r)
  {
    if !ok {
      assert victims[..k] == victims;
    }
    forall r ensures Protects(protectedSnapshots, r) <==> r.ToText() in ProtectedNames(protectedSnapshots) {
      ProtectedByName(protectedSnapshots, r);
    }
    hide Protects, ProtectedNames, Older, Available;
  }

  lemma ProtectedByName(protectedSnapshots: seq<string>, r: Root)
    ensures Protects(protectedSnapshots, r) <==> r.ToText() in ProtectedNames(protectedSnapshots)
  {
    hide NormalizeRelative;
  }

  /** What is removed was modified before everything that could have been removed and is still there, and the list goes
      from the least recently modified on; the name decides between equal times. */
  lemma OldestGoFirst(d: Disk, modified: Root -> int, protectedSnapshots: seq<string>, victims: seq<Root>,
                      capacity: int, least: int, k: nat, ok: bool, e: Disk)
    requires Victims(d, modified, protectedSnapshots, victims) && Recovered(d, victims, capacity, least, k, ok, e)
    ensures forall r, s | r in d.trees && r !in e.trees && s in e.trees && s.dir in TIERS && IsTree(d, s)
                          && !Protects(protectedSnapshots, s) ::
      modified(r) < modified(s) || (modified(r) == modified(s) && Less(r.ToText(), s.ToText()))
    ensures forall i, j | 0 <= i < j < k ::
      modified(victims[i]) < modified(victims[j])
      || (modified(victims[i]) == modified(victims[j]) && Less(victims[i].ToText(), victims[j].ToText()))
  {
    hide ProtectedNames, Protects, Available, Less;
    forall r, s | r in d.trees && r !in e.trees && s in e.trees && s.dir in TIERS && IsTree(d, s)
                  && !Protects(protectedSnapshots, s)
      ensures modified(r) < modified(s) || (modified(r) == modified(s) && Less(r.ToText(), s.ToText()))
    {
      ProtectedByName(protectedSnapshots, s);
      var i :| 0 <= i < k && victims[i] == r;
      var j :| 0 <= j < |victims| && victims[j] == s;
      assert k <= j;
    }
  }

  lemma {:induction false} UnprotectedPrefix(candidates: seq<Root>, names: set<string>, i: nat)
    requires i <= |candidates|
    ensures Unprotected(candidates[..i], names) <= Unprotected(candidates, names)
    decreases |candidates| - i
  {
    if i == |candidates| {
      assert candidates[..i] == candidates;
    } else {
      UnprotectedPrefix(candidates, names, i + 1);
      assert candidates[..i + 1][..i] == candidates[..i];
    }
  }

  lemma {:induction false} UnprotectedIncreasing(candidates: seq<Root>, names: set<string>, lt: (Root, Root) -> bool)
    requires Increasing(candidates, lt)
    ensures Increasing(Unprotected(candidates, names), lt)
  {
    if candidates != [] {
      var n := |candidates| - 1;
      UnprotectedIncreasing(candidates[..n], names, lt);
      var first := Unprotected(candidates[..n], names);
      forall i | 0 <= i < |first| ensures lt(first[i], candidates[n]) {
        assert first[i] in candidates[..n];
      }
    }
  }

  method AvailableBytes(d: Disk, capacity: int) returns (available: int)
    ensures available == Available(d, capacity)
  {
    var todo := LinkedInodes(d);
    available := capacity;
    while todo != {}
      invariant todo <= LinkedInodes(d)
      invariant available == capacity - Space(d.files, LinkedInodes(d)) + Space(d.files, todo)
      decreases todo
    {
      var i :| i in todo;
      SpaceWithout(d.files, todo, i);
      available := available - SpaceOf(d.files, i);
      todo := todo - {i};
    }
  }

  /** The arguments of a call are usable. */
  ghost predicate Recoverable(d: Disk, protectedSnapshots: seq<string>) {
    Readable(d) && forall s :: s in protectedSnapshots ==> NormalizeRelative(s).Ok?
  }

  method RecoverSpace(target: Target, capacity: int, least: int, protectedSnapshots: seq<string>, modified: Root -> int)
    returns (removed: seq<string>, ok: bool, ghost victims: seq<Root>)
    modifies target
    ensures old(Available(target.disk, capacity)) >= least ==> ok && removed == [] && target.disk == old(target.disk)
    ensures old(Available(target.disk, capacity)) < least && !Recoverable(old(target.disk), protectedSnapshots) ==>
      !ok && removed == [] && target.disk == old(target.disk)
    ensures old(Available(target.disk, capacity)) < least && Recoverable(old(target.disk), protectedSnapshots) ==>
      Victims(old(target.disk), modified, protectedSnapshots, victims)
      && Recovered(old(target.disk), victims, capacity, least, |removed|, ok, target.disk)
      && (forall i :: 0 <= i < |removed| ==> removed[i] == victims[i].ToText())
      && target.history == old(target.history) + Removals(old(target.disk), victims[..|removed|])
    ensures removed == [] ==> target.history == old(target.history)
  {
    hide NormalizeRelative, Space, LinkedInodes, Older;
    victims := [];
    var available := AvailableBytes(target.disk, capacity);
    if available >= least {
      return [], true, [];
    }
    var names := Protect(protectedSnapshots);
    if names.None? {
      return [], false, [];
    }
    var candidates := RemovableSnapshots(target.disk, modified);
    if candidates.None? {
      return [], false, [];
    }
    victims := Unprotected(candidates.value, names.value);
    UnprotectedIncreasing(candidates.value, names.value, (a, b) => Older(modified, a, b));
    removed, ok := PruneUntil(target, capacity, least, candidates.value, names.value);
  }

  /** The disks that the removals leave, one after the other. */
  function Removals(d: Disk, roots: seq<Root>): seq<Disk> {
    if roots == [] then []
    else
      var before := Removals(d, roots[..|roots| - 1]);
      before + [RemoveTree(After(d, before), roots[|roots| - 1])]
  }

  lemma {:induction false} RemovalsEnd(d: Disk, roots: seq<Root>)
    ensures After(d, Removals(d, roots)) == Without(d, Elements(roots))
  {
    if roots == [] {
      NothingRemoved(d, roots);
      assert roots[..0] == roots;
    } else {
      var n := |roots| - 1;
      RemovalsEnd(d, roots[..n]);
      WithoutNext(d, roots, n, roots[n]);
      assert roots[..n + 1] == roots;
    }
  }

  lemma RemovalsNext(d: Disk, victims: seq<Root>, k: nat)
    requires k < |victims|
    ensures Removals(d, victims[..k + 1])
         == Removals(d, victims[..k]) + [RemoveTree(Without(d, Elements(victims[..k])), victims[k])]
  {
    assert victims[..k + 1][..k] == victims[..k];
    RemovalsEnd(d, victims[..k]);
  }

  /** Space recovery is a sequence of the store's calls. */
  lemma {:induction false} RecoveryIsCalls(d: Disk, victims: seq<Root>)
    requires forall r :: r in victims ==> r.dir in TIERS
    ensures Calls(d, Removals(d, victims), {}) && After(d, Removals(d, victims)) == Without(d, Elements(victims))
  {
    hide Calls, Without;
    RemovalsEnd(d, victims);
    if victims == [] {
      NoCalls(d, {});
    } else {
      var n := |victims| - 1;
      RecoveryIsCalls(d, victims[..n]);
      var before := Removals(d, victims[..n]);
      var s, r := After(d, before), victims[n];
      assert Makes(s, Prune(r), {}) && RemoveTree(s, r) == Apply(s, Prune(r));
      CallsOne(s, RemoveTree(s, r), {});
      CallsThen(d, Outcome(Some([]), before), Outcome(Some([]), [RemoveTree(s, r)]), {});
      ThenTrace(Outcome(Some([]), before), Outcome(Some([]), [RemoveTree(s, r)]));
    }
  }

  /** Space is short after each of the first `k` removals. */
  ghost predicate Short(d: Disk, victims: seq<Root>, capacity: int, least: int, k: nat) {
    forall j :: 0 <= j <= k && j <= |victims| ==> Available(Without(d, Elements(victims[..j])), capacity) < least
  }

  /** The removal loop. */
  method PruneUntil(target: Target, capacity: int, least: int, candidates: seq<Root>, names: set<string>)
    returns (removed: seq<string>, ok: bool)
    requires Available(target.disk, capacity) < least
    modifies target
    ensures Recovered(old(target.disk), Unprotected(candidates, names), capacity, least, |removed|, ok, target.disk)
    ensures forall i :: 0 <= i < |removed| ==> removed[i] == Unprotected(candidates, names)[i].ToText()
    ensures target.history ==
      old(target.history) + Removals(old(target.disk), Unprotected(candidates, names)[..|removed|])
  {
    hide Available, Without, Elements, Unprotected, RemoveTree, Removals;
    ghost var d, victims, past := target.disk, Unprotected(candidates, names), target.history;
    NothingRemoved(d, victims);
    assert past + [] == past;
    removed := [];
    UnprotectedNone(candidates, names);
    for i := 0 to |candidates|
      invariant |removed| == |Unprotected(candidates[..i], names)| <= |victims|
      invariant Unprotected(candidates[..i], names) == victims[..|removed|]
      invariant target.disk == Without(d, Elements(victims[..|removed|]))
      invariant target.history == past + Removals(d, victims[..|removed|])
      invariant Short(d, victims, capacity, least, |removed|)
      invariant forall j :: 0 <= j < |removed| ==> removed[j] == victims[j].ToText()
    {
      UnprotectedStep(candidates, names, i);
      if candidates[i].ToText() in names {
        continue;
      }
      OneRemoved(past, d, victims, |removed|, candidates[i]);
      target.Do(RemoveTree(target.disk, candidates[i]));
      removed := removed + [candidates[i].ToText()];
      var available := AvailableBytes(target.disk, capacity);
      if available >= least {
        return removed, true;
      }
    }
    assert candidates[..|candidates|] == candidates;
    ok := false;
  }

  lemma UnprotectedStep(candidates: seq<Root>, names: set<string>, i: nat)
    requires i < |candidates|
    ensures Unprotected(candidates[..i + 1], names)
      == Unprotected(candidates[..i], names) + if candidates[i].ToText() in names then [] else [candidates[i]]
    ensures Unprotected(candidates[..i + 1], names) <= Unprotected(candidates, names)
  {
    UnprotectedPrefix(candidates, names, i + 1);
    assert candidates[..i + 1][..i] == candidates[..i];
  }

  lemma UnprotectedNone(candidates: seq<Root>, names: set<string>)
    ensures Unprotected(candidates[..0], names) == []
  {
  }

  lemma NothingRemoved(d: Disk, victims: seq<Root>)
    ensures Without(d, Elements(victims[..0])) == d && Removals(d, victims[..0]) == []
  {
    assert Elements(victims[..0]) == {};
  }

  lemma OneRemoved(past: seq<Disk>, d: Disk, victims: seq<Root>, k: nat, r: Root)
    requires k < |victims| && victims[k] == r
    ensures var e := RemoveTree(Without(d, Elements(victims[..k])), r);
      e == Without(d, Elements(victims[..k + 1]))
      && past + Removals(d, victims[..k]) + [e] == past + Removals(d, victims[..k + 1])
  {
    hide Without, Elements, RemoveTree, Removals;
    WithoutNext(d, victims, k, r);
    RemovalsNext(d, victims, k);
  }

  lemma WithoutNext(d: Disk, victims: seq<Root>, k: nat, r: Root)
    requires k < |victims| && victims[k] == r
    ensures RemoveTree(Without(d, Elements(victims[..k])), r) == Without(d, Elements(victims[..k + 1]))
  {
    assert victims[..k + 1] == victims[..k] + [r];
    assert Elements(victims[..k + 1]) == Elements(victims[..k]) + {r};
    assert RemoveTree(Without(d, Elements(victims[..k])), r).trees == Without(d, Elements(victims[..k + 1])).trees;
  }
}