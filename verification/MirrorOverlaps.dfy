/** Mirror destinations that would delete each other's files (internal/controller/helpers.go). Maps are walked in an
    arbitrary order, as Go does. */
module MirrorOverlaps {
  import opened Wrappers
  import opened Text
  import opened Ordering
  import opened Paths
  import opened Destinations
  import opened Attachment

  datatype Claim = Claim(path: string, source: Name, deleteExtra: bool)

  predicate MirrorPathsOverlap(a: string, b: string) {
    a == "" || b == "" || a == b || HasPrefix(a, b + "/") || HasPrefix(b, a + "/")
  }

  function MirrorOverlapPath(a: string, b: string): string {
    if a == "" || b == "" then "/"
    else if |a| <= |b| && (a == b || HasPrefix(b, a + "/")) then a
    else b
  }

  lemma PrefixIsNesting(a: string, b: string)
    requires Normal(a) && Normal(b)
    ensures HasPrefix(b, a + "/") <==> Segments(a) < Segments(b)
  {
    NormalBasics(a);
    NormalBasics(b);
    if HasPrefix(b, a + "/") {
      var rest := b[|a| + 1..];
      assert b == a + ['/'] + rest;
      SplitAppend(a, rest, '/');
    }
    if Segments(a) < Segments(b) {
      var rest := Segments(b)[|Segments(a)|..];
      assert Segments(b) == Segments(a) + rest;
      JoinAppend(Segments(a), rest);
    }
  }

  /** The string tests of the overlap check mean containment of one tree in the other; what is reported is the outer one
      of the two, the root as `/`. */
  lemma OverlapIsNesting(a: string, b: string)
    requires (a == "" || Normal(a)) && (b == "" || Normal(b))
    ensures MirrorPathsOverlap(a, b) <==> Segments(a) <= Segments(b) || Segments(b) <= Segments(a)
    ensures MirrorPathsOverlap(a, b) ==> MirrorOverlapPath(a, b) == MirrorOverlapPath(b, a)
    ensures Segments(a) <= Segments(b) ==> MirrorOverlapPath(a, b) == if Segments(a) == [] then "/" else a
  {
    if a != "" && b != "" {
      PrefixIsNesting(a, b);
      PrefixIsNesting(b, a);
      NormalBasics(a);
      NormalBasics(b);
      assert Segments(a) == Segments(b) <==> a == b;
    }
  }

  ghost predicate Conflicting(a: Claim, b: Claim) {
    MirrorPathsOverlap(a.path, b.path) && (a.deleteExtra || b.deleteExtra)
  }

  ghost function ClaimOf(sources: Sources, n: Name): Claim
    requires n in sources && EffectiveMirror(sources[n].destinationPath).Ok?
  {
    Claim(EffectiveMirror(sources[n].destinationPath).value, n, sources[n].deleteExtra)
  }

  ghost predicate CleanPaths(machine: Machine, sources: Sources) {
    forall n :: Attached(machine, sources, n) ==> EffectiveMirror(sources[n].destinationPath).Ok?
  }

  /** `x` takes part in a conflict reported under path `p`. */
  ghost predicate Involved(machine: Machine, sources: Sources, p: string, x: Name)
    requires CleanPaths(machine, sources)
  {
    Attached(machine, sources, x) &&
    exists y ::
      Attached(machine, sources, y) && y != x && Conflicting(ClaimOf(sources, x), ClaimOf(sources, y)) &&
      MirrorOverlapPath(ClaimOf(sources, x).path, ClaimOf(sources, y).path) == p
  }

  datatype Overlap = Overlap(path: string, sources: seq<Name>)

  predicate OverlapLess(a: Overlap, b: Overlap) { Less(a.path, b.path) }

  /** A complete report: sorted by path, one entry for each path with a conflict, each entry listing exactly the
      sources involved, sorted. */
  ghost predicate OverlapReport(machine: Machine, sources: Sources, r: seq<Overlap>)
    requires CleanPaths(machine, sources)
  {
    Increasing(r, OverlapLess)
    && (forall o :: o in r ==>
          o.sources != [] && Increasing(o.sources, NameLess) &&
          forall x :: x in o.sources <==> Involved(machine, sources, o.path, x))
    && (forall p, x :: Involved(machine, sources, p, x) ==> exists o :: o in r && o.path == p)
  }

  /** There is only one complete report: it does not depend on the order in which the maps were walked. */
  lemma OverlapReportUnique(machine: Machine, sources: Sources, r: seq<Overlap>, r': seq<Overlap>)
    requires ValidNames(sources) && CleanPaths(machine, sources)
    requires OverlapReport(machine, sources, r) && OverlapReport(machine, sources, r')
    ensures r == r'
  {
    SameOverlaps(machine, sources, r, r');
    SameOverlaps(machine, sources, r', r);
    LessIsStrictOrder();
    forall a: Overlap, b: Overlap | OverlapLess(a, b) ensures !OverlapLess(b, a) { LessTrichotomy(a.path, b.path); }
    IncreasingUnique(r, r', OverlapLess);
  }

  lemma SameOverlaps(machine: Machine, sources: Sources, r: seq<Overlap>, r': seq<Overlap>)
    requires ValidNames(sources) && CleanPaths(machine, sources)
    requires OverlapReport(machine, sources, r) && OverlapReport(machine, sources, r')
    ensures forall o :: o in r ==> o in r'
  {
    forall o | o in r ensures o in r' {
      assert o.sources[0] in o.sources;
      assert Involved(machine, sources, o.path, o.sources[0]);
      var o' :| o' in r' && o'.path == o.path;
      NameOrder([]);
      IncreasingUnique(o.sources, o'.sources, NameLess);
    }
  }

  /** Sound and complete: nothing is reported iff no two attached sources, one of which deletes, have nested
      destinations. */
  lemma NoOverlapIffDisjoint(machine: Machine, sources: Sources, r: seq<Overlap>)
    requires ValidNames(sources) && CleanPaths(machine, sources) && OverlapReport(machine, sources, r)
    ensures r == [] <==>
      forall x, y | Attached(machine, sources, x) && Attached(machine, sources, y) && x != y &&
                    (sources[x].deleteExtra || sources[y].deleteExtra) ::
        var a, b := Segments(ClaimOf(sources, x).path), Segments(ClaimOf(sources, y).path);
        !(a <= b) && !(b <= a)
  {
    forall x, y | Attached(machine, sources, x) && Attached(machine, sources, y) && x != y
      ensures Conflicting(ClaimOf(sources, x), ClaimOf(sources, y)) <==>
                (sources[x].deleteExtra || sources[y].deleteExtra) &&
                var a, b := Segments(ClaimOf(sources, x).path), Segments(ClaimOf(sources, y).path); a <= b || b <= a
      ensures Conflicting(ClaimOf(sources, x), ClaimOf(sources, y)) ==> r != []
    {
      CleanersAgree(sources[x].destinationPath);
      CleanersAgree(sources[y].destinationPath);
      OverlapIsNesting(ClaimOf(sources, x).path, ClaimOf(sources, y).path);
      if Conflicting(ClaimOf(sources, x), ClaimOf(sources, y)) {
        assert Involved(machine, sources, MirrorOverlapPath(ClaimOf(sources, x).path, ClaimOf(sources, y).path), x);
      }
    }
    if r != [] {
      assert r[0] in r && r[0].sources[0] in r[0].sources;
      assert Involved(machine, sources, r[0].path, r[0].sources[0]);
    }
  }

  /** Claims `a` and `b` (by index) are in conflict under path `p`. */
  ghost predicate Hit(claims: seq<Claim>, a: int, b: int, p: string) {
    0 <= a < b < |claims| && Conflicting(claims[a], claims[b]) && MirrorOverlapPath(claims[a].path, claims[b].path) == p
  }

  /** The pair loops have passed the pair (a, b) when they stand at (i, j). */
  ghost predicate Passed(a: int, b: int, i: int, j: int) {
    a < i || (a == i && b < j)
  }

  ghost predicate Counted(claims: seq<Claim>, i: int, j: int, p: string, x: Name) {
    exists a, b :: Hit(claims, a, b, p) && Passed(a, b, i, j) && (x == claims[a].source || x == claims[b].source)
  }

  ghost predicate Grouped(claims: seq<Claim>, groups: map<string, seq<Name>>, i: int, j: int) {
    (forall p :: p in groups ==> groups[p] != [] && NoDuplicates(groups[p]) && Increasing(groups[p], NameLess)) &&
    (forall p, x :: p in groups && x in groups[p] ==> Counted(claims, i, j, p, x)) &&
    (forall p, a, b :: Hit(claims, a, b, p) && Passed(a, b, i, j) ==>
      p in groups && claims[a].source in groups[p] && claims[b].source in groups[p])
  }

  /** The body of the pair loops: put both sources on the list of the path they clash on. */
  method AddPair(list: seq<Name>, first: Name, second: Name) returns (r: seq<Name>)
    requires first.Valid() && second.Valid()
    requires NoDuplicates(list) && forall x :: x in list ==> x.Valid()
    ensures r != [] && NoDuplicates(r) && Increasing(r, NameLess)
    ensures forall x :: x in r <==> x in list || x == first || x == second
  {
    r := if first in list then list else list + [first];
    r := if second in r then r else r + [second];
    r := SortNames(r);
    assert first in r;
  }

  lemma GroupedValid(claims: seq<Claim>, groups: map<string, seq<Name>>, i: int, j: int)
    requires Grouped(claims, groups, i, j) && forall c :: c in claims ==> c.source.Valid()
    ensures forall p, x :: p in groups && x in groups[p] ==> x.Valid()
  {
    forall p, x | p in groups && x in groups[p] ensures x.Valid() {
      assert Counted(claims, i, j, p, x);
      var a, b :| Hit(claims, a, b, p) && Passed(a, b, i, j) && (x == claims[a].source || x == claims[b].source);
      assert claims[a] in claims && claims[b] in claims;
    }
  }

  method GroupPair(claims: seq<Claim>, groups: map<string, seq<Name>>, i: nat, j: nat)
    returns (r: map<string, seq<Name>>)
    requires i < j < |claims| && Grouped(claims, groups, i, j) && forall c :: c in claims ==> c.source.Valid()
    ensures Grouped(claims, r, i, j + 1)
  {
    r := groups;
    if MirrorPathsOverlap(claims[i].path, claims[j].path) && (claims[i].deleteExtra || claims[j].deleteExtra) {
      var pathKey := MirrorOverlapPath(claims[i].path, claims[j].path);
      assert Hit(claims, i, j, pathKey);
      assert claims[i] in claims && claims[j] in claims;
      GroupedValid(claims, groups, i, j);
      var list := AddPair(if pathKey in groups then groups[pathKey] else [], claims[i].source, claims[j].source);
      r := groups[pathKey := list];
      GroupedStep(claims, groups, i, j, pathKey, list);
    } else {
      GroupedSkip(claims, groups, i, j);
    }
  }

  lemma GroupedSkip(claims: seq<Claim>, groups: map<string, seq<Name>>, i: nat, j: nat)
    requires i < j < |claims| && Grouped(claims, groups, i, j) && !Conflicting(claims[i], claims[j])
    ensures Grouped(claims, groups, i, j + 1)
  {
    CountedGrows(claims, i, j);
    forall p, a, b | Hit(claims, a, b, p) && Passed(a, b, i, j + 1) ensures Passed(a, b, i, j) {
    }
  }

  lemma CountedGrows(claims: seq<Claim>, i: int, j: int)
    ensures forall p, x :: Counted(claims, i, j, p, x) ==> Counted(claims, i, j + 1, p, x)
  {
    forall p, x | Counted(claims, i, j, p, x) ensures Counted(claims, i, j + 1, p, x) {
      var a, b :| Hit(claims, a, b, p) && Passed(a, b, i, j) && (x == claims[a].source || x == claims[b].source);
      assert Passed(a, b, i, j + 1);
    }
  }

  lemma GroupedStep(claims: seq<Claim>, groups: map<string, seq<Name>>, i: nat, j: nat, key: string, list: seq<Name>)
    requires i < j < |claims| && Grouped(claims, groups, i, j) && Hit(claims, i, j, key)
    requires list != [] && NoDuplicates(list) && Increasing(list, NameLess)
    requires forall x :: x in list <==>
      (key in groups && x in groups[key]) || x == claims[i].source || x == claims[j].source
    ensures Grouped(claims, groups[key := list], i, j + 1)
  {
    hide Conflicting, MirrorOverlapPath, Counted, NameLess;
    var r := groups[key := list];
    forall p, x | p in r && x in r[p] ensures Counted(claims, i, j + 1, p, x) {
      if p == key && (x == claims[i].source || x == claims[j].source) {
        CountedNow(claims, i, j, key, x);
      } else {
        assert p in groups && x in groups[p];
        CountedGrows(claims, i, j);
      }
    }
    forall p, a, b | Hit(claims, a, b, p) && Passed(a, b, i, j + 1)
      ensures p in r && claims[a].source in r[p] && claims[b].source in r[p]
    {
      OnePath(claims, a, b, p, i, j, key);
    }
  }

  lemma CountedNow(claims: seq<Claim>, i: nat, j: nat, key: string, x: Name)
    requires Hit(claims, i, j, key) && (x == claims[i].source || x == claims[j].source)
    ensures Counted(claims, i, j + 1, key, x)
  {
    assert Passed(i, j, i, j + 1);
  }

  /** The pair that was passed just now clashes on one path. */
  lemma OnePath(claims: seq<Claim>, a: int, b: int, p: string, i: nat, j: nat, key: string)
    requires Hit(claims, a, b, p) && Passed(a, b, i, j + 1) && Hit(claims, i, j, key)
    ensures 0 <= a < b < |claims| && (Passed(a, b, i, j) || (a == i && b == j && p == key))
  {
    hide Conflicting, MirrorOverlapPath;
  }

  method GroupOverlaps(claims: seq<Claim>) returns (groups: map<string, seq<Name>>)
    requires forall c :: c in claims ==> c.source.Valid()
    ensures Grouped(claims, groups, |claims|, 0)
  {
    groups := map[];
    for i := 0 to |claims|
      invariant Grouped(claims, groups, i, 0)
    {
      for j := i + 1 to |claims|
        invariant Grouped(claims, groups, i, j)
      {
        groups := GroupPair(claims, groups, i, j);
      }
    }
  }

  method DetectMirrorDestinationPathOverlaps(machine: Machine, sources: Sources) returns (r: Result<seq<Overlap>>)
    requires ValidNames(sources)
    ensures r.Err? <==> IsMirror(machine) && !CleanPaths(machine, sources)
    ensures r.Ok? && !IsMirror(machine) ==> r.value == []
    ensures r.Ok? && IsMirror(machine) ==> OverlapReport(machine, sources, r.value)
  {
    if !IsMirror(machine) {
      return Ok([]);
    }
    hide NamespaceAllowed, ResolveReference, CleanRelative;
    var claims: seq<Claim> := [];
    var todo := sources.Keys;
    while todo != {}
      invariant todo <= sources.Keys
      invariant forall n :: Attached(machine, sources, n) && n !in todo ==>
        EffectiveMirror(sources[n].destinationPath).Ok? && ClaimOf(sources, n) in claims
      invariant forall c :: c in claims ==>
        Attached(machine, sources, c.source) && c.source !in todo &&
        EffectiveMirror(sources[c.source].destinationPath).Ok? && c == ClaimOf(sources, c.source)
      invariant NoDuplicates(claims)
      decreases todo
    {
      var n :| n in todo;
      todo := todo - {n};
      if !Attached(machine, sources, n) {
        continue;
      }
      var effective := EffectiveMirror(sources[n].destinationPath);
      if effective.Err? {
        return Err(effective.problem);
      }
      claims := claims + [Claim(effective.value, n, sources[n].deleteExtra)];
    }
    var groups := GroupOverlaps(claims);
    var overlaps := ListOverlaps(groups);
    GroupsAreReport(machine, sources, claims, groups, overlaps);
    return Ok(overlaps);
  }

  method ListOverlaps(groups: map<string, seq<Name>>) returns (overlaps: seq<Overlap>)
    ensures Increasing(overlaps, OverlapLess)
    ensures forall o :: o in overlaps <==> o.path in groups && o.sources == groups[o.path]
  {
    overlaps := [];
    var todo := groups.Keys;
    while todo != {}
      invariant todo <= groups.Keys
      invariant forall o :: o in overlaps <==> o.path in groups && o.path !in todo && o.sources == groups[o.path]
      invariant NoDuplicates(overlaps)
      decreases todo
    {
      var p :| p in todo;
      todo := todo - {p};
      overlaps := overlaps + [Overlap(p, groups[p])];
    }
    OverlapOrder(overlaps);
    SortByIncreasing(overlaps, OverlapLess);
    overlaps := SortBy(overlaps, OverlapLess);
  }

  lemma OverlapOrder(overlaps: seq<Overlap>)
    requires forall o, o' :: o in overlaps && o' in overlaps && o.path == o'.path ==> o == o'
    ensures Transitive(OverlapLess) && Comparable(overlaps, OverlapLess)
  {
    forall a: Overlap, b: Overlap, c: Overlap | OverlapLess(a, b) && OverlapLess(b, c) ensures OverlapLess(a, c) {
      LessTransitive(a.path, b.path, c.path);
    }
    forall i, j | 0 <= i < |overlaps| && 0 <= j < |overlaps| && overlaps[i] != overlaps[j]
      ensures OverlapLess(overlaps[i], overlaps[j]) || OverlapLess(overlaps[j], overlaps[i])
    {
      LessTrichotomy(overlaps[i].path, overlaps[j].path);
    }
  }

  ghost predicate ClaimsOf(machine: Machine, sources: Sources, claims: seq<Claim>)
    requires CleanPaths(machine, sources)
  {
    NoDuplicates(claims)
    && (forall n :: Attached(machine, sources, n) ==> ClaimOf(sources, n) in claims)
    && (forall c :: c in claims ==> Attached(machine, sources, c.source) && c == ClaimOf(sources, c.source))
  }

  lemma GroupsAreReport(machine: Machine, sources: Sources, claims: seq<Claim>, groups: map<string, seq<Name>>,
                        overlaps: seq<Overlap>)
    requires CleanPaths(machine, sources) && ClaimsOf(machine, sources, claims)
    requires Grouped(claims, groups, |claims|, 0)
    requires Increasing(overlaps, OverlapLess)
    requires forall o :: o in overlaps <==> o.path in groups && o.sources == groups[o.path]
    ensures OverlapReport(machine, sources, overlaps)
  {
    forall p, x ensures Involved(machine, sources, p, x) <==> p in groups && x in groups[p] {
      InvolvedIffGrouped(machine, sources, claims, groups, p, x);
    }
    forall p, x | Involved(machine, sources, p, x) ensures exists o :: o in overlaps && o.path == p {
      assert Overlap(p, groups[p]) in overlaps;
    }
  }

  lemma InvolvedIffGrouped(machine: Machine, sources: Sources, claims: seq<Claim>, groups: map<string, seq<Name>>,
                           p: string, x: Name)
    requires CleanPaths(machine, sources) && ClaimsOf(machine, sources, claims)
    requires Grouped(claims, groups, |claims|, 0)
    ensures Involved(machine, sources, p, x) <==> p in groups && x in groups[p]
  {
    if Involved(machine, sources, p, x) { InvolvedIsGrouped(machine, sources, claims, groups, p, x); }
    if p in groups && x in groups[p] { GroupedIsInvolved(machine, sources, claims, groups, p, x); }
  }

  lemma InvolvedIsGrouped(machine: Machine, sources: Sources, claims: seq<Claim>, groups: map<string, seq<Name>>,
                          p: string, x: Name)
    requires CleanPaths(machine, sources) && ClaimsOf(machine, sources, claims)
    requires Grouped(claims, groups, |claims|, 0) && Involved(machine, sources, p, x)
    ensures p in groups && x in groups[p]
  {
    hide NamespaceAllowed, ResolveReference, EffectiveMirror, MirrorPathsOverlap;
    var y :| Attached(machine, sources, y) && y != x && Conflicting(ClaimOf(sources, x), ClaimOf(sources, y))
      && MirrorOverlapPath(ClaimOf(sources, x).path, ClaimOf(sources, y).path) == p;
    var i :| 0 <= i < |claims| && claims[i] == ClaimOf(sources, x);
    var j :| 0 <= j < |claims| && claims[j] == ClaimOf(sources, y);
    ClaimPaths(sources, x, y);
    assert Hit(claims, if i < j then i else j, if i < j then j else i, p);
  }

  lemma GroupedIsInvolved(machine: Machine, sources: Sources, claims: seq<Claim>, groups: map<string, seq<Name>>,
                          p: string, x: Name)
    requires CleanPaths(machine, sources) && ClaimsOf(machine, sources, claims)
    requires Grouped(claims, groups, |claims|, 0) && p in groups && x in groups[p]
    ensures Involved(machine, sources, p, x)
  {
    assert Counted(claims, |claims|, 0, p, x);
    hide NamespaceAllowed, ResolveReference, EffectiveMirror, Grouped, Involved;
    var a, b :| Hit(claims, a, b, p) && Passed(a, b, |claims|, 0) && (x == claims[a].source || x == claims[b].source);
    assert claims[a] in claims && claims[b] in claims && claims[a] != claims[b];
    HitInvolves(machine, sources, claims[a], claims[b], p);
  }

  lemma HitInvolves(machine: Machine, sources: Sources, a: Claim, b: Claim, p: string)
    requires CleanPaths(machine, sources) && a != b && Conflicting(a, b) && MirrorOverlapPath(a.path, b.path) == p
    requires Attached(machine, sources, a.source) && a == ClaimOf(sources, a.source)
    requires Attached(machine, sources, b.source) && b == ClaimOf(sources, b.source)
    ensures Involved(machine, sources, p, a.source) && Involved(machine, sources, p, b.source)
  {
    hide NamespaceAllowed, ResolveReference, EffectiveMirror, MirrorPathsOverlap, MirrorOverlapPath;
    ClaimPaths(sources, a.source, b.source);
  }

  lemma ClaimPaths(sources: Sources, x: Name, y: Name)
    requires x in sources && EffectiveMirror(sources[x].destinationPath).Ok?
    requires y in sources && EffectiveMirror(sources[y].destinationPath).Ok?
    ensures var a, b := ClaimOf(sources, x), ClaimOf(sources, y);
      Conflicting(a, b) ==> Conflicting(b, a) && MirrorOverlapPath(a.path, b.path) == MirrorOverlapPath(b.path, a.path)
  {
    CleanersAgree(sources[x].destinationPath);
    CleanersAgree(sources[y].destinationPath);
    OverlapIsNesting(ClaimOf(sources, x).path, ClaimOf(sources, y).path);
  }

  /** The report goes by rising path, and the sources of an entry by rising `namespace/name`. */
  lemma OverlapOrderIsByPath(machine: Machine, sources: Sources, r: seq<Overlap>, i: nat, j: nat)
    requires CleanPaths(machine, sources) && OverlapReport(machine, sources, r) && i < j < |r|
    ensures Less(r[i].path, r[j].path)
    ensures forall k, l :: 0 <= k < l < |r[i].sources| ==> Less(r[i].sources[k].ToText(), r[i].sources[l].ToText())
  {
    assert OverlapLess(r[i], r[j]) && r[i] in r;
    forall k, l | 0 <= k < l < |r[i].sources| ensures Less(r[i].sources[k].ToText(), r[i].sources[l].ToText()) {
      assert NameLess(r[i].sources[k], r[i].sources[l]);
    }
  }
}
