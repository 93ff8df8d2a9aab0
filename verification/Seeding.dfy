/** Preparing the destination of a transfer (internal/dataplane/transport.go): it is emptied and then linked from the
    same path of the snapshot `latest`, so that unchanged files are shared with it. */
module Seeding {
  import opened Wrappers
  import opened Text
  import opened Paths
  import opened Volume

  /** `os.RemoveAll` of a destination inside a tree. */
  function Emptied(tree: Tree, path: seq<string>): Tree {
    map p | p in tree && !(path <= p) :: tree[p]
  }

  function Prefixes(path: seq<string>): set<seq<string>> {
    set k | 0 <= k <= |path| :: path[..k]
  }

  /** `os.MkdirAll` inside a tree. */
  function WithDirs(tree: Tree, path: seq<string>): Tree {
    map p | p in tree.Keys + Prefixes(path) :: if p in tree then tree[p] else Dir
  }

  /** Something that is not a directory is in the way. */
  predicate Blocked(tree: Tree, path: seq<string>) {
    exists k :: 0 <= k < |path| && path[..k] in tree && !tree[path[..k]].Dir?
  }

  /** The nodes of `tree` from `path` on. */
  function Below(tree: Tree, path: seq<string>): Tree {
    map p | p in tree && path <= p :: tree[p]
  }

  /** The tree that `latest` leads to. */
  function LatestTree(d: Disk): Tree {
    if LATEST !in d.tops || !d.tops[LATEST].Alias? then map[]
    else match Cut(d.tops[LATEST].text, '/')
      case None => map[]
      case Some((dir, name)) => if IsTree(d, Root(dir, name)) then d.trees[Root(dir, name)] else map[]
  }

  function TreeAt(d: Disk, r: Root): Tree {
    if r in d.trees then d.trees[r] else map[]
  }

  function EmptiedDisk(d: Disk, r: Root, path: seq<string>): Disk {
    if r in d.trees then d.(trees := d.trees[r := Emptied(d.trees[r], path)]) else d
  }

  function Placed(d: Disk, r: Root, tree: Tree): Disk {
    MakeFolder(d.(trees := d.trees[r := tree]), PARTIAL)
  }

  /** `linkTree` of the latest copy of a path onto the emptied destination, or an empty directory. */
  function SeededTree(tree: Tree, path: seq<string>, latest: Tree): Tree {
    var emptied := WithDirs(Emptied(tree, path), path);
    if path in latest then emptied + Linked(Below(latest, path)) else emptied
  }

  /** The run and the path below it that a destination names. */
  function Destination(destination: string): Option<(string, seq<string>)> {
    match NormalizeRelative(destination)
    case Err(_) => None
    case Ok(normal) =>
      var segments := Segments(normal);
      if |segments| < 3 || segments[0] != PARTIAL then None else Some((segments[1], segments[2..]))
  }

  /** Whether the destination was linked from `latest` (None for an error), and the disk afterwards. */
  datatype Seeded = Seeded(linked: Option<bool>, disk: Disk)

  /** `seedPartialDestination`. */
  function Seed(d: Disk, destination: string): Seeded {
    match Destination(destination)
    case None => Seeded(None, d)
    case Some((run, path)) =>
      var r := Root(PARTIAL, run);
      if PARTIAL in d.tops && !d.tops[PARTIAL].Folder? then Seeded(None, d)
      else
        var emptied := EmptiedDisk(d, r, path);
        var tree, latest := TreeAt(emptied, r), LatestTree(emptied);
        match StatIn(latest, path)
        case Failed => Seeded(None, emptied)
        case Present(isDir) =>
          if !isDir || Blocked(tree, path) then Seeded(None, emptied)
          else Seeded(Some(true), Placed(emptied, r, SeededTree(tree, path, latest)))
        case Missing =>
          if Blocked(tree, path) then Seeded(None, emptied)
          else Seeded(Some(false), Placed(emptied, r, SeededTree(tree, path, map[])))
  }

  /** A seeded tree has, from the destination on, what `latest` has there; elsewhere it is as it was. */
  lemma SeededNodes(before: Tree, path: seq<string>, latest: Tree)
    requires path in latest
    ensures var tree := SeededTree(Emptied(before, path), path, latest);
      (forall p | path <= p && p != path ::
         if p in latest && !latest[p].Special? then p in tree && tree[p] == latest[p] else p !in tree)
      && forall p | !(path <= p) && !(p <= path) ::
           if p in before then p in tree && tree[p] == before[p] else p !in tree
  {
    hide Prefixes;
    PrefixesBelow(path);
  }

  lemma PrefixesBelow(path: seq<string>)
    ensures forall p :: p in Prefixes(path) ==> p <= path
  {
  }

  /** A seeded destination holds exactly what `latest` has at that path, sharing its files, and nothing from before;
      outside of the destination and the directories above it the run is as it was; no other tree changes. */
  lemma SeedCopiesLatest(d: Disk, destination: string, run: string, path: seq<string>)
    requires Destination(destination) == Some((run, path)) && Seed(d, destination).linked == Some(true)
    requires LATEST in d.tops && d.tops[LATEST].Alias? ==> Cut(d.tops[LATEST].text, '/') != Some((PARTIAL, run))
    ensures var r, e, latest := Root(PARTIAL, run), Seed(d, destination).disk, LatestTree(d);
      r in e.trees
      && (forall p | path <= p && p != path ::
            if p in latest && !latest[p].Special? then p in e.trees[r] && e.trees[r][p] == latest[p]
            else p !in e.trees[r])
      && (forall p | !(path <= p) && !(p <= path) ::
            if p in TreeAt(d, r) then p in e.trees[r] && e.trees[r][p] == TreeAt(d, r)[p] else p !in e.trees[r])
  {
    var r, latest := Root(PARTIAL, run), LatestTree(d);
    var emptied := EmptiedDisk(d, r, path);
    LatestIsElsewhere(d, emptied, r);
    assert TreeAt(emptied, r) == Emptied(TreeAt(d, r), path);
    SeededNodes(TreeAt(d, r), path, latest);
    SeedResult(d, destination, run, path);
    hide Seed, LatestTree, SeededTree, Emptied, Destination;
  }

  lemma SeedResult(d: Disk, destination: string, run: string, path: seq<string>)
    requires Destination(destination) == Some((run, path)) && Seed(d, destination).linked == Some(true)
    ensures var r := Root(PARTIAL, run);
      var emptied := EmptiedDisk(d, r, path);
      var e := Seed(d, destination).disk;
      path in LatestTree(emptied) && r in e.trees
        && e.trees[r] == SeededTree(TreeAt(emptied, r), path, LatestTree(emptied))
  {
    hide Destination, SeededTree, Emptied, LatestTree;
  }

  lemma LatestIsElsewhere(d: Disk, e: Disk, r: Root)
    requires e.tops == d.tops && e.trees.Keys == d.trees.Keys && forall q :: q in d.trees && q != r ==>
      e.trees[q] == d.trees[q]
    requires LATEST in d.tops && d.tops[LATEST].Alias? ==> Cut(d.tops[LATEST].text, '/') != Some((r.dir, r.name))
    ensures LatestTree(e) == LatestTree(d)
  {
  }

  /** `e` differs from `d` in staged trees only. */
  ghost predicate StagedChange(d: Disk, e: Disk) {
    e.files == d.files
    && (forall q: Root | q.dir != PARTIAL ::
          (q in e.trees <==> q in d.trees) && (q in e.trees ==> e.trees[q] == d.trees[q]))
    && (forall t | t != PARTIAL :: (t in e.tops <==> t in d.tops) && (t in e.tops ==> e.tops[t] == d.tops[t]))
  }

  lemma EmptyingIsStaged(d: Disk, r: Root, path: seq<string>)
    requires r.dir == PARTIAL
    ensures StagedChange(d, EmptiedDisk(d, r, path))
  {
  }

  lemma PlacingIsStaged(d: Disk, e: Disk, r: Root, tree: Tree)
    requires r.dir == PARTIAL && StagedChange(d, e)
    ensures StagedChange(d, Placed(e, r, tree))
  {
  }

  /** Seeding changes staged trees only. */
  lemma SeedStaysInPartial(d: Disk, destination: string)
    ensures StagedChange(d, Seed(d, destination).disk)
  {
    hide Destination, SeededTree, Emptied, LatestTree, StatIn, Blocked, Placed, EmptiedDisk, TreeAt;
    if Destination(destination).Some? {
      var (run, path) := Destination(destination).value;
      var r := Root(PARTIAL, run);
      var emptied := EmptiedDisk(d, r, path);
      EmptyingIsStaged(d, r, path);
      PlacingIsStaged(d, emptied, r, SeededTree(TreeAt(emptied, r), path, LatestTree(emptied)));
      PlacingIsStaged(d, emptied, r, SeededTree(TreeAt(emptied, r), path, map[]));
    }
  }

  /** A destination names a place below a staged run iff its named segments begin with `.partial` and a run, and go
      on. */
  lemma DestinationIff(destination: string, run: string, path: seq<string>)
    ensures Destination(destination) == Some((run, path)) <==>
      NormalizeRelative(destination).Ok? && path != [] && Named(Split(destination, '/')) == [".partial", run] + path
  {
    hide NormalizeRelative, Segments, Named;
    if NormalizeRelative(destination).Ok? {
      NormalizeYieldsNormal(destination);
      var segments := Segments(NormalizeRelative(destination).value);
      if |segments| >= 3 { assert segments == [segments[0], segments[1]] + segments[2..]; }
      if segments == [".partial", run] + path { assert segments[2..] == path; }
    }
  }

  /** A destination is seeded from `latest` iff that has a directory there, and otherwise made empty iff `latest` has
      nothing there; both only if no file is in the way in the staged run. */
  lemma SeededIff(d: Disk, destination: string, run: string, path: seq<string>)
    requires Destination(destination) == Some((run, path)) && (".partial" in d.tops ==> d.tops[".partial"].Folder?)
    ensures var r, latest := Root(".partial", run), LatestTree(EmptiedDisk(d, Root(".partial", run), path));
      var free := r in d.trees ==> forall k :: 0 <= k < |path| && path[..k] in d.trees[r] ==>
        d.trees[r][path[..k]].Dir?;
      var reached := forall k :: 0 <= k < |path| && path[..k] in latest ==> latest[path[..k]].Dir?;
      (Seed(d, destination).linked == Some(true) <==> free && reached && path in latest && latest[path].Dir?)
      && (Seed(d, destination).linked == Some(false) <==> free && reached && path !in latest)
  {
    var r := Root(".partial", run);
    assert forall k :: 0 <= k < |path| ==> !(path <= path[..k]);
    hide Destination, SeededTree, LatestTree, Placed;
  }

  /** Without `latest` there, only the directories down to the destination are added. */
  lemma SeedMakesEmpty(d: Disk, destination: string, run: string, path: seq<string>)
    requires Destination(destination) == Some((run, path)) && Seed(d, destination).linked == Some(false)
    ensures var r, e := Root(".partial", run), Seed(d, destination).disk;
      r in e.trees && ".partial" in e.tops
      && (forall p :: p in e.trees[r] <==> p <= path || (p in TreeAt(d, r) && !(path <= p)))
      && (forall p :: p in e.trees[r] ==>
            e.trees[r][p] == if p in TreeAt(d, r) && p != path then TreeAt(d, r)[p] else Dir)
  {
    PrefixesBelow(path);
    PrefixesAll(path);
    hide Destination, LatestTree, StatIn, Prefixes, Blocked;
  }

  lemma PrefixesAll(path: seq<string>)
    ensures forall p :: p <= path ==> p in Prefixes(path)
  {
    forall p | p <= path ensures p in Prefixes(path) {
      assert p == path[..|p|];
    }
  }

  /** A seed that fails has already removed what was staged below the destination, and nothing else. */
  lemma FailedSeedEmpties(d: Disk, destination: string, run: string, path: seq<string>)
    requires Destination(destination) == Some((run, path)) && Seed(d, destination).linked == None
    requires ".partial" in d.tops ==> d.tops[".partial"].Folder?
    ensures var r, e := Root(".partial", run), Seed(d, destination).disk;
      e.tops == d.tops && e.trees.Keys == d.trees.Keys && e.files == d.files
      && (forall q :: q in d.trees && q != r ==> e.trees[q] == d.trees[q])
      && (r in d.trees ==> forall p :: p in e.trees[r] <==> p in d.trees[r] && !(path <= p))
      && (r in d.trees ==> forall p :: p in e.trees[r] ==> e.trees[r][p] == d.trees[r][p])
  {
    hide Destination, LatestTree, StatIn, Blocked;
  }

  /** What is seeded from is the tree that `latest` leads to, if it is there. */
  lemma LatestTreeIs(d: Disk, r: Root)
    requires "latest" in d.tops && d.tops["latest"] == Alias(r.dir + "/" + r.name) && '/' !in r.dir
    ensures LatestTree(d) == if IsTree(d, r) then d.trees[r] else map[]
  {
    assert r.dir + "/" + r.name == r.dir + ['/'] + r.name;
    CutField(r.dir, r.name, '/');
  }
}
