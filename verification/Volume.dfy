/** A target volume: its top-level entries, the trees one level below them (staged runs and snapshots), and the inodes
    that those trees share by hard links. Every directory call of internal/dataplane/snapshot.go creates, links, moves
    or removes such a tree as a whole. */
module Volume {
  import opened Ordering
  import opened Paths

  datatype Node = Dir | File(inode: nat) | Symlink(text: string) | Special

  /** The nodes of a tree by their segments below its root, which is []. */
  type Tree = map<seq<string>, Node>

  /** The place of a tree: `.partial/<run>` or `<tier>/<snapshot>`. */
  datatype Root = Root(dir: string, name: string) {
    function ToText(): string { dir + "/" + name }
  }

  datatype Top = Folder | Alias(text: string) | Other

  datatype Data = Data(content: seq<bv8>, space: nat)

  datatype Disk = Disk(tops: map<string, Top>, trees: map<Root, Tree>, files: map<nat, Data>)

  const HOURLY := "hourly"
  const DAILY := "daily"
  const WEEKLY := "weekly"
  const MONTHLY := "monthly"
  const LATEST := "latest"
  const TMP := "latest.tmp"
  const TIERS := [HOURLY, DAILY, WEEKLY, MONTHLY]

  /** Trees lie in folders. */
  ghost predicate InFolders(d: Disk) {
    forall r :: r in d.trees ==> r.dir in d.tops && d.tops[r.dir].Folder?
  }

  // ---------------------------------------------------------------- looking

  datatype Stat = Missing | Present(isDir: bool) | Failed

  predicate IsTree(d: Disk, r: Root) {
    r in d.trees && [] in d.trees[r] && d.trees[r][[]].Dir?
  }

  /** `os.Stat` on the root of a tree. */
  function StatRoot(d: Disk, r: Root): Stat {
    if r.dir !in d.tops then Missing
    else if !d.tops[r.dir].Folder? then Failed
    else if r in d.trees then Present(IsTree(d, r))
    else Missing
  }

  /** `os.Stat` inside a tree: a path below something that is not a directory is an error other than "not exist". */
  function StatIn(tree: Tree, path: seq<string>): Stat {
    if exists k :: 0 <= k < |path| && path[..k] in tree && !tree[path[..k]].Dir? then Failed
    else if path in tree then Present(tree[path].Dir?)
    else Missing
  }

  function StatPath(d: Disk, segments: seq<string>): Stat {
    if segments == [] then Present(true)
    else if |segments| == 1 then
      if segments[0] !in d.tops then Missing
      else match d.tops[segments[0]]
        case Folder => Present(true)
        case Other => Present(false)
        case Alias(_) => Failed
    else
      var r := Root(segments[0], segments[1]);
      match StatRoot(d, r)
      case Present(_) => StatIn(d.trees[r], segments[2..])
      case other => other
  }

  /** Names of the directories that `os.ReadDir` lists below a top-level folder. */
  function DirNames(d: Disk, dir: string): set<string> {
    set r | r in d.trees && r.dir == dir && IsTree(d, r) :: r.name
  }

  // ---------------------------------------------------------------- changing

  /** `os.MkdirAll` of a top-level folder that is absent or a folder. */
  function MakeFolder(d: Disk, dir: string): Disk {
    if dir in d.tops then d else d.(tops := d.tops[dir := Folder])
  }

  /** `os.RemoveAll` of a top-level entry. */
  function RemoveTop(d: Disk, dir: string): Disk {
    Disk(d.tops - {dir}, map r | r in d.trees && r.dir != dir :: d.trees[r], d.files)
  }

  /** `os.Symlink` at an absent top-level name. */
  function MakeAlias(d: Disk, dir: string, text: string): Disk {
    d.(tops := d.tops[dir := Alias(text)])
  }

  /** `os.Rename` of a top-level symlink onto an absent name. */
  function MoveAlias(d: Disk, src: string, dst: string): Disk
    requires src in d.tops
  {
    d.(tops := (d.tops - {src})[dst := d.tops[src]])
  }

  /** `os.RemoveAll` of a tree. */
  function RemoveTree(d: Disk, r: Root): Disk {
    d.(trees := d.trees - {r})
  }

  /** `os.Rename` of a tree onto an absent name. */
  function MoveTree(d: Disk, src: Root, dst: Root): Disk
    requires src in d.trees
  {
    d.(trees := (d.trees - {src})[dst := d.trees[src]])
  }

  /** The tree that `linkTree` builds: the same directories, the same inodes, the same link texts, no special files. */
  function Linked(tree: Tree): Tree {
    map p | p in tree && (p == [] || !tree[p].Special?) :: tree[p]
  }

  /** `linkTree` onto an absent name. */
  function LinkTree(d: Disk, src: Root, dst: Root): Disk
    requires src in d.trees
  {
    MakeFolder(d.(trees := d.trees[dst := Linked(d.trees[src])]), dst.dir)
  }

  /** The names of the top-level entries are different. */
  lemma DirsDiffer()
    ensures NoDuplicates([HOURLY, DAILY, WEEKLY, MONTHLY, LATEST, TMP, PARTIAL])
  {
    assert HOURLY[0] == 'h' && WEEKLY[0] == 'w' && LATEST[0] == 'l';
  }
}
