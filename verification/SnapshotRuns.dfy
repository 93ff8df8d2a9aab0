/** Runs of a target volume: the store's directory calls interleaved with transfers into partial runs
    (internal/dataplane/snapshot.go, transport.go, rsync.go, internal/cli/cli.go). Snapshots share files with the
    partial runs seeded from them; they are immutable nevertheless, as long as no transfer is open when its run is
    promoted. */
module SnapshotRuns {
  import opened Wrappers
  import opened Paths
  import opened Calendar
  import opened Volume
  import opened SnapshotStore
  import opened StoreCalls
  import opened Seeding

  /** An open transfer: its directory handle follows the tree when that is renamed. */
  datatype Session = Session(root: Root, base: seq<string>)

  datatype State = State(disk: Disk, sessions: map<nat, Session>)

  // ---------------------------------------------------------------- transferring

  /** One effect of rsync in its destination. Without `--inplace` it writes a new file and renames it over the old
      name. */
  datatype Effect = Delete(path: seq<string>) | MakeDir(path: seq<string>) | MakeLink(path: seq<string>, text: string)
    | Replace(path: seq<string>, inode: nat, data: Data)

  /** An effect of a session on its tree, wherever that now is; the paths are relative to the destination. */
  function Transferred(d: Disk, s: Session, effect: Effect): Disk {
    if s.root !in d.trees then d
    else
      var tree := d.trees[s.root];
      match effect
      case Delete(path) => d.(trees := d.trees[s.root := Emptied(tree, s.base + path)])
      case MakeDir(path) => d.(trees := d.trees[s.root := tree[s.base + path := Dir]])
      case MakeLink(path, text) => d.(trees := d.trees[s.root := tree[s.base + path := Symlink(text)]])
      case Replace(path, inode, data) =>
        d.(trees := d.trees[s.root := tree[s.base + path := File(inode)]], files := d.files[inode := data])
  }

  // ---------------------------------------------------------------- steps

  datatype Step =
    | Open(destination: string, id: nat)
    | Transfer(id: nat, effect: Effect)
    | Close(id: nat)
    | Store(call: Call)

  predicate Enabled(s: State, step: Step) {
    match step
    case Open(destination, id) => id !in s.sessions
    case Transfer(id, effect) => id in s.sessions && (effect.Replace? ==> effect.inode !in s.disk.files)
    case Close(id) => id in s.sessions
    case Store(call) => Allowed(s.disk, call)
  }

  /** The directory handle of a session after a call: renamed with its tree. */
  function Followed(call: Call, s: Session): Session {
    if call.Promote? && s.root == Root(PARTIAL, call.run) then s.(root := Root(HOURLY, call.timestamp)) else s
  }

  function Next(s: State, step: Step): State
    requires Enabled(s, step)
  {
    match step
    case Open(destination, id) =>
      var seeded := Seed(s.disk, destination);
      if seeded.linked.None? then s.(disk := seeded.disk)
      else
        var (run, path) := Destination(destination).value;
        State(seeded.disk, s.sessions[id := Session(Root(PARTIAL, run), path)])
    case Transfer(id, effect) => s.(disk := Transferred(s.disk, s.sessions[id], effect))
    case Close(id) => s.(sessions := s.sessions - {id})
    case Store(call) =>
      State(Apply(s.disk, call), map id | id in s.sessions :: Followed(call, s.sessions[id]))
  }

  /** The target's discipline: it waits for its receiver before it finalizes, so that a run is promoted only when no
      transfer into it is open. */
  ghost predicate Disciplined(s: State, step: Step) {
    step.Store? && step.call.Promote? ==> forall id :: id in s.sessions ==>
      s.sessions[id].root != Root(PARTIAL, step.call.run)
  }

  /** A run: the states, with the steps between them. */
  datatype Run = Run(states: seq<State>, steps: seq<Step>)

  ghost predicate Valid(run: Run) {
    |run.states| == |run.steps| + 1
    && forall i :: 0 <= i < |run.steps| ==>
      Enabled(run.states[i], run.steps[i]) && Disciplined(run.states[i], run.steps[i])
      && run.states[i + 1] == Next(run.states[i], run.steps[i])
  }

  // ---------------------------------------------------------------- what a reader of a snapshot sees

  datatype Seen = SeenDir | SeenFile(content: seq<bv8>) | SeenLink(text: string) | SeenSpecial

  function See(files: map<nat, Data>, node: Node): Seen {
    match node
    case Dir => SeenDir
    case File(inode) => SeenFile(if inode in files then files[inode].content else [])
    case Symlink(text) => SeenLink(text)
    case Special => SeenSpecial
  }

  /** The contents of a tree. */
  function View(d: Disk, r: Root): map<seq<string>, Seen>
    requires r in d.trees
  {
    map p | p in d.trees[r] :: See(d.files, d.trees[r][p])
  }

  // ---------------------------------------------------------------- the invariant

  ghost predicate KnownInodes(d: Disk) {
    forall r, p :: r in d.trees && p in d.trees[r] && d.trees[r][p].File? ==> d.trees[r][p].inode in d.files
  }

  /** Open transfers work in partial runs only. */
  ghost predicate StagedSessions(s: State) {
    forall id :: id in s.sessions ==> s.sessions[id].root.dir == PARTIAL
  }

  ghost predicate Sound(s: State) {
    KnownInodes(s.disk) && InFolders(s.disk) && StagedSessions(s)
  }

  /** A step changes no snapshot: what is there before and after has the same nodes, and no known file changes. */
  lemma StepKeepsSnapshots(s: State, step: Step)
    requires Sound(s) && Enabled(s, step) && Disciplined(s, step)
    ensures var d, e := s.disk, Next(s, step).disk;
      (forall r: Root :: r.dir in TIERS && r in d.trees && r in e.trees ==> e.trees[r] == d.trees[r])
      && forall i :: i in d.files ==> i in e.files && e.files[i] == d.files[i]
  {
    DirsDiffer();
    hide Seed;
    if step.Open? {
      SeedStaysInPartial(s.disk, step.destination);
    }
  }

  predicate KnownTree(files: map<nat, Data>, tree: Tree) {
    forall p :: p in tree && tree[p].File? ==> tree[p].inode in files
  }

  lemma PlacedKnowsInodes(d: Disk, r: Root, tree: Tree)
    requires KnownInodes(d) && KnownTree(d.files, tree)
    ensures KnownInodes(Placed(d, r, tree))
  {
  }

  lemma EmptiedKnowsInodes(d: Disk, r: Root, path: seq<string>)
    requires KnownInodes(d)
    ensures KnownInodes(EmptiedDisk(d, r, path)) && EmptiedDisk(d, r, path).files == d.files
  {
  }

  lemma SeededKnowsInodes(d: Disk, r: Root, path: seq<string>, latest: Tree)
    requires KnownInodes(d) && KnownTree(d.files, latest)
    ensures KnownTree(d.files, SeededTree(TreeAt(d, r), path, latest))
  {
    SeedNodes(TreeAt(d, r), path, latest);
  }

  lemma SeedKnowsInodes(d: Disk, destination: string)
    requires KnownInodes(d)
    ensures KnownInodes(Seed(d, destination).disk)
  {
    hide Destination, StatIn, Blocked, SeededTree, Placed, EmptiedDisk, TreeAt;
    if Destination(destination).Some? {
      var (run, path) := Destination(destination).value;
      var r := Root(PARTIAL, run);
      var emptied := EmptiedDisk(d, r, path);
      EmptiedKnowsInodes(d, r, path);
      assert KnownTree(d.files, LatestTree(emptied));
      hide LatestTree, KnownInodes;
      SeededKnowsInodes(emptied, r, path, LatestTree(emptied));
      SeededKnowsInodes(emptied, r, path, map[]);
      PlacedKnowsInodes(emptied, r, SeededTree(TreeAt(emptied, r), path, LatestTree(emptied)));
      PlacedKnowsInodes(emptied, r, SeededTree(TreeAt(emptied, r), path, map[]));
    }
  }

  lemma SeedNodes(tree: Tree, path: seq<string>, latest: Tree)
    ensures forall p | p in SeededTree(tree, path, latest) && SeededTree(tree, path, latest)[p].File? ::
      (p in tree && tree[p] == SeededTree(tree, path, latest)[p])
      || (p in latest && latest[p] == SeededTree(tree, path, latest)[p])
  {
  }

  lemma StepIsSound(s: State, step: Step)
    requires Sound(s) && Enabled(s, step) && Disciplined(s, step)
    ensures Sound(Next(s, step))
  {
    DirsDiffer();
    hide KnownInodes, InFolders, Seed, Apply, Allowed;
    match step
    case Open(destination, id) =>
      SeedKnowsInodes(s.disk, destination);
      SeedKeepsFolders(s.disk, destination);
    case Transfer(id, effect) =>
      TransferKnowsInodes(s.disk, s.sessions[id], effect);
    case Close(id) =>
    case Store(call) =>
      CallKnowsInodes(s.disk, call);
      CallKeepsFolders(s.disk, call);
  }

  lemma SeedKeepsFolders(d: Disk, destination: string)
    requires InFolders(d)
    ensures InFolders(Seed(d, destination).disk)
  {
    hide Destination, SeededTree, Emptied, LatestTree, StatIn, Blocked;
  }

  lemma TransferKnowsInodes(d: Disk, s: Session, effect: Effect)
    requires KnownInodes(d) && InFolders(d)
    ensures KnownInodes(Transferred(d, s, effect)) && InFolders(Transferred(d, s, effect))
  {
  }

  lemma CallKnowsInodes(d: Disk, call: Call)
    requires KnownInodes(d) && Allowed(d, call)
    ensures KnownInodes(Apply(d, call))
  {
    hide ParseTime;
  }

  lemma {:induction false} RunIsSound(run: Run, i: nat)
    requires Valid(run) && Sound(run.states[0]) && i < |run.states|
    ensures Sound(run.states[i])
  {
    if i > 0 {
      RunIsSound(run, i - 1);
      StepIsSound(run.states[i - 1], run.steps[i - 1]);
    }
  }

  /** Snapshot immutability: over any disciplined run of seeding, transfers, finalizing, retention, space recovery and
      crashes, a snapshot shows the same contents from its creation until it is removed as a whole. */
  lemma {:induction false} SnapshotsAreImmutable(run: Run, i: nat, j: nat, r: Root)
    requires Valid(run) && Sound(run.states[0]) && i <= j < |run.states| && r.dir in TIERS
    requires forall k :: i <= k <= j ==> r in run.states[k].disk.trees
    ensures View(run.states[j].disk, r) == View(run.states[i].disk, r)
    decreases j - i
  {
    if i < j {
      SnapshotsAreImmutable(run, i, j - 1, r);
      RunIsSound(run, j - 1);
      StepKeepsSnapshots(run.states[j - 1], run.steps[j - 1]);
      SameView(run.states[j - 1].disk, run.states[j].disk, r);
    }
  }

  lemma SameView(d: Disk, e: Disk, r: Root)
    requires KnownInodes(d) && r in d.trees && r in e.trees && e.trees[r] == d.trees[r]
    requires forall i :: i in d.files ==> i in e.files && e.files[i] == d.files[i]
    ensures View(d, r) == View(e, r)
  {
  }

  // ---------------------------------------------------------------- the discipline is needed

  lemma {:induction false} FreshInode(inodes: set<nat>) returns (i: nat)
    ensures forall j :: j in inodes ==> j < i
  {
    i := 0;
    if inodes != {} {
      var x :| x in inodes;
      var rest := FreshInode(inodes - {x});
      i := if x < rest then rest else x + 1;
      assert forall j :: j in inodes ==> j == x || j in inodes - {x};
    }
  }

  /** If a run is promoted while a transfer into it is open, that transfer can go on and change the snapshot. */
  lemma OpenTransferChangesSnapshot(s: State, id: nat, run: string, timestamp: string)
    requires Sound(s) && id in s.sessions && s.sessions[id].root == Root(PARTIAL, run)
    requires Enabled(s, Store(Promote(run, timestamp)))
    ensures var promoted, hourly := Next(s, Store(Promote(run, timestamp))), Root(HOURLY, timestamp);
      hourly in promoted.disk.trees &&
      exists effect :: Enabled(promoted, Transfer(id, effect))
        && hourly in Next(promoted, Transfer(id, effect)).disk.trees
        && View(Next(promoted, Transfer(id, effect)).disk, hourly) != View(promoted.disk, hourly)
  {
    DirsDiffer();
    var promoted, hourly := Next(s, Store(Promote(run, timestamp))), Root(HOURLY, timestamp);
    var inode := FreshInode(promoted.disk.files.Keys);
    var path := s.sessions[id].base + ["file"];
    var view := View(promoted.disk, hourly);
    var content: seq<bv8> := if path in view && view[path] == SeenFile([]) then [1] else [];
    var effect := Replace(["file"], inode, Data(content, 0));
    var e := Next(promoted, Transfer(id, effect)).disk;
    assert View(e, hourly)[path] == SeenFile(content);
  }

  // ---------------------------------------------------------------- where `latest` leads

  ghost predicate SoundAlias(d: Disk, t: string, name: string) {
    t in d.tops && ParseTime(name).Some? && d.tops[t] == Alias(Root(HOURLY, name).ToText())
    && (Root(HOURLY, name) in d.trees ==> IsTree(d, Root(HOURLY, name)))
  }

  /** `latest` and `latest.tmp` are absent or lead to an hourly snapshot that, if it is there, is a directory. */
  ghost predicate SoundAliases(d: Disk) {
    forall t :: t in {LATEST, TMP} && t in d.tops ==> exists name :: SoundAlias(d, t, name)
  }

  lemma StepKeepsAliases(s: State, step: Step)
    requires Sound(s) && SoundAliases(s.disk) && Enabled(s, step)
    ensures SoundAliases(Next(s, step).disk)
  {
    DirsDiffer();
    hide ParseTime;
    var d, e := s.disk, Next(s, step).disk;
    forall t | t in {LATEST, TMP} && t in e.tops ensures exists name :: SoundAlias(e, t, name) {
      if step.Store? && step.call.Point? && t == TMP {
        assert SoundAlias(e, t, step.call.target.name);
      } else {
        var before := if step.Store? && step.call.Rename? && t == LATEST then TMP else t;
        var name :| SoundAlias(d, before, name);
        AliasStays(s, step, before, name, t);
      }
    }
  }

  lemma AliasStays(s: State, step: Step, before: string, name: string, t: string)
    requires Sound(s) && Enabled(s, step) && SoundAlias(s.disk, before, name) && t in Next(s, step).disk.tops
    requires t in {LATEST, TMP} && !(step.Store? && step.call.Point? && t == TMP)
    requires before == if step.Store? && step.call.Rename? && t == LATEST then TMP else t
    ensures SoundAlias(Next(s, step).disk, t, name)
  {
    DirsDiffer();
    hide ParseTime, Seed;
    if step.Open? {
      SeedStaysInPartial(s.disk, step.destination);
    }
  }

  /** In every reachable state `latest` is absent, or a symlink to an hourly snapshot that is a directory if it
      exists. */
  lemma {:induction false} LatestLeadsToSnapshot(run: Run, i: nat)
    requires Valid(run) && Sound(run.states[0]) && SoundAliases(run.states[0].disk) && i < |run.states|
    ensures SoundAliases(run.states[i].disk)
  {
    if i > 0 {
      LatestLeadsToSnapshot(run, i - 1);
      RunIsSound(run, i - 1);
      StepKeepsAliases(run.states[i - 1], run.steps[i - 1]);
    }
  }

  /** An empty volume, not served yet. */
  const NEW := State(Disk(map[], map[], map[]), map[])

  lemma NewVolumeIsSound()
    ensures Sound(NEW) && SoundAliases(NEW.disk)
  {
  }

  /** Over any disciplined run that starts with a new volume: trees lie in folders, `latest` leads to a snapshot or is
      absent, and a snapshot shows the same contents as long as it is there. */
  lemma VolumesStaySound(run: Run, i: nat, j: nat)
    requires Valid(run) && run.states[0] == NEW && i <= j < |run.states|
    ensures InFolders(run.states[j].disk) && SoundAliases(run.states[j].disk)
    ensures forall r: Root | r.dir in TIERS && forall k :: i <= k <= j ==> r in run.states[k].disk.trees ::
      View(run.states[j].disk, r) == View(run.states[i].disk, r)
  {
    NewVolumeIsSound();
    RunIsSound(run, j);
    LatestLeadsToSnapshot(run, j);
    forall r: Root | r.dir in TIERS && forall k :: i <= k <= j ==> r in run.states[k].disk.trees
      ensures View(run.states[j].disk, r) == View(run.states[i].disk, r)
    {
      SnapshotsAreImmutable(run, i, j, r);
    }
  }
}
