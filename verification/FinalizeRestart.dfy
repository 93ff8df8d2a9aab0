/** Finalizing can be stopped after any directory call and started again (internal/dataplane/snapshot.go). */
module FinalizeRestart {
  import opened Wrappers
  import opened Text
  import opened Ordering
  import opened Paths
  import opened Calendar
  import opened Volume
  import opened Retention
  import opened SnapshotStore
  import opened Pruning

  // ---------------------------------------------------------------- what finalizing amounts to

  predicate ValidArguments(opts: Options) {
    opts.targetRoot != "" && ValidRunID(opts.runID) && ParseTime(opts.timestamp).Some?
  }

  function Tiers(opts: Options): (r: seq<Root>)
    requires ParseTime(opts.timestamp).Some?
    ensures |r| == 3 && r[0].dir == DAILY && r[1].dir == WEEKLY && r[2].dir == MONTHLY
  {
    ParseTimeExact(opts.timestamp, ParseTime(opts.timestamp).value);
    TierRoots(ParseTime(opts.timestamp).value.date)
  }

  /** The promoted snapshot is complete and the tier directories can be used. */
  ghost predicate Ready(d: Disk, opts: Options)
    requires ParseTime(opts.timestamp).Some?
  {
    StatRoot(d, HourlyRoot(opts)) == Present(true) && SourcesPresent(d, HourlyRoot(opts), opts.sources)
    && forall dir :: dir in {DAILY, WEEKLY, MONTHLY} && dir in d.tops ==> d.tops[dir].Folder?
  }

  /** `latest` points to the hourly snapshot `hourly`. */
  function Repointed(d: Disk, hourly: Root): Disk {
    Disk((d.tops - {TMP})[LATEST := Alias(hourly.ToText())],
         map r | r in d.trees && r.dir != LATEST && r.dir != TMP :: d.trees[r], d.files)
  }

  function Dirs(roots: seq<Root>): set<string> {
    set r | r in roots :: r.dir
  }

  /** The missing ones of `tiers` exist. */
  function Completed(d: Disk, hourly: Root, tiers: seq<Root>): Disk
    requires hourly in d.trees
  {
    Disk(map t | t in d.tops.Keys + Dirs(tiers) :: if t in d.tops then d.tops[t] else Folder,
         map r | r in d.trees.Keys + Elements(tiers) :: if r in d.trees then d.trees[r] else Linked(d.trees[hourly]),
         d.files)
  }

  // ---------------------------------------------------------------- linking

  predicate Usable(d: Disk, tiers: seq<Root>) {
    forall r :: r in tiers && r.dir in d.tops ==> d.tops[r.dir].Folder?
  }

  /** `s` is `d` with some of the first tiers linked. */
  ghost predicate Linking(d: Disk, hourly: Root, tiers: seq<Root>, s: Disk)
    requires hourly in d.trees
  {
    exists k :: 0 <= k <= |tiers| && s == Completed(d, hourly, tiers[..k])
  }

  lemma {:induction false} LinkForm(d: Disk, hourly: Root, tiers: seq<Root>)
    requires InFolders(d) && hourly in d.trees && Usable(d, tiers)
    ensures LinkTiers(d, hourly, tiers).points.Some?
    ensures After(d, LinkTiers(d, hourly, tiers).trace) == Completed(d, hourly, tiers)
    ensures forall s :: s in LinkTiers(d, hourly, tiers).trace ==> Linking(d, hourly, tiers, s)
  {
    if tiers == [] {
      assert Completed(d, hourly, []) == d;
    } else {
      hide LinkTiers, LinkTier, Completed, After, Then;
      var n := |tiers| - 1;
      var first, last := tiers[..n], tiers[n];
      assert tiers == first + [last] && tiers[..n + 1] == tiers;
      LinkForm(d, hourly, first);
      var d' := Completed(d, hourly, first);
      CompletedStep(d, hourly, first, last);
      LinkStep(d, hourly, tiers, n);
      AfterThen(d, [], LinkTiers(d, hourly, first), LinkTier(d', hourly, last));
      ThenPoints(LinkTiers(d, hourly, first), LinkTier(d', hourly, last));
      forall s | s in LinkTiers(d, hourly, tiers).trace ensures Linking(d, hourly, tiers, s) {
        ThenMembers(LinkTiers(d, hourly, first), LinkTier(d', hourly, last), s);
        if s in LinkTiers(d, hourly, first).trace {
          var k :| 0 <= k <= n && s == Completed(d, hourly, first[..k]);
          assert first[..k] == tiers[..k];
        } else {
          assert s == Completed(d, hourly, tiers[..n + 1]);
        }
      }
    }
  }

  lemma CompletedStep(d: Disk, hourly: Root, first: seq<Root>, last: Root)
    requires InFolders(d) && hourly in d.trees && Usable(d, first + [last])
    ensures var d' := Completed(d, hourly, first);
      LinkTier(d', hourly, last).points.Some?
      && After(d', LinkTier(d', hourly, last).trace) == Completed(d, hourly, first + [last])
      && forall s :: s in LinkTier(d', hourly, last).trace ==> s == Completed(d, hourly, first + [last])
  {
    var d' := Completed(d, hourly, first);
    assert last in first + [last];
    OneMoreTier(d, hourly, first, last);
    CompletedHas(d, hourly, first, last);
    hide Completed, Usable, LinkTree;
  }

  lemma CompletedHas(d: Disk, hourly: Root, first: seq<Root>, last: Root)
    requires InFolders(d) && hourly in d.trees && (last.dir in d.tops ==> d.tops[last.dir].Folder?)
    ensures var d' := Completed(d, hourly, first);
      hourly in d'.trees && (last.dir in d'.tops ==> d'.tops[last.dir].Folder?)
        && (last in d'.trees ==> last.dir in d'.tops)
  {
    if last in first {
      assert last.dir in Dirs(first);
    }
  }

  lemma OneMoreTier(d: Disk, hourly: Root, first: seq<Root>, last: Root)
    requires InFolders(d) && hourly in d.trees
    ensures var d' := Completed(d, hourly, first);
      Completed(d, hourly, first + [last]) == if last in d'.trees then d' else LinkTree(d', hourly, last)
  {
    OneMoreTops(d, hourly, first, last);
    OneMoreTrees(d, hourly, first, last);
    hide Linked, Dirs;
  }

  lemma OneMoreTops(d: Disk, hourly: Root, first: seq<Root>, last: Root)
    requires InFolders(d) && hourly in d.trees
    ensures var d' := Completed(d, hourly, first);
      Completed(d, hourly, first + [last]).tops == MakeFolder(d', last.dir).tops
      && (last in d'.trees ==> last.dir in d'.tops)
  {
    assert Dirs(first + [last]) == Dirs(first) + {last.dir};
    if last in first {
      assert last.dir in Dirs(first);
    }
  }

  lemma OneMoreTrees(d: Disk, hourly: Root, first: seq<Root>, last: Root)
    requires hourly in d.trees
    ensures var d' := Completed(d, hourly, first);
      hourly in d'.trees && d'.trees[hourly] == d.trees[hourly]
      && Completed(d, hourly, first + [last]).trees
         == if last in d'.trees then d'.trees else d'.trees[last := Linked(d.trees[hourly])]
  {
    hide Dirs, Linked;
    assert Elements(first + [last]) == Elements(first) + {last};
  }

  // ---------------------------------------------------------------- the closed form

  /** The disk before retention. */
  function Assembled(d: Disk, opts: Options): Disk
    requires ParseTime(opts.timestamp).Some? && HourlyRoot(opts) in Repointed(d, HourlyRoot(opts)).trees
  {
    Completed(Repointed(d, HourlyRoot(opts)), HourlyRoot(opts), Tiers(opts))
  }

  lemma HourlyRepointed(d: Disk, opts: Options)
    requires HourlyRoot(opts) in d.trees
    ensures HourlyRoot(opts) in Repointed(d, HourlyRoot(opts)).trees
  {
    DirsDiffer();
  }

  /** The disk after retention, before the check of `latest`. */
  function Goal(d: Disk, opts: Options): Disk
    requires ParseTime(opts.timestamp).Some? && HourlyRoot(opts) in d.trees
  {
    HourlyRepointed(d, opts);
    var full := Assembled(d, opts);
    Without(full, Dropped(full, opts.retention, TIERS))
  }

  lemma PointForm(d: Disk, hourly: Root)
    requires StatRoot(d, hourly) == Present(true)
    ensures PointLatest(d, hourly).points.Some?
    ensures After(d, PointLatest(d, hourly).trace) == Repointed(d, hourly)
  {
    DirsDiffer();
    var d1 := RemoveTop(d, TMP);
    var d3 := RemoveTop(MakeAlias(d1, TMP, hourly.ToText()), LATEST);
    var d4 := MoveAlias(d3, TMP, LATEST);
    assert d4.tops == Repointed(d, hourly).tops;
    assert d4.trees == Repointed(d, hourly).trees;
  }

  /** The check of `latest` removes it exactly when retention removed the new snapshot. */
  lemma CleanupForm(d: Disk, opts: Options)
    requires ParseTime(opts.timestamp).Some? && LATEST in d.tops && d.tops[LATEST] == Alias(HourlyRoot(opts).ToText())
    requires HOURLY in d.tops && d.tops[HOURLY].Folder? && (HourlyRoot(opts) in d.trees ==> IsTree(d, HourlyRoot(opts)))
    ensures CleanupLatest(d) == Outcome(Some([]), if HourlyRoot(opts) in d.trees then [] else [RemoveTop(d, LATEST)])
  {
    hide ParseTime, NormalizeRelative, Segments;
    HourlyText(opts);
    var path := Segments(HourlyRoot(opts).ToText());
    assert Root(path[0], path[1]) == HourlyRoot(opts) && path[2..] == [];
  }

  predicate HourlySurvives(d: Disk, opts: Options)
    requires ParseTime(opts.timestamp).Some? && HourlyRoot(opts) in d.trees
  {
    HourlyRoot(opts) in Goal(d, opts).trees
  }

  /** The disk that finalizing leaves: `latest` goes if the new snapshot was pruned at once. */
  function Final(d: Disk, opts: Options): Disk
    requires ParseTime(opts.timestamp).Some? && HourlyRoot(opts) in d.trees
  {
    if HourlySurvives(d, opts) then Goal(d, opts) else RemoveTop(Goal(d, opts), LATEST)
  }

  /** The whole retention step of a run. */
  lemma RetentionForm(d: Disk, opts: Options, full: Disk)
    requires ValidArguments(opts) && InFolders(d) && Ready(d, opts)
    requires HourlyRoot(opts) in Repointed(d, HourlyRoot(opts)).trees && full == Assembled(d, opts)
    ensures Retain(full, opts.retention).points.Some?
    ensures After(full, Retain(full, opts.retention).trace) == Final(d, opts)
    ensures forall s :: s in Retain(full, opts.retention).trace ==>
      Thinned(full, Dropped(full, opts.retention, TIERS), s) || (!HourlySurvives(d, opts) && s == Final(d, opts))
  {
    hide ParseTime, CleanupLatest, RetainTiers, Then, SourcesPresent, Completed, Repointed, Dropped;
    AssembledUsable(d, opts);
    TiersDistinct();
    var pruned := RetainTiers(full, opts.retention, TIERS);
    RetainForm(full, opts.retention, TIERS);
    GoalForCleanup(d, opts);
    CleanupForm(Goal(d, opts), opts);
    var cleanup := CleanupLatest(Goal(d, opts));
    AfterThen(full, [], pruned, cleanup);
    ThenPoints(pruned, cleanup);
    forall s | s in Retain(full, opts.retention).trace
      ensures Thinned(full, Dropped(full, opts.retention, TIERS), s)
        || (!HourlySurvives(d, opts) && s == Final(d, opts))
    {
      ThenMembers(pruned, cleanup, s);
    }
  }

  /** Linking and pruning from the disk where `latest` has just been replaced. */
  lemma RestForm(d: Disk, opts: Options)
    requires ValidArguments(opts) && InFolders(d) && Ready(d, opts)
    ensures var rest := LinkAndRetain(Repointed(d, HourlyRoot(opts)), opts);
      rest.points.Some? && After(Repointed(d, HourlyRoot(opts)), rest.trace) == Final(d, opts)
      && forall s :: s in rest.trace ==> RestStep(d, opts, s)
  {
    hide ParseTime, LinkTiers, Retain, Then, SourcesPresent, Completed, Repointed, Dropped, TierRoots, Final, Thinned;
    HourlyRepointed(d, opts);
    RepointedUsable(d, opts);
    var start, tiers := Repointed(d, HourlyRoot(opts)), Tiers(opts);
    var linked := LinkTiers(start, HourlyRoot(opts), tiers);
    LinkForm(start, HourlyRoot(opts), tiers);
    var full := Assembled(d, opts);
    RetentionForm(d, opts, full);
    var retained := Silent(Retain(full, opts.retention));
    AfterThen(start, [], linked, retained);
    ThenPoints(linked, retained);
    forall s | s in Then(linked, retained).trace ensures RestStep(d, opts, s) {
      ThenMembers(linked, retained, s);
    }
  }

  /** Every step after `latest` was replaced: some tiers linked, or some snapshots pruned, or `latest` removed. */
  ghost predicate RestStep(d: Disk, opts: Options, s: Disk)
    requires ValidArguments(opts) && HourlyRoot(opts) in d.trees
  {
    HourlyRepointed(d, opts);
    Linking(Repointed(d, HourlyRoot(opts)), HourlyRoot(opts), Tiers(opts), s)
    || Thinned(Assembled(d, opts), Dropped(Assembled(d, opts), opts.retention, TIERS), s)
    || (!HourlySurvives(d, opts) && s == Final(d, opts))
  }

  lemma RepointedUsable(d: Disk, opts: Options)
    requires ValidArguments(opts) && InFolders(d) && Ready(d, opts)
    ensures var start := Repointed(d, HourlyRoot(opts));
      InFolders(start) && HourlyRoot(opts) in start.trees && start.trees[HourlyRoot(opts)] == d.trees[HourlyRoot(opts)]
      && Usable(start, Tiers(opts))
  {
    DirsDiffer();
  }

  lemma AssembledUsable(d: Disk, opts: Options)
    requires ValidArguments(opts) && InFolders(d) && Ready(d, opts)
    ensures HourlyRoot(opts) in Repointed(d, HourlyRoot(opts)).trees
    ensures InFolders(Assembled(d, opts)) && IsTree(Assembled(d, opts), HourlyRoot(opts))
    ensures var full := Assembled(d, opts);
      LATEST in full.tops && full.tops[LATEST] == Alias(HourlyRoot(opts).ToText())
      && forall t :: t in TIERS ==> t in full.tops && full.tops[t].Folder?
  {
    hide ParseTime, ValidRunID, SourcesPresent;
    DirsDiffer();
    RepointedUsable(d, opts);
    var tiers := Tiers(opts);
    assert tiers[0] in tiers && tiers[1] in tiers && tiers[2] in tiers;
  }

  lemma GoalForCleanup(d: Disk, opts: Options)
    requires ValidArguments(opts) && InFolders(d) && Ready(d, opts)
    ensures var goal := Goal(d, opts);
      LATEST in goal.tops && goal.tops[LATEST] == Alias(HourlyRoot(opts).ToText())
      && HOURLY in goal.tops && goal.tops[HOURLY].Folder?
      && (HourlyRoot(opts) in goal.trees ==> IsTree(goal, HourlyRoot(opts)))
  {
    hide ParseTime, Dropped;
    AssembledUsable(d, opts);
  }

  // ---------------------------------------------------------------- the whole run

  lemma {:induction false} LinkedTiersWereUsable(d: Disk, hourly: Root, tiers: seq<Root>)
    requires InFolders(d) && hourly in d.trees && LinkTiers(d, hourly, tiers).points.Some?
    ensures Usable(d, tiers)
  {
    if tiers != [] {
      var n := |tiers| - 1;
      hide Completed, LinkTree;
      LinkStep(d, hourly, tiers, n);
      assert tiers[..|tiers|] == tiers && tiers == tiers[..n] + [tiers[n]];
      LinkedTiersWereUsable(d, hourly, tiers[..n]);
      LinkForm(d, hourly, tiers[..n]);
      TopsKept(d, hourly, tiers[..n]);
    }
  }

  lemma TopsKept(d: Disk, hourly: Root, tiers: seq<Root>)
    requires hourly in d.trees
    ensures var d' := Completed(d, hourly, tiers);
      forall t :: t in d.tops ==> t in d'.tops && d'.tops[t] == d.tops[t]
  {
  }

  /** One state on the way from a promoted disk to the final one. */
  ghost predicate PromotedStep(d: Disk, opts: Options, s: Disk)
    requires ValidArguments(opts) && HourlyRoot(opts) in d.trees
  {
    s in PointLatest(d, HourlyRoot(opts)).trace || RestStep(d, opts, s)
  }

  lemma PointedForm(d: Disk, hourly: Root)
    requires StatRoot(d, hourly) == Present(true)
    ensures Pointed(d, hourly).points.Some? && After(d, Pointed(d, hourly).trace) == Repointed(d, hourly)
    ensures Pointed(d, hourly).trace == PointLatest(d, hourly).trace
  {
    hide StatRoot, PointLatest, Repointed;
    PointForm(d, hourly);
  }

  lemma PromotedParts(d: Disk, opts: Options)
    requires ValidArguments(opts) && StatRoot(d, HourlyRoot(opts)) == Present(true)
    requires SourcesPresent(d, HourlyRoot(opts), opts.sources)
    ensures var pointed, rest := Pointed(d, HourlyRoot(opts)), LinkAndRetain(Repointed(d, HourlyRoot(opts)), opts);
      Promoted(d, opts) == Then(pointed, rest)
      && (Promoted(d, opts).points.Some? <==> rest.points.Some?)
      && After(d, Promoted(d, opts).trace) == After(Repointed(d, HourlyRoot(opts)), rest.trace)
  {
    hide ParseTime, Pointed, LinkAndRetain, SourcesPresent, Repointed, After, StatRoot, Then;
    PointedForm(d, HourlyRoot(opts));
    var pointed, rest := Pointed(d, HourlyRoot(opts)), LinkAndRetain(Repointed(d, HourlyRoot(opts)), opts);
    AfterThen(d, [], pointed, rest);
    ThenPoints(pointed, rest);
  }

  lemma PromotedReady(d: Disk, opts: Options)
    requires ValidArguments(opts) && InFolders(d) && Ready(d, opts)
    ensures Promoted(d, opts).points.Some? && After(d, Promoted(d, opts).trace) == Final(d, opts)
    ensures forall s :: s in Promoted(d, opts).trace ==> PromotedStep(d, opts, s)
  {
    hide ParseTime, Pointed, PointLatest, LinkAndRetain, SourcesPresent, Repointed, Final, RestStep, Promoted;
    hide After, Then, InFolders;
    PromotedParts(d, opts);
    RestForm(d, opts);
    PointedForm(d, HourlyRoot(opts));
    forall s | s in Promoted(d, opts).trace ensures PromotedStep(d, opts, s) {
      ThenMembers(Pointed(d, HourlyRoot(opts)), LinkAndRetain(Repointed(d, HourlyRoot(opts)), opts), s);
    }
  }

  /** `finalizePromotedSnapshot` succeeds exactly on a ready disk. */
  lemma PromotedIffReady(d: Disk, opts: Options)
    requires ValidArguments(opts) && InFolders(d)
    ensures Promoted(d, opts).points.Some? <==> Ready(d, opts)
    ensures HourlyRoot(opts) !in d.trees ==> Promoted(d, opts).trace == []
  {
    if Ready(d, opts) {
      PromotedReady(d, opts);
    } else if StatRoot(d, HourlyRoot(opts)) == Present(true) && SourcesPresent(d, HourlyRoot(opts), opts.sources) {
      hide LinkAndRetain, Repointed, Promoted, SourcesPresent;
      PromotedParts(d, opts);
      if Promoted(d, opts).points.Some? {
        RestWasReady(d, opts);
      }
    } else {
      PromotedFails(d, opts);
    }
  }

  lemma PromotedFails(d: Disk, opts: Options)
    requires ValidArguments(opts)
    requires StatRoot(d, HourlyRoot(opts)) != Present(true) || !SourcesPresent(d, HourlyRoot(opts), opts.sources)
    ensures Promoted(d, opts) == Outcome(None, [])
  {
  }

  lemma RestWasReady(d: Disk, opts: Options)
    requires ValidArguments(opts) && InFolders(d) && StatRoot(d, HourlyRoot(opts)) == Present(true)
    requires LinkAndRetain(Repointed(d, HourlyRoot(opts)), opts).points.Some?
    ensures forall dir :: dir in {DAILY, WEEKLY, MONTHLY} && dir in d.tops ==> d.tops[dir].Folder?
  {
    hide ParseTime, LinkTiers, Retain;
    DirsDiffer();
    HourlyRepointed(d, opts);
    var start, tiers := Repointed(d, HourlyRoot(opts)), Tiers(opts);
    assert LinkTiers(start, HourlyRoot(opts), tiers).points.Some?;
    LinkedTiersWereUsable(start, HourlyRoot(opts), tiers);
    assert tiers[0] in tiers && tiers[1] in tiers && tiers[2] in tiers;
    forall dir | dir in {DAILY, WEEKLY, MONTHLY} && dir in d.tops ensures d.tops[dir].Folder? {
      assert dir in start.tops && start.tops[dir] == d.tops[dir];
    }
  }

  /** The disk on which the promoted snapshot is finalized. */
  function Base(d: Disk, opts: Options): Disk {
    if StatRoot(d, PartialRoot(opts)) == Present(true) && StatRoot(d, HourlyRoot(opts)) == Missing
    then MoveTree(MakeFolder(d, HOURLY), PartialRoot(opts), HourlyRoot(opts)) else d
  }

  /** What a run needs to succeed: good arguments, a complete partial run or an hourly snapshot left by an earlier
      attempt, and usable tier directories. */
  ghost predicate Startable(d: Disk, opts: Options) {
    ValidArguments(opts) && Ready(Base(d, opts), opts) &&
    match StatRoot(d, PartialRoot(opts))
    case Missing => true
    case Failed => false
    case Present(isDir) => isDir && SourcesPresent(d, PartialRoot(opts), opts.sources)
  }

  lemma BaseInFolders(d: Disk, opts: Options)
    requires InFolders(d)
    ensures InFolders(Base(d, opts))
  {
  }

  ghost predicate RunStep(d: Disk, opts: Options, s: Disk)
    requires Startable(d, opts)
  {
    s == MakeFolder(d, HOURLY) || s == Base(d, opts) || PromotedStep(Base(d, opts), opts, s)
  }

  /** FinalizeBackup succeeds exactly on a startable disk; its steps then lead to the closed form. */
  lemma FinalizeIffStartable(d: Disk, opts: Options)
    requires InFolders(d)
    ensures Finalize(d, opts).points.Some? <==> Startable(d, opts)
    ensures Startable(d, opts) ==> Finalized(d, opts) == Final(Base(d, opts), opts)
    ensures Startable(d, opts) ==> forall s :: s in Finalize(d, opts).trace ==> RunStep(d, opts, s)
  {
    if ValidArguments(opts) {
      BaseInFolders(d, opts);
      FromBase(d, opts);
      PromotedIffReady(Base(d, opts), opts);
      hide ParseTime, Promoted, SourcesPresent, Final, InFolders, After, PromotedStep, ValidRunID, Then;
      if Ready(Base(d, opts), opts) {
        PromotedReady(Base(d, opts), opts);
      }
    }
  }

  lemma FromBase(d: Disk, opts: Options)
    requires ValidArguments(opts)
    ensures StatRoot(d, PartialRoot(opts)).Present? && !StatRoot(d, PartialRoot(opts)).isDir ==>
      Finalize(d, opts) == Outcome(None, [])
    ensures StatRoot(d, PartialRoot(opts)).Present? && !SourcesPresent(d, PartialRoot(opts), opts.sources) ==>
      Finalize(d, opts) == Outcome(None, [])
    ensures StatRoot(d, PartialRoot(opts)).Failed? ==> Finalize(d, opts) == Outcome(None, [])
    ensures StatRoot(d, PartialRoot(opts)).Missing? ==> Finalize(d, opts) == Promoted(d, opts) && Base(d, opts) == d
    ensures StatRoot(d, PartialRoot(opts)) == Present(true) && SourcesPresent(d, PartialRoot(opts), opts.sources) ==>
      var rest := Promoted(Base(d, opts), opts);
      match StatRoot(d, HourlyRoot(opts))
      case Failed => Finalize(d, opts) == Outcome(None, [])
      case Present(_) => Finalize(d, opts) == rest
      case Missing =>
        (Finalize(d, opts).points.Some? <==> rest.points.Some?)
        && Finalized(d, opts) == After(Base(d, opts), rest.trace)
        && forall s :: s in Finalize(d, opts).trace <==>
           s == MakeFolder(d, HOURLY) || s == Base(d, opts) || s in rest.trace
  {
    hide Promoted, SourcesPresent, ParseTime, ValidRunID;
  }

  // ---------------------------------------------------------------- restarting

  /** Retention keeps the new hourly name. */
  predicate HourlyKept(d: Disk, opts: Options) {
    Keeps(DirNames(d, HOURLY) + {opts.timestamp}, opts.retention.hourly, opts.timestamp)
  }

  lemma KeptIffSurvives(d: Disk, opts: Options)
    requires InFolders(d) && Startable(d, opts)
    ensures HourlyKept(d, opts) <==> HourlySurvives(Base(d, opts), opts)
  {
    hide ParseTime, ValidRunID, SourcesPresent, Keeps;
    var base := Base(d, opts);
    BaseInFolders(d, opts);
    AssembledUsable(base, opts);
    var full := Assembled(base, opts);
    HourlyNames(d, opts);
    assert HourlyRoot(opts).name in DirNames(full, HOURLY) by { assert IsTree(full, HourlyRoot(opts)); }
  }

  lemma HourlyNames(d: Disk, opts: Options)
    requires InFolders(d) && Startable(d, opts) && HourlyRoot(opts) in Repointed(Base(d, opts), HourlyRoot(opts)).trees
    ensures DirNames(Assembled(Base(d, opts), opts), HOURLY) == DirNames(d, HOURLY) + {opts.timestamp}
  {
    hide ParseTime, ValidRunID, SourcesPresent;
    DirsDiffer();
    var base := Base(d, opts);
    var full := Assembled(base, opts);
    forall n ensures n in DirNames(full, HOURLY) <==> n in DirNames(d, HOURLY) + {opts.timestamp} {
      var r := Root(HOURLY, n);
      assert r in full.trees <==> r in base.trees;
      assert r in full.trees ==> full.trees[r] == base.trees[r];
      assert r != HourlyRoot(opts) ==> (r in base.trees <==> r in d.trees);
      assert r != HourlyRoot(opts) && r in d.trees ==> base.trees[r] == d.trees[r];
      assert IsTree(base, HourlyRoot(opts));
      if IsTree(d, r) || IsTree(full, r) { assert r.name == n; }
    }
  }

  /** `s` lies between the promoted disk `d` and its final form: some tiers may be linked, some doomed snapshots
      gone. */
  ghost predicate Between(d: Disk, opts: Options, s: Disk)
    requires ValidArguments(opts) && HourlyRoot(opts) in d.trees
  {
    HourlyRepointed(d, opts);
    var hourly, full := HourlyRoot(opts), Assembled(d, opts);
    && InFolders(s) && s.files == d.files && hourly in s.trees
    && (forall r :: r in s.trees && r.dir != LATEST && r.dir != TMP ==> r in full.trees && s.trees[r] == full.trees[r])
    && (forall r :: r in d.trees && r !in s.trees ==>
          r.dir == LATEST || r.dir == TMP || r in Dropped(full, opts.retention, TIERS))
    && TopsBetween(d, s)
  }

  lemma BetweenIsReady(d: Disk, opts: Options, s: Disk)
    requires ValidArguments(opts) && InFolders(d) && Ready(d, opts) && Between(d, opts, s)
    ensures Ready(s, opts)
  {
    hide ParseTime, ValidRunID, Dropped;
    DirsDiffer();
    var hourly := HourlyRoot(opts);
    HourlyRepointed(d, opts);
    assert s.trees[hourly] == Assembled(d, opts).trees[hourly] == d.trees[hourly];
    SourcesFollowTree(d, s, hourly, opts.sources);
  }

  lemma SourcesFollowTree(d: Disk, s: Disk, r: Root, sources: seq<string>)
    requires r in d.trees && r in s.trees && d.trees[r] == s.trees[r] && StatRoot(d, r).Present?
    requires StatRoot(s, r).Present?
    ensures SourcesPresent(d, r, sources) <==> SourcesPresent(s, r, sources)
  {
    hide NormalizeRelative, Segments, StatIn;
    forall source ensures SourcePresent(d, r, source) <==> SourcePresent(s, r, source) {
      if NormalizeRelative(source).Ok? {
        var path := [r.dir, r.name] + Segments(NormalizeRelative(source).value);
        assert Root(path[0], path[1]) == r;
      }
    }
  }

  /** Two disks that differ only in doomed snapshots are pruned to the same one. */
  lemma PrunedTheSame(a: Disk, b: Disk, policy: Policy)
    requires a.tops == b.tops && a.files == b.files && b.trees.Keys <= a.trees.Keys
    requires forall r :: r in a.trees && r !in b.trees ==> r in Dropped(a, policy, TIERS)
    requires forall r :: r in b.trees ==> IsTree(a, r) == IsTree(b, r)
    requires forall r :: r in b.trees ==> a.trees[r] == b.trees[r] || r in Dropped(a, policy, TIERS)
    ensures Without(a, Dropped(a, policy, TIERS)) == Without(b, Dropped(b, policy, TIERS))
  {
    hide Kept, IsTree;
    forall r | r in b.trees ensures r in Dropped(b, policy, TIERS) <==> r in Dropped(a, policy, TIERS) {
      if r.dir in TIERS {
        var names, fewer := DirNames(a, r.dir), DirNames(b, r.dir);
        FewerNames(a, b, policy, r.dir);
        DoomedNamesDoNotMatter(names, fewer, policy.Keep(r.dir));
        if IsTree(b, r) { assert r.name in fewer && r.name in names; }
      }
    }
    assert Without(a, Dropped(a, policy, TIERS)).trees == Without(b, Dropped(b, policy, TIERS)).trees;
  }

  lemma FewerNames(a: Disk, b: Disk, policy: Policy, tier: string)
    requires b.trees.Keys <= a.trees.Keys && tier in TIERS
    requires forall r :: r in a.trees && r !in b.trees ==> r in Dropped(a, policy, TIERS)
    requires forall r :: r in b.trees ==> IsTree(a, r) == IsTree(b, r)
    ensures DirNames(b, tier) <= DirNames(a, tier)
    ensures DirNames(a, tier) - DirNames(b, tier) <= Doomed(DirNames(a, tier), policy.Keep(tier))
  {
    hide Kept, IsTree;
    forall n | n in DirNames(a, tier) - DirNames(b, tier) ensures n in Doomed(DirNames(a, tier), policy.Keep(tier)) {
      var r := Root(tier, n);
      assert IsTree(a, r);
      assert r in b.trees && IsTree(b, r) ==> n in DirNames(b, tier);
    }
  }

  /** The final form does not depend on how far a run got. */
  lemma BetweenSameGoal(d: Disk, opts: Options, s: Disk)
    requires ValidArguments(opts) && InFolders(d) && Ready(d, opts) && Between(d, opts, s)
    ensures Goal(s, opts) == Goal(d, opts)
  {
    hide ParseTime, ValidRunID, Ready;
    HourlyRepointed(d, opts);
    HourlyRepointed(s, opts);
    BetweenSameTops(d, opts, s);
    BetweenSameTrees(d, opts, s);
    PrunedTheSame(Assembled(d, opts), Assembled(s, opts), opts.retention);
  }

  function AssembledTop(d: Disk, opts: Options, t: string): Option<Top> {
    if t == LATEST then Some(Alias(HourlyRoot(opts).ToText()))
    else if t == TMP then None
    else if t in d.tops then Some(d.tops[t])
    else if t in {DAILY, WEEKLY, MONTHLY} then Some(Folder)
    else None
  }

  lemma AssembledTops(d: Disk, opts: Options, t: string)
    requires ValidArguments(opts) && HourlyRoot(opts) in Repointed(d, HourlyRoot(opts)).trees
    ensures var tops := Assembled(d, opts).tops;
      AssembledTop(d, opts, t) == if t in tops then Some(tops[t]) else None
  {
    hide ParseTime, ValidRunID;
    DirsDiffer();
    var tiers := Tiers(opts);
    assert tiers[0] in tiers && tiers[1] in tiers && tiers[2] in tiers;
    assert Dirs(tiers) == {DAILY, WEEKLY, MONTHLY};
  }

  lemma BetweenSameTops(d: Disk, opts: Options, s: Disk)
    requires ValidArguments(opts) && HourlyRoot(opts) in d.trees && Between(d, opts, s)
    requires HourlyRoot(opts) in Repointed(d, HourlyRoot(opts)).trees
    requires HourlyRoot(opts) in Repointed(s, HourlyRoot(opts)).trees
    ensures Assembled(s, opts).tops == Assembled(d, opts).tops
  {
    hide ParseTime, ValidRunID, Dropped, Assembled, InFolders;
    var a, b := Assembled(d, opts).tops, Assembled(s, opts).tops;
    forall t ensures (t in a <==> t in b) && (t in a ==> a[t] == b[t]) {
      AssembledTops(d, opts, t);
      AssembledTops(s, opts, t);
    }
  }

  lemma BetweenSameTrees(d: Disk, opts: Options, s: Disk)
    requires ValidArguments(opts) && InFolders(d) && Ready(d, opts) && Between(d, opts, s)
    requires HourlyRoot(opts) in Repointed(d, HourlyRoot(opts)).trees
    requires HourlyRoot(opts) in Repointed(s, HourlyRoot(opts)).trees
    ensures var a, b := Assembled(d, opts), Assembled(s, opts);
      b.trees.Keys <= a.trees.Keys
      && (forall r :: r in a.trees && r !in b.trees ==> r in Dropped(a, opts.retention, TIERS))
      && (forall r :: r in b.trees ==> IsTree(a, r) == IsTree(b, r))
      && forall r :: r in b.trees ==> a.trees[r] == b.trees[r] || r in Dropped(a, opts.retention, TIERS)
  {
    hide ParseTime, ValidRunID, Dropped, SourcesPresent, InFolders;
    DirsDiffer();
    var a, b := Assembled(d, opts), Assembled(s, opts);
    var hourly := HourlyRoot(opts);
    assert s.trees[hourly] == a.trees[hourly] == d.trees[hourly];
    forall r | r in b.trees && b.trees[r] != a.trees[r]
      ensures r in Dropped(a, opts.retention, TIERS) && IsTree(a, r) == IsTree(b, r)
    {
      assert r in Tiers(opts) && r !in s.trees && r in d.trees;
      DroppedAreTrees(a, opts.retention, r);
    }
  }

  lemma DroppedAreTrees(d: Disk, policy: Policy, r: Root)
    ensures r in Dropped(d, policy, TIERS) ==> IsTree(d, r)
  {
  }

  /** Outside the entries `latest` and `latest.tmp`, `s` has the top-level entries of `d`, and maybe tier folders. */
  ghost predicate TopsBetween(d: Disk, s: Disk) {
    (forall t :: t != LATEST && t != TMP && t in d.tops ==> t in s.tops && s.tops[t] == d.tops[t]) &&
    (forall t :: t != LATEST && t != TMP && t in s.tops && t !in d.tops ==>
       t in {DAILY, WEEKLY, MONTHLY} && s.tops[t].Folder?)
  }

  lemma IsBetween(d: Disk, opts: Options, s: Disk)
    requires ValidArguments(opts) && Ready(d, opts) && InFolders(s) && s.files == d.files
    requires HourlyRoot(opts) in Repointed(d, HourlyRoot(opts)).trees && TopsBetween(d, s)
    requires forall r :: r in s.trees && r.dir != LATEST && r.dir != TMP ==>
      r in Assembled(d, opts).trees && s.trees[r] == Assembled(d, opts).trees[r]
    requires forall r :: r in d.trees && r.dir != LATEST && r.dir != TMP ==> r in s.trees
    ensures Between(d, opts, s)
  {
    hide ParseTime, ValidRunID, SourcesPresent, Dropped, Assembled;
    DirsDiffer();
    AssembledKeeps(d, opts);
  }

  /** `s` differs from `d` only in the entries `latest` and `latest.tmp`. */
  ghost predicate Near(d: Disk, s: Disk) {
    InFolders(s) && s.files == d.files
    && (forall t :: t != LATEST && t != TMP ==> (t in d.tops <==> t in s.tops))
    && (forall t :: t != LATEST && t != TMP && t in d.tops ==> d.tops[t] == s.tops[t])
    && (forall r :: r in s.trees ==> r in d.trees && s.trees[r] == d.trees[r])
    && (forall r :: r in d.trees && r.dir != LATEST && r.dir != TMP ==> r in s.trees)
  }

  lemma NearRemove(d: Disk, s: Disk, t: string)
    requires Near(d, s) && (t == LATEST || t == TMP)
    ensures Near(d, RemoveTop(s, t))
  {
  }

  lemma NearAlias(d: Disk, s: Disk, text: string)
    requires Near(d, s) && TMP !in s.tops
    ensures Near(d, MakeAlias(s, TMP, text))
  {
  }

  lemma NearMove(d: Disk, s: Disk)
    requires Near(d, s) && TMP in s.tops && s.tops[TMP].Alias? && LATEST !in s.tops
    ensures Near(d, MoveAlias(s, TMP, LATEST))
  {
  }

  lemma PointSteps(d: Disk, hourly: Root, s: Disk)
    requires InFolders(d) && StatRoot(d, hourly) == Present(true) && s in PointLatest(d, hourly).trace
    ensures Near(d, s)
  {
    DirsDiffer();
    hide StatRoot, InFolders, Near;
    var d1 := RemoveTop(d, TMP);
    var d2 := MakeAlias(d1, TMP, hourly.ToText());
    var d3 := RemoveTop(d2, LATEST);
    NearSelf(d);
    NearRemove(d, d, TMP);
    NearAlias(d, d1, hourly.ToText());
    NearRemove(d, d2, LATEST);
    NearMove(d, d3);
  }

  lemma NearSelf(d: Disk)
    requires InFolders(d)
    ensures Near(d, d)
  {
  }

  lemma PointStepIsBetween(d: Disk, opts: Options, s: Disk)
    requires ValidArguments(opts) && InFolders(d) && Ready(d, opts) && s in PointLatest(d, HourlyRoot(opts)).trace
    ensures Between(d, opts, s)
  {
    hide ParseTime, ValidRunID, SourcesPresent, Between, Assembled, Repointed, PointLatest;
    HourlyRepointed(d, opts);
    AssembledKeeps(d, opts);
    PointSteps(d, HourlyRoot(opts), s);
    IsBetween(d, opts, s);
  }

  lemma LinkStepIsBetween(d: Disk, opts: Options, k: nat, s: Disk)
    requires ValidArguments(opts) && InFolders(d) && Ready(d, opts) && k <= 3
    requires HourlyRoot(opts) in Repointed(d, HourlyRoot(opts)).trees
    requires s == Completed(Repointed(d, HourlyRoot(opts)), HourlyRoot(opts), Tiers(opts)[..k])
    ensures Between(d, opts, s)
  {
    hide ParseTime, ValidRunID, SourcesPresent, Between, PartialRoot;
    var tiers := Tiers(opts);
    assert forall r :: r in tiers[..k] ==> r in tiers && r.dir in {DAILY, WEEKLY, MONTHLY};
    LinkStepTops(d, opts, k, s);
    IsBetween(d, opts, s);
  }

  lemma CompletedTops(d: Disk, hourly: Root, tiers: seq<Root>)
    requires InFolders(d) && hourly in d.trees && Usable(d, tiers)
    ensures var s := Completed(d, hourly, tiers);
      InFolders(s) && (forall t :: t in d.tops ==> t in s.tops && s.tops[t] == d.tops[t])
      && forall t :: t in s.tops && t !in d.tops ==> t in Dirs(tiers) && s.tops[t].Folder?
  {
    forall r | r in tiers ensures r.dir in Dirs(tiers) {
    }
  }

  lemma RepointedIsNear(d: Disk, hourly: Root)
    requires InFolders(d)
    ensures Near(d, Repointed(d, hourly))
  {
    DirsDiffer();
  }

  lemma LinkStepTops(d: Disk, opts: Options, k: nat, s: Disk)
    requires ValidArguments(opts) && InFolders(d) && Ready(d, opts) && k <= 3
    requires HourlyRoot(opts) in Repointed(d, HourlyRoot(opts)).trees
    requires s == Completed(Repointed(d, HourlyRoot(opts)), HourlyRoot(opts), Tiers(opts)[..k])
    ensures TopsBetween(d, s) && InFolders(s)
  {
    hide ParseTime, ValidRunID, SourcesPresent, Repointed, Completed;
    DirsDiffer();
    var tiers := Tiers(opts)[..k];
    assert forall r :: r in tiers ==> r in Tiers(opts) && r.dir in {DAILY, WEEKLY, MONTHLY};
    RepointedIsNear(d, HourlyRoot(opts));
    CompletedTops(Repointed(d, HourlyRoot(opts)), HourlyRoot(opts), tiers);
  }

  lemma PruneStepIsBetween(d: Disk, opts: Options, s: Disk)
    requires ValidArguments(opts) && InFolders(d) && Ready(d, opts) && HourlySurvives(d, opts)
    requires HourlyRoot(opts) in Repointed(d, HourlyRoot(opts)).trees
    requires Thinned(Assembled(d, opts), Dropped(Assembled(d, opts), opts.retention, TIERS), s)
    ensures Between(d, opts, s)
  {
    hide ParseTime, ValidRunID, SourcesPresent, Dropped, Assembled;
    AssembledUsable(d, opts);
    AssembledKeeps(d, opts);
    forall t ensures t in s.tops <==> AssembledTop(d, opts, t).Some? {
      AssembledTops(d, opts, t);
    }
    forall t | t in s.tops ensures AssembledTop(d, opts, t) == Some(s.tops[t]) {
      AssembledTops(d, opts, t);
    }
  }

  lemma AssembledKeeps(d: Disk, opts: Options)
    requires ValidArguments(opts) && HourlyRoot(opts) in Repointed(d, HourlyRoot(opts)).trees
    ensures var full := Assembled(d, opts);
      full.files == d.files && forall r :: r in d.trees && r.dir != LATEST && r.dir != TMP ==>
        r in full.trees && full.trees[r] == d.trees[r]
  {
  }

  lemma StepIsBetween(d: Disk, opts: Options, s: Disk)
    requires ValidArguments(opts) && InFolders(d) && Ready(d, opts) && HourlySurvives(d, opts)
    requires PromotedStep(d, opts, s)
    ensures Between(d, opts, s)
  {
    HourlyRepointed(d, opts);
    hide Between, Ready, InFolders, HourlySurvives, PointLatest, Completed, Repointed, Tiers, Thinned, Assembled,
      Dropped;
    if s in PointLatest(d, HourlyRoot(opts)).trace {
      PointStepIsBetween(d, opts, s);
    } else if Thinned(Assembled(d, opts), Dropped(Assembled(d, opts), opts.retention, TIERS), s) {
      PruneStepIsBetween(d, opts, s);
    } else {
      var k :| 0 <= k <= 3 && s == Completed(Repointed(d, HourlyRoot(opts)), HourlyRoot(opts), Tiers(opts)[..k]);
      LinkStepIsBetween(d, opts, k, s);
    }
  }

  /** The disk on which a run restarted from `s` finalizes, when the first run promoted nothing itself. */
  lemma RestartBase(d: Disk, opts: Options, s: Disk)
    requires InFolders(d) && Startable(d, opts) && Between(Base(d, opts), opts, s)
    ensures Base(s, opts) == s && Startable(s, opts)
  {
    hide ParseTime, ValidRunID, SourcesPresent, Dropped, Ready;
    DirsDiffer();
    var base := Base(d, opts);
    BaseInFolders(d, opts);
    BetweenIsReady(base, opts, s);
    PartialStays(d, opts, s);
    if StatRoot(s, PartialRoot(opts)).Present? {
      SourcesFollowTree(d, s, PartialRoot(opts), opts.sources);
    }
  }

  lemma PartialStays(d: Disk, opts: Options, s: Disk)
    requires InFolders(d) && Startable(d, opts) && Between(Base(d, opts), opts, s)
    ensures StatRoot(s, HourlyRoot(opts)).Present?
    ensures StatRoot(s, PartialRoot(opts)).Present? ==>
      StatRoot(d, PartialRoot(opts)) == Present(true) == StatRoot(s, PartialRoot(opts))
      && s.trees[PartialRoot(opts)] == d.trees[PartialRoot(opts)]
    ensures !StatRoot(s, PartialRoot(opts)).Failed?
  {
    hide ParseTime, ValidRunID, SourcesPresent, Dropped, Assembled;
    DirsDiffer();
    var base, partial := Base(d, opts), PartialRoot(opts);
    HourlyRepointed(base, opts);
    OtherTrees(base, opts, partial);
    assert PARTIAL in s.tops ==> PARTIAL in base.tops && s.tops[PARTIAL] == base.tops[PARTIAL];
    if partial in s.trees {
      assert s.trees[partial] == base.trees[partial];
    }
  }

  lemma OtherTrees(d: Disk, opts: Options, r: Root)
    requires ValidArguments(opts) && HourlyRoot(opts) in Repointed(d, HourlyRoot(opts)).trees && r.dir == PARTIAL
    ensures r in Assembled(d, opts).trees <==> r in d.trees
    ensures r in d.trees ==> Assembled(d, opts).trees[r] == d.trees[r]
  {
    hide ParseTime, ValidRunID;
    DirsDiffer();
  }

  /** Stopping after any step and starting again reaches the disk of the uninterrupted run, if retention keeps the new
      snapshot. */
  lemma RestartAfterAnyStep(d: Disk, opts: Options, i: nat)
    requires InFolders(d) && Finalize(d, opts).points.Some? && HourlyKept(d, opts) && i < |Finalize(d, opts).trace|
    ensures Finalize(Finalize(d, opts).trace[i], opts).points.Some?
    ensures Finalized(Finalize(d, opts).trace[i], opts) == Finalized(d, opts)
  {
    hide ValidRunID, ParseTime, HourlyKept, Between, PromotedStep, Ready, Goal, Finalize;
    FinalizeIffStartable(d, opts);
    KeptIffSurvives(d, opts);
    BaseInFolders(d, opts);
    var base, s := Base(d, opts), Finalize(d, opts).trace[i];
    assert RunStep(d, opts, s);
    if s == base {
      BaseIsBetween(base, opts);
      RestartBetween(d, opts, s);
    } else if s == MakeFolder(d, HOURLY) {
      FolderChangesNothing(d, opts);
    } else {
      StepIsBetween(base, opts, s);
      RestartBetween(d, opts, s);
    }
  }

  lemma BaseIsBetween(d: Disk, opts: Options)
    requires ValidArguments(opts) && InFolders(d) && Ready(d, opts)
    ensures Between(d, opts, d)
  {
    hide ParseTime, ValidRunID, SourcesPresent, Dropped;
    HourlyRepointed(d, opts);
  }

  lemma RestartBetween(d: Disk, opts: Options, s: Disk)
    requires InFolders(d) && Startable(d, opts) && HourlySurvives(Base(d, opts), opts)
    requires Between(Base(d, opts), opts, s)
    ensures Finalize(s, opts).points.Some? && Finalized(s, opts) == Final(Base(d, opts), opts)
  {
    hide ValidRunID, ParseTime, Ready, Goal, Finalize, Base;
    BaseInFolders(d, opts);
    RestartBase(d, opts, s);
    BetweenSameGoal(Base(d, opts), opts, s);
    FinalizeIffStartable(s, opts);
  }

  lemma FolderChangesNothing(d: Disk, opts: Options)
    requires InFolders(d) && Startable(d, opts) && MakeFolder(d, HOURLY) != Base(d, opts)
    ensures Finalize(MakeFolder(d, HOURLY), opts).points.Some?
    ensures Finalized(MakeFolder(d, HOURLY), opts) == Finalized(d, opts)
  {
    hide ValidRunID, ParseTime, Goal, Finalize, Final, NormalizeRelative, Segments, StatIn;
    DirsDiffer();
    var s := MakeFolder(d, HOURLY);
    FinalizeIffStartable(d, opts);
    FinalizeIffStartable(s, opts);
    if StatRoot(d, PartialRoot(opts)) == Present(true) {
      SourcesFollowTree(d, s, PartialRoot(opts), opts.sources);
    }
  }

  /** When retention prunes the new snapshot at once, the run ends by removing `latest`; the disk before that last step
      is the goal. */
  lemma PrunedAtOnce(d: Disk, opts: Options)
    requires ValidArguments(opts) && InFolders(d) && Ready(d, opts) && !HourlySurvives(d, opts)
    ensures Goal(d, opts) in Promoted(d, opts).trace
  {
    hide ParseTime, ValidRunID, SourcesPresent, Goal, Assembled, Repointed, LinkTiers, RetainTiers, CleanupLatest, Then;
    HourlyRepointed(d, opts);
    PointedForm(d, HourlyRoot(opts)) by { ReadyMeans(d, opts); }
    PromotedParts(d, opts) by { ReadyMeans(d, opts); }
    GoalIsPruned(d, opts);
    var start := Repointed(d, HourlyRoot(opts));
    var full := Assembled(d, opts);
    var linked := LinkTiers(start, HourlyRoot(opts), Tiers(opts));
    var pruned := RetainTiers(full, opts.retention, TIERS);
    var cleanup := CleanupLatest(After(full, pruned.trace));
    FirstSteps(pruned, cleanup, Goal(d, opts));
    SecondSteps(linked, Silent(Then(pruned, cleanup)), Goal(d, opts));
    SecondSteps(Pointed(d, HourlyRoot(opts)), LinkAndRetain(start, opts), Goal(d, opts));
  }

  lemma ReadyMeans(d: Disk, opts: Options)
    requires ValidArguments(opts) && Ready(d, opts)
    ensures StatRoot(d, HourlyRoot(opts)) == Present(true) && SourcesPresent(d, HourlyRoot(opts), opts.sources)
  {
  }

  lemma FirstSteps(first: Outcome, second: Outcome, s: Disk)
    requires s in first.trace
    ensures s in Then(first, second).trace
  {
  }

  lemma SecondSteps(first: Outcome, second: Outcome, s: Disk)
    requires first.points.Some? && s in second.trace
    ensures s in Then(first, second).trace
  {
  }

  lemma GoalIsPruned(d: Disk, opts: Options)
    requires ValidArguments(opts) && InFolders(d) && Ready(d, opts) && !HourlySurvives(d, opts)
    ensures HourlyRoot(opts) in Repointed(d, HourlyRoot(opts)).trees
    ensures var start, full := Repointed(d, HourlyRoot(opts)), Assembled(d, opts);
      LinkTiers(start, HourlyRoot(opts), Tiers(opts)).points.Some?
      && After(start, LinkTiers(start, HourlyRoot(opts), Tiers(opts)).trace) == full
      && RetainTiers(full, opts.retention, TIERS).points.Some?
      && Goal(d, opts) in RetainTiers(full, opts.retention, TIERS).trace
  {
    hide ParseTime, ValidRunID, SourcesPresent, Dropped, LinkTiers, RetainTiers;
    RepointedUsable(d, opts);
    AssembledUsable(d, opts);
    TiersDistinct();
    LinkForm(Repointed(d, HourlyRoot(opts)), HourlyRoot(opts), Tiers(opts));
    RetainForm(Assembled(d, opts), opts.retention, TIERS);
  }

  /** The goal without its `latest` is not what a run from the goal leaves. */
  lemma RestartFromPruned(d: Disk, opts: Options)
    requires InFolders(d) && Startable(d, opts) && !HourlySurvives(Base(d, opts), opts)
    ensures Finalized(Goal(Base(d, opts), opts), opts) != Finalized(d, opts)
  {
    hide ValidRunID, ParseTime, SourcesPresent, Finalize, Dropped;
    var base := Base(d, opts);
    BaseInFolders(d, opts);
    FinalizeIffStartable(d, opts);
    GoalForCleanup(base, opts);
    AssembledUsable(base, opts);
    var goal, final := Goal(base, opts), Final(base, opts);
    assert LATEST in goal.tops && LATEST !in final.tops;
    GoalPartial(d, opts, goal);
    assert InFolders(goal);
    if StatRoot(goal, PartialRoot(opts)).Missing? {
      NothingToDo(goal, opts);
    } else {
      SourcesFollowTree(d, goal, PartialRoot(opts), opts.sources);
      PromotionTakesPartial(goal, opts);
    }
  }

  lemma NothingToDo(d: Disk, opts: Options)
    requires ValidArguments(opts) && InFolders(d) && StatRoot(d, PartialRoot(opts)).Missing?
    requires HourlyRoot(opts) !in d.trees
    ensures Finalized(d, opts) == d
  {
    hide ParseTime, ValidRunID, SourcesPresent, Promoted;
    FromBase(d, opts);
    PromotedIffReady(d, opts);
  }

  /** What is left of the partial run once the new snapshot was pruned. */
  lemma GoalPartial(d: Disk, opts: Options, goal: Disk)
    requires InFolders(d) && Startable(d, opts) && !HourlySurvives(Base(d, opts), opts)
    requires goal == Goal(Base(d, opts), opts)
    ensures HourlyRoot(opts) !in goal.trees && HOURLY in goal.tops && goal.tops[HOURLY].Folder?
    ensures StatRoot(goal, PartialRoot(opts)).Missing? || StatRoot(goal, PartialRoot(opts)) == Present(true)
    ensures StatRoot(goal, PartialRoot(opts)).Present? ==>
      StatRoot(d, PartialRoot(opts)) == Present(true) && goal.trees[PartialRoot(opts)] == d.trees[PartialRoot(opts)]
    ensures StatRoot(goal, PartialRoot(opts)).Present? <==> PartialRoot(opts) in d.trees && HourlyRoot(opts) in d.trees
  {
    hide ParseTime, ValidRunID, SourcesPresent, Assembled;
    DirsDiffer();
    var base := Base(d, opts);
    BaseInFolders(d, opts);
    HourlyRepointed(base, opts);
    OtherTrees(base, opts, PartialRoot(opts));
    AssembledTops(base, opts, PARTIAL);
    AssembledUsable(base, opts);
  }

  /** A run that promotes a partial run does not leave it behind. */
  lemma PromotionTakesPartial(d: Disk, opts: Options)
    requires ValidArguments(opts) && InFolders(d) && StatRoot(d, PartialRoot(opts)) == Present(true)
    requires SourcesPresent(d, PartialRoot(opts), opts.sources) && StatRoot(d, HourlyRoot(opts)).Missing?
    requires forall t :: t in TIERS && t in d.tops ==> d.tops[t].Folder?
    ensures PartialRoot(opts) !in Finalized(d, opts).trees
  {
    hide ParseTime, ValidRunID, SourcesPresent, Final, Finalize;
    DirsDiffer();
    var base := Base(d, opts);
    BaseInFolders(d, opts);
    SourcesMove(d, opts);
    assert Ready(base, opts);
    FinalizeIffStartable(d, opts);
    FinalPartial(base, opts);
  }

  lemma SourcesMove(d: Disk, opts: Options)
    requires StatRoot(d, PartialRoot(opts)) == Present(true) && StatRoot(d, HourlyRoot(opts)).Missing?
    requires SourcesPresent(d, PartialRoot(opts), opts.sources)
    ensures SourcesPresent(Base(d, opts), HourlyRoot(opts), opts.sources)
    ensures StatRoot(Base(d, opts), HourlyRoot(opts)) == Present(true)
  {
    hide NormalizeRelative, Segments, StatIn;
    DirsDiffer();
    var base, hourly, partial := Base(d, opts), HourlyRoot(opts), PartialRoot(opts);
    assert base.trees[hourly] == d.trees[partial];
    forall source | source in opts.sources ensures SourcePresent(base, hourly, source) {
      assert SourcePresent(d, partial, source);
      var segments := Segments(NormalizeRelative(source).value);
      var a, b := [partial.dir, partial.name] + segments, [hourly.dir, hourly.name] + segments;
      assert Root(a[0], a[1]) == partial && Root(b[0], b[1]) == hourly && a[2..] == b[2..] == segments;
    }
  }

  lemma FinalPartial(d: Disk, opts: Options)
    requires ValidArguments(opts) && InFolders(d) && Ready(d, opts) && PartialRoot(opts) !in d.trees
    ensures PartialRoot(opts) !in Final(d, opts).trees
  {
    hide ParseTime, ValidRunID, SourcesPresent, Assembled;
    HourlyRepointed(d, opts);
    OtherTrees(d, opts, PartialRoot(opts));
  }

  /** Restartability, exactly: every interrupted run can be started again to the same end iff retention keeps the new
      hourly name. */
  lemma RestartableIffKept(d: Disk, opts: Options)
    requires InFolders(d) && Finalize(d, opts).points.Some?
    ensures HourlyKept(d, opts) <==>
      forall s :: s in Finalize(d, opts).trace ==> Finalized(s, opts) == Finalized(d, opts)
  {
    hide ValidRunID, ParseTime, HourlyKept, Ready, Goal, Finalize, Base;
    if HourlyKept(d, opts) {
      forall s | s in Finalize(d, opts).trace ensures Finalized(s, opts) == Finalized(d, opts) {
        var i :| 0 <= i < |Finalize(d, opts).trace| && Finalize(d, opts).trace[i] == s;
        RestartAfterAnyStep(d, opts, i);
      }
    } else {
      FinalizeIffStartable(d, opts);
      KeptIffSurvives(d, opts);
      BaseInFolders(d, opts);
      PrunedAtOnce(Base(d, opts), opts);
      BaseStepsAreSteps(d, opts, Goal(Base(d, opts), opts));
      RestartFromPruned(d, opts);
    }
  }

  lemma BaseStepsAreSteps(d: Disk, opts: Options, s: Disk)
    requires Startable(d, opts) && s in Promoted(Base(d, opts), opts).trace
    ensures s in Finalize(d, opts).trace
  {
    hide Promoted, SourcesPresent, ParseTime, ValidRunID;
    FromBase(d, opts);
  }

  /** A second run after a successful one leaves the volume alone, unless the first one found both the partial run and
      its snapshot and retention then pruned the snapshot: only then is the partial run promoted again. */
  lemma SecondRunIsIdle(d: Disk, opts: Options)
    requires InFolders(d) && Finalize(d, opts).points.Some?
    ensures Finalized(Finalized(d, opts), opts) == Finalized(d, opts) <==>
      HourlyKept(d, opts) || !(PartialRoot(opts) in d.trees && HourlyRoot(opts) in d.trees)
  {
    hide ValidRunID, ParseTime, HourlyKept, Ready, Finalize, Base, SourcesPresent, Goal;
    FinalizeIffStartable(d, opts);
    KeptIffSurvives(d, opts);
    BaseInFolders(d, opts);
    var final := Finalized(d, opts);
    if HourlyKept(d, opts) {
      GoalIsBetween(Base(d, opts), opts);
      RestartBetween(d, opts, final);
    } else {
      SecondRunAfterPruning(d, opts, final);
    }
  }

  lemma GoalIsBetween(d: Disk, opts: Options)
    requires ValidArguments(opts) && InFolders(d) && Ready(d, opts) && HourlySurvives(d, opts)
    ensures Between(d, opts, Goal(d, opts))
  {
    hide ValidRunID, ParseTime, Assembled, Dropped, Between;
    HourlyRepointed(d, opts);
    PruneStepIsBetween(d, opts, Goal(d, opts));
  }

  lemma SecondRunAfterPruning(d: Disk, opts: Options, final: Disk)
    requires InFolders(d) && Startable(d, opts) && !HourlySurvives(Base(d, opts), opts)
    requires final == Final(Base(d, opts), opts)
    ensures Finalized(final, opts) == final <==> !(PartialRoot(opts) in d.trees && HourlyRoot(opts) in d.trees)
  {
    hide ValidRunID, ParseTime, SourcesPresent, Finalize, Dropped, Assembled;
    DirsDiffer();
    var base := Base(d, opts);
    var goal := Goal(base, opts);
    BaseInFolders(d, opts);
    AssembledUsable(base, opts);
    GoalPartial(d, opts, goal);
    assert InFolders(goal) && InFolders(final);
    if StatRoot(goal, PartialRoot(opts)).Missing? {
      NothingToDo(final, opts);
    } else {
      SourcesFollowTree(d, final, PartialRoot(opts), opts.sources);
      PromotionTakesPartial(final, opts);
    }
  }

  /** The disk of a first run that transferred an empty directory. */
  function FirstRun(): Disk {
    Disk(map[PARTIAL := Folder], map[Root(PARTIAL, "run") := map[[] := Dir]], map[])
  }

  /** Both kinds of run occur: the first run of a volume succeeds, and its snapshot is kept unless the policy keeps no
      hourly snapshot at all. */
  lemma FirstRunSucceeds(t: Timestamp, policy: Policy)
    requires ValidTime(t)
    ensures var opts := Options("/target", "run", FormatTime(t), [], policy);
      InFolders(FirstRun()) && Finalize(FirstRun(), opts).points.Some?
        && (HourlyKept(FirstRun(), opts) <==> policy.hourly != 0)
  {
    var opts := Options("/target", "run", FormatTime(t), [], policy);
    FirstRunIsStartable(t, opts);
    NoHourlyYet(opts);
    hide ValidRunID, ParseTime, FormatTime, Finalize, Startable, DirNames;
    FinalizeIffStartable(FirstRun(), opts);
  }

  /** The disk of a run whose partial run is there beside its snapshot: both are empty directories. */
  function PromotedTwice(timestamp: string): Disk {
    Disk(map[PARTIAL := Folder, HOURLY := Folder],
         map[Root(PARTIAL, "run") := map[[] := Dir], Root(HOURLY, timestamp) := map[[] := Dir]], map[])
  }

  /** A second run that is not idle does occur: with both directories there, exactly when no hourly snapshot is kept. */
  lemma SecondRunPromotesAgain(t: Timestamp, policy: Policy)
    requires ValidTime(t)
    ensures var d, opts := PromotedTwice(FormatTime(t)), Options("/target", "run", FormatTime(t), [], policy);
      InFolders(d) && Finalize(d, opts).points.Some?
      && (Finalized(Finalized(d, opts), opts) == Finalized(d, opts) <==> policy.hourly != 0)
  {
    var opts := Options("/target", "run", FormatTime(t), [], policy);
    var d := PromotedTwice(FormatTime(t));
    PromotedTwiceIsStartable(t, opts);
    OneHourly(opts);
    hide ValidRunID, ParseTime, FormatTime, Finalize, Startable, DirNames, HourlyKept;
    FinalizeIffStartable(d, opts);
    SecondRunIsIdle(d, opts);
  }

  lemma OneHourly(opts: Options)
    ensures HourlyKept(PromotedTwice(opts.timestamp), opts) <==> opts.retention.hourly != 0
  {
    DirsDiffer();
    LessTrichotomy(opts.timestamp, opts.timestamp);
    var names := DirNames(PromotedTwice(opts.timestamp), HOURLY);
    assert forall name :: name in names ==> name == opts.timestamp;
    assert Newer(names + {opts.timestamp}, opts.timestamp) == {};
  }

  lemma PromotedTwiceIsStartable(t: Timestamp, opts: Options)
    requires ValidTime(t) && opts == Options("/target", "run", FormatTime(t), [], opts.retention)
    ensures InFolders(PromotedTwice(opts.timestamp)) && Startable(PromotedTwice(opts.timestamp), opts)
  {
    DirsDiffer();
    RunIsValid();
    ParseTimeExact(opts.timestamp, t);
    hide ValidRunID, ParseTime, FormatTime;
    var d := PromotedTwice(opts.timestamp);
    assert StatRoot(d, PartialRoot(opts)) == Present(true) && StatRoot(d, HourlyRoot(opts)) == Present(true);
    assert Base(d, opts) == d;
  }

  lemma NoHourlyYet(opts: Options)
    ensures HourlyKept(FirstRun(), opts) <==> opts.retention.hourly != 0
  {
    DirsDiffer();
    LessTrichotomy(opts.timestamp, opts.timestamp);
    assert DirNames(FirstRun(), HOURLY) == {};
    assert Newer({} + {opts.timestamp}, opts.timestamp) == {};
  }

  lemma FirstRunIsStartable(t: Timestamp, opts: Options)
    requires ValidTime(t) && opts == Options("/target", "run", FormatTime(t), [], opts.retention)
    ensures InFolders(FirstRun()) && Startable(FirstRun(), opts)
  {
    DirsDiffer();
    RunIsValid();
    ParseTimeExact(opts.timestamp, t);
    hide ValidRunID, ParseTime, FormatTime;
    var d, base := FirstRun(), Base(FirstRun(), opts);
    assert StatRoot(d, PartialRoot(opts)) == Present(true) && StatRoot(d, HourlyRoot(opts)) == Missing;
    assert base.trees == map[HourlyRoot(opts) := map[[] := Dir]]
      && base.tops == map[PARTIAL := Folder, HOURLY := Folder];
  }

  lemma RunIsValid()
    ensures ValidRunID("run")
  {
    SplitPlain("run", '/');
    assert "."[0] == '.' && "run"[0] == 'r';
    NormalIffFixed("run");
  }
}
