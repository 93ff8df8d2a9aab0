/** What a successful finalize leaves in each tier (internal/dataplane/snapshot.go): the names, the periods that they
    stand for, what the new snapshots hold, and what is reported. */
module TierSnapshots {
  import opened Wrappers
  import opened Text
  import opened Paths
  import opened Calendar
  import opened Volume
  import opened Retention
  import opened SnapshotNames
  import opened SnapshotStore
  import opened Pruning
  import opened FinalizeRestart

  // ---------------------------------------------------------------- names and periods

  /** The snapshots of a run stand for the day, the week and the month that it lies in: their names parse to midnight of
      that day, of the Monday on or before it, and of the first of its month. */
  lemma TiersNamePeriods(t: Timestamp, monday: Date)
    requires ValidTime(t) && 1 <= t.date.year && ValidDate(monday)
    requires DayNumber(monday) % 7 == 0 && DayNumber(monday) <= DayNumber(t.date) < DayNumber(monday) + 7
    ensures var roots := TierRoots(t.date);
      roots[0].dir == DAILY && ParseSnapshotTime(roots[0].ToText()) == Timestamp(t.date, 0, 0, 0)
      && roots[1].dir == WEEKLY && ParseSnapshotTime(roots[1].ToText()) == Timestamp(monday, 0, 0, 0)
      && roots[2].dir == MONTHLY
      && ParseSnapshotTime(roots[2].ToText()) == Timestamp(Date(t.date.year, t.date.month, 1), 0, 0, 0)
  {
    hide DayNumber, ParseSnapshotTime, TierRoots;
    TierNames(t);
    MondayIsWeekStart(t.date, monday);
    PeriodIsNamed(DAILY, t);
    PeriodIsNamed(WEEKLY, t);
    PeriodIsNamed(MONTHLY, t);
    StartsOfPeriods(t);
  }

  lemma MondayIsWeekStart(d: Date, monday: Date)
    requires ValidDate(d) && ValidDate(monday)
    requires DayNumber(monday) % 7 == 0 && DayNumber(monday) <= DayNumber(d) < DayNumber(monday) + 7
    ensures monday == WeekStart(d)
  {
    hide DayNumber, WeekStart;
    WeekStartIsTheMonday(d, monday);
  }

  lemma TierNames(t: Timestamp)
    requires ValidTime(t)
    ensures TierRoots(t.date)
         == [Root(DAILY, NameIn(DAILY, t)), Root(WEEKLY, NameIn(WEEKLY, t)), Root(MONTHLY, NameIn(MONTHLY, t))]
  {
    DirsDiffer();
    hide FormatDate, FormatMonth, FormatTime, WeekStart;
  }

  lemma PeriodIsNamed(tier: string, t: Timestamp)
    requires tier in TIERS && ValidTime(t) && 1 <= t.date.year
    ensures ParseSnapshotTime(Root(tier, NameIn(tier, t)).ToText()) == PeriodStart(tier, t)
  {
    ParseInvertsNames(tier, t);
  }

  lemma StartsOfPeriods(t: Timestamp)
    requires ValidTime(t)
    ensures PeriodStart(DAILY, t) == Timestamp(t.date, 0, 0, 0)
    ensures PeriodStart(WEEKLY, t) == Timestamp(WeekStart(t.date), 0, 0, 0)
    ensures PeriodStart(MONTHLY, t) == Timestamp(Date(t.date.year, t.date.month, 1), 0, 0, 0)
  {
    DirsDiffer();
    hide WeekStart;
  }

  /** Two runs share a daily, weekly or monthly snapshot iff they lie in the same day, the same week from Monday to
      Sunday, or the same month. */
  lemma TiersAreShared(a: Timestamp, b: Timestamp)
    requires ValidTime(a) && ValidTime(b) && 1 <= a.date.year && 1 <= b.date.year
    ensures TierRoots(a.date)[0] == TierRoots(b.date)[0] <==> DayNumber(a.date) == DayNumber(b.date)
    ensures TierRoots(a.date)[1] == TierRoots(b.date)[1] <==> DayNumber(a.date) / 7 == DayNumber(b.date) / 7
    ensures TierRoots(a.date)[2] == TierRoots(b.date)[2] <==>
      a.date.year == b.date.year && a.date.month == b.date.month
  {
    hide TierRoots, NameIn, DayNumber;
    TierNames(a);
    TierNames(b);
    NamesFollowTime(DAILY, a, b);
    NamesFollowTime(WEEKLY, a, b);
    NamesFollowTime(MONTHLY, a, b);
    Periods(a);
    Periods(b);
  }

  lemma Periods(t: Timestamp)
    requires ValidTime(t)
    ensures PeriodOf(DAILY, t) == DayNumber(t.date) && PeriodOf(WEEKLY, t) == DayNumber(t.date) / 7
    ensures PeriodOf(MONTHLY, t) == t.date.year * 12 + t.date.month
  {
    DirsDiffer();
    hide DayNumber;
  }

  // ---------------------------------------------------------------- the tiers after a finalize

  /** The names of a tier, and `r` among them unless it was there before as something else than a directory. */
  function With(d: Disk, r: Root): set<string> {
    DirNames(d, r.dir) + if r in d.trees then {} else {r.name}
  }

  /** A successful finalize adds one snapshot to each tier, for the run's hour, day, week and month, unless it is there;
      and each tier then keeps its newest names, as many as the field of the policy for that tier says. */
  lemma TiersAfterFinalize(d: Disk, opts: Options, t: Timestamp)
    requires InFolders(d) && Finalize(d, opts).points.Some? && ParseTime(opts.timestamp) == Some(t) && ValidTime(t)
    ensures var e, roots := Finalized(d, opts), TierRoots(t.date);
      DirNames(e, HOURLY) == Kept(DirNames(d, HOURLY) + {opts.timestamp}, opts.retention.hourly)
      && DirNames(e, DAILY) == Kept(With(d, roots[0]), opts.retention.daily)
      && DirNames(e, WEEKLY) == Kept(With(d, roots[1]), opts.retention.weekly)
      && DirNames(e, MONTHLY) == Kept(With(d, roots[2]), opts.retention.monthly)
  {
    TiersBeforeRetention(d, opts, t);
    FinalNames(d, opts);
    TierRootDirs(t);
    KeepFields(opts.retention);
    hide ParseTime, Finalize, Kept, DirNames, With, TierRoots, Startable, Base, Assembled;
  }

  lemma TierRootDirs(t: Timestamp)
    requires ValidTime(t)
    ensures var roots := TierRoots(t.date);
      roots[0].dir == DAILY && roots[1].dir == WEEKLY && roots[2].dir == MONTHLY
  {
  }

  lemma TiersBeforeRetention(d: Disk, opts: Options, t: Timestamp)
    requires InFolders(d) && Finalize(d, opts).points.Some? && ParseTime(opts.timestamp) == Some(t) && ValidTime(t)
    ensures Startable(d, opts) && HourlyRoot(opts) in Repointed(Base(d, opts), HourlyRoot(opts)).trees
    ensures var full, roots := Assembled(Base(d, opts), opts), TierRoots(t.date);
      DirNames(full, HOURLY) == DirNames(d, HOURLY) + {opts.timestamp} && DirNames(full, DAILY) == With(d, roots[0])
      && DirNames(full, WEEKLY) == With(d, roots[1]) && DirNames(full, MONTHLY) == With(d, roots[2])
  {
    FinalizeIffStartable(d, opts);
    BaseIsReady(d, opts);
    hide ParseTime, ValidRunID, SourcesPresent, Finalize, DirNames, TierRoots, Ready, With, Startable, Assembled, Base;
    BaseInFolders(d, opts);
    AssembledUsable(Base(d, opts), opts);
    HourlyNames(d, opts);
    TierRootDirs(t);
    AssembledNames(d, opts, t, 0);
    AssembledNames(d, opts, t, 1);
    AssembledNames(d, opts, t, 2);
  }

  lemma BaseIsReady(d: Disk, opts: Options)
    requires Startable(d, opts)
    ensures ValidArguments(opts) && Ready(Base(d, opts), opts) && IsTree(Base(d, opts), HourlyRoot(opts))
  {
    hide ParseTime, ValidRunID, SourcesPresent;
  }

  lemma FinalNames(d: Disk, opts: Options)
    requires InFolders(d) && Startable(d, opts) && HourlyRoot(opts) in Repointed(Base(d, opts), HourlyRoot(opts)).trees
    ensures var e, full := Finalized(d, opts), Assembled(Base(d, opts), opts);
      forall tier :: tier in TIERS ==> DirNames(e, tier) == Kept(DirNames(full, tier), opts.retention.Keep(tier))
  {
    FinalizeIffStartable(d, opts);
    BaseIsReady(d, opts);
    assert Finalized(d, opts) == Final(Base(d, opts), opts);
    hide Startable, Base, Ready, Finalized, InFolders, Assembled, ValidRunID, ParseTime, DirNames, Kept;
    FinalFromGoal(Base(d, opts), opts);
  }

  lemma FinalFromGoal(d: Disk, opts: Options)
    requires ValidArguments(opts) && HourlyRoot(opts) in d.trees
    requires HourlyRoot(opts) in Repointed(d, HourlyRoot(opts)).trees
    ensures forall tier :: tier in TIERS ==>
      DirNames(Final(d, opts), tier) == Kept(DirNames(Assembled(d, opts), tier), opts.retention.Keep(tier))
  {
    hide DirNames, Kept, Assembled, Dropped, RemoveTop, ParseTime, ValidRunID, Repointed, Without, HourlySurvives;
    GoalNames(Assembled(d, opts), opts.retention);
    LatestIsNoTier();
    RemovedTopNames(Goal(d, opts), LATEST);
  }

  lemma LatestIsNoTier()
    ensures LATEST !in TIERS
  {
    DirsDiffer();
  }

  lemma GoalNames(full: Disk, policy: Policy)
    ensures var goal := Without(full, Dropped(full, policy, TIERS));
      forall tier :: tier in TIERS ==> DirNames(goal, tier) == Kept(DirNames(full, tier), policy.Keep(tier))
  {
    PrunedNames(full, policy);
  }

  lemma RemovedTopNames(d: Disk, dir: string)
    requires dir !in TIERS
    ensures forall tier :: tier in TIERS ==> DirNames(RemoveTop(d, dir), tier) == DirNames(d, tier)
  {
    forall tier | tier in TIERS ensures DirNames(RemoveTop(d, dir), tier) == DirNames(d, tier) {
      SameTreesSameNames(d, RemoveTop(d, dir), tier);
    }
  }

  lemma SameTreesSameNames(d: Disk, e: Disk, tier: string)
    requires forall r: Root | r.dir == tier ::
      (r in d.trees <==> r in e.trees) && (r in d.trees ==> d.trees[r] == e.trees[r])
    ensures DirNames(e, tier) == DirNames(d, tier)
  {
    forall n ensures n in DirNames(e, tier) <==> n in DirNames(d, tier) {
      var r := Root(tier, n);
      assert n in DirNames(d, tier) <==> IsTree(d, r);
      assert n in DirNames(e, tier) <==> IsTree(e, r);
    }
  }

  /** What is assembled before retention, root by root. */
  lemma AssembledTree(d: Disk, opts: Options, r: Root)
    requires ValidArguments(opts) && HourlyRoot(opts) in d.trees && r.dir != LATEST && r.dir != TMP
    ensures HourlyRoot(opts) in Repointed(d, HourlyRoot(opts)).trees
    ensures var full := Assembled(d, opts);
      (r in full.trees <==> r in d.trees || r in Tiers(opts))
      && (r in full.trees ==>
            full.trees[r] == if r in d.trees then d.trees[r] else Linked(d.trees[HourlyRoot(opts)]))
  {
    DirsDiffer();
    hide ParseTime, Linked, TierRoots;
  }

  lemma AssembledNames(d: Disk, opts: Options, t: Timestamp, i: nat)
    requires InFolders(d) && Startable(d, opts) && ParseTime(opts.timestamp) == Some(t) && ValidTime(t) && i < 3
    requires HourlyRoot(opts) in Repointed(Base(d, opts), HourlyRoot(opts)).trees
    ensures DirNames(Assembled(Base(d, opts), opts), TierRoots(t.date)[i].dir) == With(d, TierRoots(t.date)[i])
  {
    hide ParseTime, ValidRunID, SourcesPresent, Ready, Startable, TierRoots, Assembled, Repointed, InFolders, Base,
      Tiers;
    BaseIsReady(d, opts);
    TierRootDirs(t);
    TiersAreRoots(opts, t);
    NotHourly();
    AssembledWith(d, opts, TierRoots(t.date), TierRoots(t.date)[i]);
    NamesWith(d, Assembled(Base(d, opts), opts), TierRoots(t.date)[i]);
  }

  lemma AssembledWith(d: Disk, opts: Options, roots: seq<Root>, r: Root)
    requires ValidArguments(opts) && IsTree(Base(d, opts), HourlyRoot(opts)) && roots == Tiers(opts) && r in roots
    requires HourlyRoot(opts) in Repointed(Base(d, opts), HourlyRoot(opts)).trees
    ensures forall q: Root | q.dir == r.dir ::
      IsTree(Assembled(Base(d, opts), opts), q) <==> IsTree(d, q) || (q == r && q !in d.trees)
  {
    hide ParseTime, ValidRunID, Assembled, Repointed, Base;
    OneOfEach(opts, r);
    hide Tiers;
    forall q: Root | q.dir == r.dir
      ensures IsTree(Assembled(Base(d, opts), opts), q) <==> IsTree(d, q) || (q == r && q !in d.trees)
    {
      AssembledTree(Base(d, opts), opts, q);
      BaseTree(d, opts, q);
    }
  }

  lemma OneOfEach(opts: Options, r: Root)
    requires ParseTime(opts.timestamp).Some? && r in Tiers(opts)
    ensures forall q: Root | q.dir == r.dir :: q in Tiers(opts) ==> q == r
    ensures r.dir != HOURLY && r.dir != PARTIAL && r.dir != LATEST && r.dir != TMP
  {
    DirsDiffer();
    hide ParseTime, TierRoots;
  }

  lemma BaseTree(d: Disk, opts: Options, q: Root)
    requires q.dir != HOURLY && q.dir != PARTIAL
    ensures q in Base(d, opts).trees <==> q in d.trees
    ensures q in d.trees ==> Base(d, opts).trees[q] == d.trees[q]
  {
  }

  lemma NamesWith(d: Disk, full: Disk, r: Root)
    requires forall q: Root | q.dir == r.dir :: IsTree(full, q) <==> IsTree(d, q) || (q == r && q !in d.trees)
    ensures DirNames(full, r.dir) == With(d, r)
  {
    forall n ensures n in DirNames(full, r.dir) <==> n in With(d, r) {
      var q := Root(r.dir, n);
      assert n in DirNames(full, r.dir) <==> IsTree(full, q);
      assert n in DirNames(d, r.dir) <==> IsTree(d, q);
    }
  }

  // ---------------------------------------------------------------- contents and `latest`

  /** The tree that the hourly snapshot of a successful run has: the earlier snapshot, or else the partial run. */
  function Source(d: Disk, opts: Options): Tree
    requires HourlyRoot(opts) in d.trees || PartialRoot(opts) in d.trees
  {
    if HourlyRoot(opts) in d.trees then d.trees[HourlyRoot(opts)] else d.trees[PartialRoot(opts)]
  }

  lemma BaseIsSource(d: Disk, opts: Options)
    requires InFolders(d) && Startable(d, opts)
    ensures HourlyRoot(opts) in d.trees || PartialRoot(opts) in d.trees
    ensures HourlyRoot(opts) in Base(d, opts).trees && Base(d, opts).trees[HourlyRoot(opts)] == Source(d, opts)
  {
    DirsDiffer();
    BaseIsReady(d, opts);
    hide ParseTime, ValidRunID, SourcesPresent;
  }

  /** What is left of the new snapshots: the hourly one is that tree; the others, where they are new, are its
      directories and links and the very files, without special files. Snapshots that were there are as they were. */
  lemma TierContents(d: Disk, opts: Options, t: Timestamp, r: Root)
    requires InFolders(d) && Finalize(d, opts).points.Some? && ParseTime(opts.timestamp) == Some(t) && ValidTime(t)
    requires r.dir in TIERS && r in Finalized(d, opts).trees
    ensures HourlyRoot(opts) in d.trees || PartialRoot(opts) in d.trees
    ensures var tree, source := Finalized(d, opts).trees[r], Source(d, opts);
      if r in d.trees then tree == d.trees[r]
      else if r == HourlyRoot(opts) then tree == source
      else r in TierRoots(t.date)
           && (forall p :: p in tree <==> p in source && (p == [] || !source[p].Special?))
           && (forall p :: p in tree ==> tree[p] == source[p])
  {
    hide ParseTime, Finalize, Finalized, Final, Base, Assembled, Repointed, TierRoots, InFolders;
    Finishes(d, opts);
    NotLatest(r);
    FinalTree(Base(d, opts), opts, r);
    AssembledTree(Base(d, opts), opts, r);
    TiersAreRoots(opts, t);
    if r != HourlyRoot(opts) { BaseTrees(d, opts, r); }
  }

  lemma TiersAreRoots(opts: Options, t: Timestamp)
    requires ParseTime(opts.timestamp) == Some(t) && ValidTime(t)
    ensures Tiers(opts) == TierRoots(t.date)
  {
    hide TierRoots, ParseTime;
  }

  lemma Finishes(d: Disk, opts: Options)
    requires InFolders(d) && Finalize(d, opts).points.Some?
    ensures ValidArguments(opts)
    ensures HourlyRoot(opts) in d.trees || PartialRoot(opts) in d.trees
    ensures HourlyRoot(opts) in Base(d, opts).trees && Base(d, opts).trees[HourlyRoot(opts)] == Source(d, opts)
    ensures Finalized(d, opts) == Final(Base(d, opts), opts)
  {
    FinalizeIffStartable(d, opts);
    hide Finalize, Finalized, Final, Base, Startable, Source, InFolders;
    BaseIsReady(d, opts);
    BaseIsSource(d, opts);
    hide ValidArguments;
  }

  lemma NotLatest(r: Root)
    requires r.dir in TIERS
    ensures r.dir != LATEST && r.dir != TMP && r.dir != PARTIAL
  {
    DirsDiffer();
  }

  lemma BaseTrees(d: Disk, opts: Options, q: Root)
    requires q.dir != PARTIAL && q != HourlyRoot(opts)
    ensures q in Base(d, opts).trees <==> q in d.trees
    ensures q in d.trees ==> Base(d, opts).trees[q] == d.trees[q]
  {
  }

  lemma FinalTree(d: Disk, opts: Options, r: Root)
    requires ValidArguments(opts) && HourlyRoot(opts) in d.trees && r in Final(d, opts).trees
    ensures HourlyRoot(opts) in Repointed(d, HourlyRoot(opts)).trees
    ensures r in Assembled(d, opts).trees && Final(d, opts).trees[r] == Assembled(d, opts).trees[r]
  {
    hide ParseTime, ValidRunID, Assembled, Dropped, Repointed, HourlySurvives;
    HourlyRepointed(d, opts);
    GoalTree(Assembled(d, opts), opts.retention, r);
  }

  lemma GoalTree(full: Disk, policy: Policy, r: Root)
    ensures var goal := Without(full, Dropped(full, policy, TIERS));
      (r in goal.trees ==> r in full.trees && goal.trees[r] == full.trees[r])
      && (r in RemoveTop(goal, LATEST).trees ==> r in full.trees && RemoveTop(goal, LATEST).trees[r] == full.trees[r])
  {
    hide Dropped;
  }

  /** After a success `latest` is a link to the new hourly snapshot, if retention has kept that, and gone otherwise; the
      temporary link is gone. */
  lemma LatestAfterFinalize(d: Disk, opts: Options)
    requires InFolders(d) && Finalize(d, opts).points.Some?
    ensures var e := Finalized(d, opts);
      TMP !in e.tops
      && if Root(HOURLY, opts.timestamp) in e.trees
         then LATEST in e.tops && e.tops[LATEST] == Alias("hourly/" + opts.timestamp) else LATEST !in e.tops
  {
    hide ParseTime, Finalize, Finalized, Final, Base, InFolders, ValidArguments, HourlySurvives;
    Finishes(d, opts);
    FinalLatest(Base(d, opts), opts);
    HourlyPath(opts);
    assert HourlyRoot(opts) == Root(HOURLY, opts.timestamp);
  }

  lemma HourlyPath(opts: Options)
    ensures HourlyRoot(opts).ToText() == "hourly/" + opts.timestamp
  {
  }

  lemma FinalLatest(d: Disk, opts: Options)
    requires ValidArguments(opts) && HourlyRoot(opts) in d.trees
    ensures var e := Final(d, opts);
      TMP !in e.tops && (HourlyRoot(opts) in e.trees <==> HourlySurvives(d, opts))
      && if HourlySurvives(d, opts)
         then LATEST in e.tops && e.tops[LATEST] == Alias(HourlyRoot(opts).ToText()) else LATEST !in e.tops
  {
    hide ParseTime, ValidRunID, Dropped, Assembled;
    HourlyRepointed(d, opts);
    AssembledLatest(d, opts);
    LatestIsNoTier();
  }

  lemma AssembledLatest(d: Disk, opts: Options)
    requires ValidArguments(opts) && HourlyRoot(opts) in d.trees
    ensures HourlyRoot(opts) in Repointed(d, HourlyRoot(opts)).trees
    ensures var full := Assembled(d, opts);
      TMP !in full.tops && LATEST in full.tops && full.tops[LATEST] == Alias(HourlyRoot(opts).ToText())
  {
    DirsDiffer();
    HourlyRepointed(d, opts);
    hide ParseTime, ValidRunID, Linked;
    var tiers := Tiers(opts);
    assert forall r :: r in tiers ==> r.dir in {DAILY, WEEKLY, MONTHLY};
  }

  // ---------------------------------------------------------------- what is reported

  function New(d: Disk, r: Root): seq<string> {
    if r in d.trees then [] else [r.ToText()]
  }

  /** A success reports the hourly snapshot, the link, and the tier snapshots that are new. */
  lemma FinalizeReports(d: Disk, opts: Options, t: Timestamp)
    requires InFolders(d) && Finalize(d, opts).points.Some? && ParseTime(opts.timestamp) == Some(t) && ValidTime(t)
    ensures var roots, hourly := TierRoots(t.date), "hourly/" + opts.timestamp;
      Finalize(d, opts).points
      == Some([hourly, "latest -> " + hourly] + (New(d, roots[0]) + New(d, roots[1]) + New(d, roots[2])))
  {
    hide Finalize, TierRoots, InFolders, New;
    assert ParseTime(opts.timestamp).Some?;
    hide ParseTime;
    TiersAreRoots(opts, t);
    TiersReported(d, opts);
  }

  lemma TiersReported(d: Disk, opts: Options)
    requires InFolders(d) && Finalize(d, opts).points.Some? && ParseTime(opts.timestamp).Some?
    ensures var tiers, hourly := Tiers(opts), "hourly/" + opts.timestamp;
      Finalize(d, opts).points
      == Some([hourly, "latest -> " + hourly] + (New(d, tiers[0]) + New(d, tiers[1]) + New(d, tiers[2])))
  {
    hide ParseTime, Finalize, Promoted, Tiers, Base, InFolders, ValidRunID, New;
    Finishes(d, opts);
    FinalizePoints(d, opts);
    BaseInFolders(d, opts);
    PromotedPoints(Base(d, opts), opts);
    SameNew(d, opts, Tiers(opts)[0]);
    SameNew(d, opts, Tiers(opts)[1]);
    SameNew(d, opts, Tiers(opts)[2]);
  }

  lemma SameNew(d: Disk, opts: Options, r: Root)
    requires r.dir in {DAILY, WEEKLY, MONTHLY}
    ensures New(Base(d, opts), r) == New(d, r)
  {
    NotHourly();
    BaseTrees(d, opts, r);
    hide Base;
  }

  lemma NotHourly()
    ensures HOURLY !in {DAILY, WEEKLY, MONTHLY} && PARTIAL !in {DAILY, WEEKLY, MONTHLY}
  {
    DirsDiffer();
  }

  lemma FinalizePoints(d: Disk, opts: Options)
    requires ValidArguments(opts) && Finalize(d, opts).points.Some?
    ensures Finalize(d, opts).points == Promoted(Base(d, opts), opts).points
  {
    hide ParseTime, ValidRunID, SourcesPresent, Promoted;
    if Promoted(Base(d, opts), opts).points.Some? {
      var points := Promoted(Base(d, opts), opts).points.value;
      assert [] + points == points;
    }
  }

  lemma PromotedPoints(d: Disk, opts: Options)
    requires ValidArguments(opts) && InFolders(d) && HourlyRoot(opts) in d.trees && Promoted(d, opts).points.Some?
    ensures var tiers, hourly := Tiers(opts), "hourly/" + opts.timestamp;
      Promoted(d, opts).points
      == Some([hourly, "latest -> " + hourly] + (New(d, tiers[0]) + New(d, tiers[1]) + New(d, tiers[2])))
  {
    hide ParseTime, ValidRunID, SourcesPresent, LinkAndRetain, Promoted, Repointed, InFolders, Pointed, StatRoot, New,
      Tiers;
    PromotedIffReady(d, opts);
    assert Ready(d, opts);
    PromotedParts(d, opts);
    RestPoints(d, opts);
    ThenPoints(Pointed(d, HourlyRoot(opts)), LinkAndRetain(Repointed(d, HourlyRoot(opts)), opts));
    PointedPoints(d, HourlyRoot(opts));
    assert HourlyRoot(opts).ToText() == "hourly/" + opts.timestamp;
  }

  lemma PointedPoints(d: Disk, hourly: Root)
    requires StatRoot(d, hourly) == Present(true)
    ensures Pointed(d, hourly).points == Some([hourly.ToText(), "latest -> " + hourly.ToText()])
  {
    hide StatRoot;
    assert [hourly.ToText()] + [LatestText(hourly)] == [hourly.ToText(), "latest -> " + hourly.ToText()];
  }

  lemma RestPoints(d: Disk, opts: Options)
    requires ValidArguments(opts) && InFolders(d) && Ready(d, opts)
    ensures var tiers, rest := Tiers(opts), LinkAndRetain(Repointed(d, HourlyRoot(opts)), opts);
      rest.points.Some? ==> rest.points.value == New(d, tiers[0]) + New(d, tiers[1]) + New(d, tiers[2])
  {
    hide ParseTime, ValidRunID, SourcesPresent, LinkTiers, Retain, Repointed, New, TierRoots;
    RepointedUsable(d, opts);
    var start, tiers, hourly := Repointed(d, HourlyRoot(opts)), Tiers(opts), HourlyRoot(opts);
    LinkPoints(start, hourly, tiers);
    NewOfThree(start, tiers);
    RepointedNew(d, hourly, tiers);
    var linked := LinkTiers(start, hourly, tiers);
    var news := NewOnes(start, tiers);
    assert news + [] == news;
  }

  function NewOnes(d: Disk, roots: seq<Root>): seq<string> {
    if roots == [] then [] else NewOnes(d, roots[..|roots| - 1]) + New(d, roots[|roots| - 1])
  }

  lemma NewOfThree(d: Disk, roots: seq<Root>)
    requires |roots| == 3
    ensures NewOnes(d, roots) == New(d, roots[0]) + New(d, roots[1]) + New(d, roots[2])
  {
    hide New;
    var two, one := roots[..2], roots[..1];
    assert two[..1] == one && one[..0] == [] && two[1] == roots[1];
    assert NewOnes(d, one) == New(d, roots[0]);
    assert NewOnes(d, two) == New(d, roots[0]) + New(d, roots[1]);
  }

  lemma RepointedNew(d: Disk, hourly: Root, roots: seq<Root>)
    requires forall r :: r in roots ==> r.dir in {DAILY, WEEKLY, MONTHLY}
    ensures forall r :: r in roots ==> New(Repointed(d, hourly), r) == New(d, r)
  {
    DirsDiffer();
  }

  lemma {:induction false} LinkPoints(d: Disk, hourly: Root, tiers: seq<Root>)
    requires InFolders(d) && hourly in d.trees && Usable(d, tiers)
    requires forall i, j :: 0 <= i < j < |tiers| ==> tiers[i] != tiers[j]
    ensures LinkTiers(d, hourly, tiers).points == Some(NewOnes(d, tiers))
  {
    if tiers != [] {
      hide LinkTiers, Then, Completed, New;
      var n := |tiers| - 1;
      var first, last := tiers[..n], tiers[n];
      assert tiers == first + [last] && tiers[..n + 1] == tiers;
      assert last !in first;
      LinkPoints(d, hourly, first);
      LinkForm(d, hourly, first);
      LinkStep(d, hourly, tiers, n);
      var d' := Completed(d, hourly, first);
      ThenPoints(LinkTiers(d, hourly, first), LinkTier(d', hourly, last));
      NextPoint(d, hourly, first, last);
    }
  }

  lemma NextPoint(d: Disk, hourly: Root, first: seq<Root>, last: Root)
    requires InFolders(d) && hourly in d.trees && Usable(d, first + [last]) && last !in first
    ensures LinkTier(Completed(d, hourly, first), hourly, last).points == Some(New(d, last))
  {
    assert last in first + [last];
    CompletedHas(d, hourly, first, last);
    CompletedTrees(d, hourly, first, last);
    hide Completed;
  }

  lemma CompletedTrees(d: Disk, hourly: Root, first: seq<Root>, last: Root)
    requires hourly in d.trees && last !in first
    ensures last in Completed(d, hourly, first).trees <==> last in d.trees
  {
  }

  // ---------------------------------------------------------------- what is refused

  /** A run id is one plain name without line ends and `=`. */
  lemma RunIDIff(runID: string)
    ensures ValidRunID(runID) <==>
      runID !in {"", ".", ".."} && '/' !in runID && '\\' !in runID && '\r' !in runID && '\n' !in runID && '=' !in runID
  {
    NormalIffFixed(runID);
    if '/' !in runID {
      SplitPlain(runID, '/');
      assert Normal(runID) <==> '\\' !in runID && Plain(runID);
    }
    hide NormalizeRelative, Normal, Split;
  }

  /** Without a target, a good run id or a time, nothing is done. */
  lemma BadArgumentsFail(d: Disk, opts: Options)
    requires opts.targetRoot == "" || !ValidRunID(opts.runID)
      || forall t | ValidTime(t) :: opts.timestamp != FormatTime(t)
    ensures Finalize(d, opts) == Outcome(None, [])
  {
    hide FormatTime, ValidRunID, Promoted, PromotedPartial;
    if ParseTime(opts.timestamp).Some? {
      ParseTimeExact(opts.timestamp, ParseTime(opts.timestamp).value);
    }
    hide ParseTime;
  }
}
