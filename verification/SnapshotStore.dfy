/** Finalizing a backup and pruning snapshots (internal/dataplane/snapshot.go), step by step: every operation is given
    with the sequence of disks it leaves behind, one for each directory call, so that it can be stopped anywhere. */
module SnapshotStore {
  import opened Wrappers
  import opened Text
  import opened Ordering
  import opened Paths
  import opened Calendar
  import opened Volume

  /** What an operation does: its steps, and what it returns (None for an error). */
  datatype Outcome = Outcome(points: Option<seq<string>>, trace: seq<Disk>)

  /** The disk after the steps `trace`, starting from `d`. */
  function After(d: Disk, trace: seq<Disk>): Disk {
    if trace == [] then d else trace[|trace| - 1]
  }

  datatype Policy = Policy(hourly: int, daily: int, weekly: int, monthly: int) {
    function Keep(tier: string): int {
      if tier == HOURLY then hourly else if tier == DAILY then daily else if tier == WEEKLY then weekly else monthly
    }
  }

  datatype Options = Options(targetRoot: string, runID: string, timestamp: string, sources: seq<string>,
                             retention: Policy)

  // ---------------------------------------------------------------- retention

  function PruneSteps(d: Disk, tier: string, names: seq<string>): Outcome {
    if names == [] then Outcome(Some([]), [])
    else
      var before := PruneSteps(d, tier, names[..|names| - 1]);
      var r := Root(tier, names[|names| - 1]);
      Outcome(Some(before.points.value + [r.ToText()]), before.trace + [RemoveTree(After(d, before.trace), r)])
  }

  /** The names that pruning removes: the first of the sorted names, while more than `keep` are left. */
  ghost function Excess(d: Disk, tier: string, keep: int): seq<string> {
    var names := SortedNames(DirNames(d, tier));
    if 0 <= keep < |names| then names[..|names| - keep] else []
  }

  ghost function RetainTier(d: Disk, tier: string, keep: int): Outcome {
    if keep < 0 || tier !in d.tops then Outcome(Some([]), [])
    else if !d.tops[tier].Folder? then Outcome(None, [])
    else PruneSteps(d, tier, Excess(d, tier, keep))
  }

  lemma AfterThen(d: Disk, past: seq<Disk>, first: Outcome, second: Outcome)
    requires first.points.Some?
    ensures After(d, Then(first, second).trace) == After(After(d, first.trace), second.trace)
    ensures past + Then(first, second).trace == past + first.trace + second.trace
  {
  }

  /** The second operation, run where the first one stopped, unless that failed. */
  function Then(first: Outcome, second: Outcome): Outcome {
    if first.points.None? then first
    else if second.points.None? then Outcome(None, first.trace + second.trace)
    else Outcome(Some(first.points.value + second.points.value), first.trace + second.trace)
  }

  ghost function RetainTiers(d: Disk, policy: Policy, tiers: seq<string>): Outcome {
    if tiers == [] then Outcome(Some([]), [])
    else
      var before := RetainTiers(d, policy, tiers[..|tiers| - 1]);
      var tier := tiers[|tiers| - 1];
      Then(before, RetainTier(After(d, before.trace), tier, policy.Keep(tier)))
  }

  function CleanupLatest(d: Disk): Outcome {
    if LATEST !in d.tops || !d.tops[LATEST].Alias? then Outcome(Some([]), [])
    else
      var target := NormalizeRelative(d.tops[LATEST].text);
      if target.Err? then Outcome(Some([]), [RemoveTop(d, LATEST)])
      else match StatPath(d, Segments(target.value))
        case Missing => Outcome(Some([]), [RemoveTop(d, LATEST)])
        case Failed => Outcome(None, [])
        case Present(_) => Outcome(Some([]), [])
  }

  ghost function Retain(d: Disk, policy: Policy): Outcome {
    var pruned := RetainTiers(d, policy, TIERS);
    Then(pruned, CleanupLatest(After(d, pruned.trace)))
  }

  // ---------------------------------------------------------------- finalizing

  /** `validateRunID`. */
  predicate ValidRunID(runID: string) {
    NormalizeRelative(runID) == Ok(runID) && '/' !in runID && '\r' !in runID && '\n' !in runID && '=' !in runID
  }

  /** One source of `validateSnapshotSources`; the path is joined to the root of the tree and cleaned. */
  predicate SourcePresent(d: Disk, r: Root, source: string) {
    NormalizeRelative(source).Ok? && StatPath(d, [r.dir, r.name] + Segments(NormalizeRelative(source).value)).Present?
  }

  predicate SourcesPresent(d: Disk, r: Root, sources: seq<string>) {
    forall s :: s in sources ==> SourcePresent(d, r, s)
  }

  function LatestText(target: Root): string { "latest -> " + target.ToText() }

  /** `replaceLatestSymlink` for a snapshot. */
  function PointLatest(d: Disk, target: Root): Outcome {
    if StatRoot(d, target) != Present(true) then Outcome(None, [])
    else
      var d1 := RemoveTop(d, TMP);
      var d2 := MakeAlias(d1, TMP, target.ToText());
      var d3 := RemoveTop(d2, LATEST);
      var d4 := MoveAlias(d3, TMP, LATEST);
      Outcome(Some([LatestText(target)]), [d1, d2, d3, d4])
  }

  /** Creating a tier snapshot, if it does not exist. */
  function LinkTier(d: Disk, hourly: Root, tier: Root): Outcome {
    match StatRoot(d, tier)
    case Missing =>
      if hourly in d.trees then Outcome(Some([tier.ToText()]), [LinkTree(d, hourly, tier)]) else Outcome(None, [])
    case Failed => Outcome(None, [])
    case Present(_) => Outcome(Some([]), [])
  }

  function LinkTiers(d: Disk, hourly: Root, tiers: seq<Root>): Outcome {
    if tiers == [] then Outcome(Some([]), [])
    else
      var before := LinkTiers(d, hourly, tiers[..|tiers| - 1]);
      Then(before, LinkTier(After(d, before.trace), hourly, tiers[|tiers| - 1]))
  }

  function HourlyRoot(opts: Options): Root { Root(HOURLY, opts.timestamp) }

  /** A root whose name has the characters of a timestamp is written in normal form. */
  lemma RootText(r: Root)
    requires r.dir in TIERS && r.name != "" && forall c :: c in r.name ==> NameChar(c)
    ensures NormalizeRelative(r.ToText()) == Ok(r.ToText()) && Segments(r.ToText()) == [r.dir, r.name]
  {
    assert "."[0] == '.' && ".."[0] == '.' && r.name[0] in r.name;
    assert Join([r.dir, r.name], '/') == r.ToText() by {
      assert [r.dir, r.name][1..] == [r.name];
    }
    JoinIsNormal([r.dir, r.name]);
    NormalIffFixed(r.ToText());
  }

  lemma HourlyText(opts: Options)
    requires ParseTime(opts.timestamp).Some?
    ensures NormalizeRelative(HourlyRoot(opts).ToText()) == Ok(HourlyRoot(opts).ToText())
    ensures Segments(HourlyRoot(opts).ToText()) == [HOURLY, opts.timestamp]
  {
    hide FormatTime, NormalizeRelative, Segments;
    ParseTimeExact(opts.timestamp, ParseTime(opts.timestamp).value);
    TimeChars(ParseTime(opts.timestamp).value);
    RootText(HourlyRoot(opts));
  }

  function PartialRoot(opts: Options): Root { Root(PARTIAL, opts.runID) }

  /** `tierSnapshotNames`. */
  function TierRoots(date: Date): (r: seq<Root>)
    requires ValidDate(date) && 0 <= date.year <= 9999
    ensures |r| == 3
  {
    WeekStartYear(date);
    [Root(DAILY, FormatDate(date)), Root(WEEKLY, FormatDate(WeekStart(date))), Root(MONTHLY, FormatMonth(date))]
  }

  lemma WeekStartYear(date: Date)
    requires ValidDate(date) && 0 <= date.year <= 9999
    ensures -1 <= WeekStart(date).year <= 9999
  {
    hide DayNumber;
    WeekStartIsTheMonday(date, WeekStart(date));
    NotYet(date);
    DayNumberFollowsCalendar(WeekStart(date), Date(date.year - 1, 1, 1));
    DayNumberFollowsCalendar(date, WeekStart(date));
  }

  lemma NotYet(date: Date)
    requires ValidDate(date)
    ensures DayNumber(Date(date.year - 1, 1, 1)) + 6 < DayNumber(date)
  {
    hide IsLeap;
    YearStep(date.year - 1);
    MonthsGrow(date.year, 1, date.month);
    assert DaysBeforeMonth(date.year, 1) == 0 && DaysBeforeMonth(date.year - 1, 1) == 0;
  }

  /** `finalizePromotedSnapshot`. */
  ghost function Promoted(d: Disk, opts: Options): Outcome
    requires ParseTime(opts.timestamp).Some?
  {
    ParseTimeExact(opts.timestamp, ParseTime(opts.timestamp).value);
    var hourly := HourlyRoot(opts);
    if !SourcesPresent(d, hourly, opts.sources) then Outcome(None, [])
    else
      var pointed := Pointed(d, hourly);
      Then(pointed, LinkAndRetain(After(d, pointed.trace), opts))
  }

  /** The first two points of `finalizePromotedSnapshot`. */
  function Pointed(d: Disk, hourly: Root): Outcome {
    Then(Outcome(Some([hourly.ToText()]), []), PointLatest(d, hourly))
  }

  /** The rest of `finalizePromotedSnapshot`; the pruned names are not returned. */
  ghost function LinkAndRetain(d: Disk, opts: Options): Outcome
    requires ParseTime(opts.timestamp).Some?
  {
    ParseTimeExact(opts.timestamp, ParseTime(opts.timestamp).value);
    var linked := LinkTiers(d, HourlyRoot(opts), TierRoots(ParseTime(opts.timestamp).value.date));
    Then(linked, Silent(Retain(After(d, linked.trace), opts.retention)))
  }

  function Silent(o: Outcome): Outcome {
    if o.points.None? then o else o.(points := Some([]))
  }

  /** The promotion of a complete partial run. */
  ghost function PromotedPartial(d: Disk, opts: Options): Outcome
    requires ParseTime(opts.timestamp).Some? && PartialRoot(opts) in d.trees
  {
    var d1 := MakeFolder(d, HOURLY);
    var d2 := MoveTree(d1, PartialRoot(opts), HourlyRoot(opts));
    Then(Outcome(Some([]), [d1, d2]), Promoted(d2, opts))
  }

  /** `FinalizeBackup`. */
  ghost function Finalize(d: Disk, opts: Options): Outcome {
    if opts.targetRoot == "" || !ValidRunID(opts.runID) || ParseTime(opts.timestamp).None? then Outcome(None, [])
    else match StatRoot(d, PartialRoot(opts))
      case Missing => Promoted(d, opts)
      case Failed => Outcome(None, [])
      case Present(isDir) =>
        if !isDir || !SourcesPresent(d, PartialRoot(opts), opts.sources) then Outcome(None, [])
        else match StatRoot(d, HourlyRoot(opts))
          case Present(_) => Promoted(d, opts)
          case Failed => Outcome(None, [])
          case Missing => PromotedPartial(d, opts)
  }

  /** The disk that finalizing leaves. */
  ghost function Finalized(d: Disk, opts: Options): Disk {
    After(d, Finalize(d, opts).trace)
  }

  lemma RetainStep(d: Disk, policy: Policy, tiers: seq<string>, i: nat)
    requires i < |tiers|
    ensures var before := RetainTiers(d, policy, tiers[..i]);
      RetainTiers(d, policy, tiers[..i + 1])
        == Then(before, RetainTier(After(d, before.trace), tiers[i], policy.Keep(tiers[i])))
  {
    hide After, RetainTier, Then;
    assert tiers[..i + 1][..i] == tiers[..i];
  }

  lemma NothingRetained(d: Disk, policy: Policy)
    ensures RetainTiers(d, policy, TIERS[..0]) == Outcome(Some([]), [])
  {
  }

  lemma RetainEnds(d: Disk, policy: Policy)
    requires RetainTiers(d, policy, TIERS).points.None?
    ensures Retain(d, policy) == RetainTiers(d, policy, TIERS)
  {
  }

  lemma CleanupPoints(d: Disk)
    ensures CleanupLatest(d).points.Some? ==> CleanupLatest(d).points == Some([])
  {
  }

  lemma LinkStep(d: Disk, hourly: Root, tiers: seq<Root>, i: nat)
    requires i < |tiers|
    ensures var before := LinkTiers(d, hourly, tiers[..i]);
      LinkTiers(d, hourly, tiers[..i + 1]) == Then(before, LinkTier(After(d, before.trace), hourly, tiers[i]))
  {
    hide After, LinkTier, Then;
    assert tiers[..i + 1][..i] == tiers[..i];
  }

  lemma NothingLinked(d: Disk, hourly: Root, tiers: seq<Root>)
    ensures LinkTiers(d, hourly, tiers[..0]) == Outcome(Some([]), [])
  {
  }

  lemma LinkKeeps(d: Disk, hourly: Root, tier: Root)
    requires hourly in d.trees
    ensures hourly in LinkTree(d, hourly, tier).trees
  {
  }

  /** A failing call ends the operation. */
  lemma {:induction false} RetainFails(d: Disk, policy: Policy, tiers: seq<string>, k: nat)
    requires k <= |tiers| && RetainTiers(d, policy, tiers[..k]).points.None?
    ensures RetainTiers(d, policy, tiers) == RetainTiers(d, policy, tiers[..k])
    decreases |tiers| - k
  {
    if k == |tiers| {
      assert tiers[..k] == tiers;
    } else {
      hide RetainTiers, RetainTier;
      RetainStep(d, policy, tiers, k);
      RetainFails(d, policy, tiers, k + 1);
    }
  }

  lemma {:induction false} LinkFails(d: Disk, hourly: Root, tiers: seq<Root>, k: nat)
    requires k <= |tiers| && LinkTiers(d, hourly, tiers[..k]).points.None?
    ensures LinkTiers(d, hourly, tiers) == LinkTiers(d, hourly, tiers[..k])
    decreases |tiers| - k
  {
    if k == |tiers| {
      assert tiers[..k] == tiers;
    } else {
      hide LinkTiers, LinkTier;
      LinkStep(d, hourly, tiers, k);
      LinkFails(d, hourly, tiers, k + 1);
    }
  }

  lemma ThenFails(first: Outcome, second: Outcome)
    requires first.points.None?
    ensures Then(first, second) == first
  {
  }

  /** Pointing `latest` at a snapshot does not touch that snapshot. */
  lemma HourlyStays(d: Disk, hourly: Root)
    requires PointLatest(d, hourly).points.Some? && hourly.dir == HOURLY
    ensures hourly in After(d, PointLatest(d, hourly).trace).trees
    ensures PointLatest(d, hourly).points == Some([LatestText(hourly)])
  {
  }

  lemma NothingPruned(d: Disk, tier: string, names: seq<string>)
    ensures PruneSteps(d, tier, names[..0]) == Outcome(Some([]), [])
  {
  }

  lemma ThenPoints(first: Outcome, second: Outcome)
    requires first.points.Some?
    ensures Then(first, second).points
      == if second.points.None? then None else Some(first.points.value + second.points.value)
  {
  }

  lemma PruneStep(d: Disk, tier: string, names: seq<string>, i: nat)
    requires i < |names|
    ensures var before := PruneSteps(d, tier, names[..i]);
      before.points.Some? && PruneSteps(d, tier, names[..i + 1]) ==
        Then(before, Outcome(Some([Root(tier, names[i]).ToText()]),
                             [RemoveTree(After(d, before.trace), Root(tier, names[i]))]))
  {
    hide After, RemoveTree;
    assert names[..i + 1][..i] == names[..i];
  }

  // ---------------------------------------------------------------- the store

  class Target {
    var disk: Disk
    ghost var history: seq<Disk>

    constructor (d: Disk)
      ensures disk == d && history == []
    {
      disk, history := d, [];
    }

    /** The calls since `past` were the steps of `o`, from the disk `d`. */
    ghost predicate Ran(d: Disk, past: seq<Disk>, o: Outcome)
      reads this
    {
      disk == After(d, o.trace) && history == past + o.trace
    }

    /** One directory call. */
    method Do(next: Disk)
      modifies this
      ensures disk == next && history == old(history) + [next]
    {
      disk := next;
      history := history + [next];
    }

    /** The directories `os.ReadDir` lists, sorted. */
    method ReadDir(dir: string) returns (names: seq<string>)
      ensures names == SortedNames(DirNames(disk, dir))
    {
      names := [];
      var todo := DirNames(disk, dir);
      while todo != {}
        invariant todo <= DirNames(disk, dir) && NoDuplicates(names)
        invariant forall n :: n in names <==> n in DirNames(disk, dir) && n !in todo
        decreases todo
      {
        var n :| n in todo;
        todo := todo - {n};
        names := names + [n];
      }
      names := SortStrings(names);
      SortedNamesUnique(DirNames(disk, dir), names);
    }

    method PruneTier(tier: string, keep: int) returns (removed: seq<string>)
      requires 0 <= keep
      modifies this
      ensures var o := PruneSteps(old(disk), tier, Excess(old(disk), tier, keep));
        Ran(old(disk), old(history), o) && Some(removed) == o.points
    {
      var names := ReadDir(tier);
      ghost var sorted, i := names, 0;
      ghost var excess := Excess(disk, tier, keep);
      hide PruneSteps, Then, RemoveTree, SortedNames, DirNames;
      assert excess == sorted[..|excess|] && (|excess| == |sorted| - keep || (|excess| == 0 && |sorted| <= keep));
      NothingPruned(disk, tier, excess);
      removed := [];
      while |names| > keep
        invariant 0 <= i <= |excess| && names == sorted[i..]
        invariant Ran(old(disk), old(history), PruneSteps(old(disk), tier, excess[..i]))
        invariant Some(removed) == PruneSteps(old(disk), tier, excess[..i]).points
      {
        var r := Root(tier, names[0]);
        assert excess[i] == names[0];
        ghost var before, step := PruneSteps(old(disk), tier, excess[..i]),
          Outcome(Some([r.ToText()]), [RemoveTree(disk, r)]);
        PruneStep(old(disk), tier, excess, i);
        AfterThen(old(disk), old(history), before, step);
        ThenPoints(before, step);
        assert names + [] == names;
        Do(RemoveTree(disk, r));
        removed := removed + [r.ToText()];
        names := names[1..];
        i := i + 1;
      }
      assert excess[..i] == excess;
    }

    method CleanupDanglingLatest() returns (ok: bool)
      modifies this
      ensures Ran(old(disk), old(history), CleanupLatest(old(disk)))
      ensures ok <==> CleanupLatest(old(disk)).points.Some?
    {
      if LATEST !in disk.tops || !disk.tops[LATEST].Alias? {
        return true;
      }
      var target := NormalizeRelativePath(disk.tops[LATEST].text);
      if target.Err? {
        Do(RemoveTop(disk, LATEST));
        return true;
      }
      var info := StatPath(disk, Segments(target.value));
      if info == Missing {
        Do(RemoveTop(disk, LATEST));
        return true;
      }
      return info != Failed;
    }

    /** `removed` is None when an error is returned. */
    method ApplyRetention(policy: Policy) returns (removed: Option<seq<string>>)
      modifies this
      ensures Ran(old(disk), old(history), Retain(old(disk), policy))
      ensures removed == Retain(old(disk), policy).points
    {
      var names: seq<string> := [];
      hide RetainTiers, PruneSteps, Excess, CleanupLatest, Then, DirNames;
      NothingRetained(old(disk), policy);
      for i := 0 to |TIERS|
        invariant Ran(old(disk), old(history), RetainTiers(old(disk), policy, TIERS[..i]))
        invariant RetainTiers(old(disk), policy, TIERS[..i]).points == Some(names)
      {
        ghost var before := RetainTiers(old(disk), policy, TIERS[..i]);
        var keep := policy.Keep(TIERS[i]);
        ghost var step := RetainTier(disk, TIERS[i], keep);
        RetainStep(old(disk), policy, TIERS, i);
        AfterThen(old(disk), old(history), before, step);
        ThenPoints(before, step);
        assert names + [] == names;
        if keep < 0 || TIERS[i] !in disk.tops {
          continue;
        }
        if !disk.tops[TIERS[i]].Folder? {
          RetainFails(old(disk), policy, TIERS, i + 1);
          RetainEnds(old(disk), policy);
          return None;
        }
        var pruned := PruneTier(TIERS[i], keep);
        names := names + pruned;
      }
      assert TIERS[..|TIERS|] == TIERS;
      ghost var all := RetainTiers(old(disk), policy, TIERS);
      AfterThen(old(disk), old(history), all, CleanupLatest(disk));
      ThenPoints(all, CleanupLatest(disk));
      CleanupPoints(disk);
      assert names + [] == names;
      var ok := CleanupDanglingLatest();
      return if ok then Some(names) else None;
    }

    method ReplaceLatestSymlink(target: Root) returns (ok: bool)
      modifies this
      ensures Ran(old(disk), old(history), PointLatest(old(disk), target))
      ensures ok <==> PointLatest(old(disk), target).points.Some?
    {
      if StatRoot(disk, target) != Present(true) {
        return false;
      }
      Do(RemoveTop(disk, TMP));
      Do(MakeAlias(disk, TMP, target.ToText()));
      Do(RemoveTop(disk, LATEST));
      Do(MoveAlias(disk, TMP, LATEST));
      return true;
    }

    method ValidateSnapshotSources(r: Root, sources: seq<string>) returns (ok: bool)
      ensures ok <==> SourcesPresent(disk, r, sources)
    {
      for i := 0 to |sources|
        invariant forall k :: 0 <= k < i ==> SourcePresent(disk, r, sources[k])
      {
        var normal := NormalizeRelativePath(sources[i]);
        if normal.Err? || !StatPath(disk, [r.dir, r.name] + Segments(normal.value)).Present? {
          assert sources[i] in sources;
          return false;
        }
      }
      return true;
    }

    method LinkTierSnapshots(hourly: Root, tiers: seq<Root>) returns (created: Option<seq<string>>)
      requires hourly in disk.trees
      modifies this
      ensures Ran(old(disk), old(history), LinkTiers(old(disk), hourly, tiers))
      ensures created == LinkTiers(old(disk), hourly, tiers).points
    {
      var names: seq<string> := [];
      hide LinkTiers, Then, LinkTree;
      NothingLinked(old(disk), hourly, tiers);
      for i := 0 to |tiers|
        invariant Ran(old(disk), old(history), LinkTiers(old(disk), hourly, tiers[..i]))
        invariant LinkTiers(old(disk), hourly, tiers[..i]).points == Some(names)
        invariant hourly in disk.trees
      {
        ghost var before, step := LinkTiers(old(disk), hourly, tiers[..i]), LinkTier(disk, hourly, tiers[i]);
        LinkStep(old(disk), hourly, tiers, i);
        AfterThen(old(disk), old(history), before, step);
        ThenPoints(before, step);
        assert names + [] == names;
        match StatRoot(disk, tiers[i])
        case Missing =>
          LinkKeeps(disk, hourly, tiers[i]);
          Do(LinkTree(disk, hourly, tiers[i]));
          names := names + [tiers[i].ToText()];
        case Failed =>
          LinkFails(old(disk), hourly, tiers, i + 1);
          return None;
        case Present(_) =>
      }
      assert tiers[..|tiers|] == tiers;
      return Some(names);
    }

    /** The rest of `finalizePromotedSnapshot`. */
    method LinkAndRetainSnapshots(opts: Options) returns (created: Option<seq<string>>)
      requires ParseTime(opts.timestamp).Some? && HourlyRoot(opts) in disk.trees
      modifies this
      ensures Ran(old(disk), old(history), LinkAndRetain(old(disk), opts))
      ensures created == LinkAndRetain(old(disk), opts).points
    {
      ParseTimeExact(opts.timestamp, ParseTime(opts.timestamp).value);
      hide LinkTiers, Retain, Then, ParseTime, FormatTime;
      var tiers := TierRoots(ParseTime(opts.timestamp).value.date);
      ghost var linked := LinkTiers(disk, HourlyRoot(opts), tiers);
      ghost var retained := Silent(Retain(After(disk, linked.trace), opts.retention));
      created := LinkTierSnapshots(HourlyRoot(opts), tiers);
      if created.None? {
        ThenFails(linked, retained);
        return;
      }
      AfterThen(old(disk), old(history), linked, retained);
      ThenPoints(linked, retained);
      var removed := ApplyRetention(opts.retention);
      assert created.value + [] == created.value;
      if removed.None? {
        return None;
      }
    }

    /** `finalizePromotedSnapshot`. */
    method FinalizePromoted(opts: Options) returns (points: Option<seq<string>>)
      requires ParseTime(opts.timestamp).Some?
      modifies this
      ensures Ran(old(disk), old(history), Promoted(old(disk), opts))
      ensures points == Promoted(old(disk), opts).points
    {
      var hourly := HourlyRoot(opts);
      var found := ValidateSnapshotSources(hourly, opts.sources);
      if !found {
        return None;
      }
      hide SourcesPresent, LinkAndRetain, Pointed, Then, After, ParseTime;
      ghost var pointed := Pointed(disk, hourly);
      ghost var rest := LinkAndRetain(After(disk, pointed.trace), opts);
      var named := PointAt(hourly);
      if named.None? {
        ThenFails(pointed, rest);
        return None;
      }
      AfterThen(old(disk), old(history), pointed, rest);
      ThenPoints(pointed, rest);
      var created := LinkAndRetainSnapshots(opts);
      return if created.None? then None else Some(named.value + created.value);
    }

    method PointAt(hourly: Root) returns (points: Option<seq<string>>)
      requires hourly.dir == HOURLY
      modifies this
      ensures Ran(old(disk), old(history), Pointed(old(disk), hourly))
      ensures points == Pointed(old(disk), hourly).points
      ensures points.Some? ==> hourly in disk.trees
    {
      hide PointLatest, Then, LatestText, StatRoot;
      AfterThen(disk, history, Outcome(Some([hourly.ToText()]), []), PointLatest(disk, hourly));
      ThenPoints(Outcome(Some([hourly.ToText()]), []), PointLatest(disk, hourly));
      var ok := ReplaceLatestSymlink(hourly);
      if !ok {
        return None;
      }
      HourlyStays(old(disk), hourly);
      return Some([hourly.ToText()] + [LatestText(hourly)]);
    }

    method FinalizeBackup(opts: Options) returns (points: Option<seq<string>>)
      modifies this
      ensures Ran(old(disk), old(history), Finalize(old(disk), opts))
      ensures points == Finalize(old(disk), opts).points
    {
      if opts.targetRoot == "" || !ValidRunID(opts.runID) || ParseTime(opts.timestamp).None? {
        return None;
      }
      hide Promoted, PromotedPartial, SourcesPresent, ValidRunID, ParseTime;
      match StatRoot(disk, PartialRoot(opts))
      case Missing =>
        points := FinalizePromoted(opts);
      case Failed =>
        return None;
      case Present(isDir) =>
        if !isDir {
          return None;
        }
        var found := ValidateSnapshotSources(PartialRoot(opts), opts.sources);
        if !found {
          return None;
        }
        match StatRoot(disk, HourlyRoot(opts))
        case Present(_) =>
          points := FinalizePromoted(opts);
        case Failed =>
          return None;
        case Missing =>
          points := PromotePartial(opts);
    }

    method PromotePartial(opts: Options) returns (points: Option<seq<string>>)
      requires ParseTime(opts.timestamp).Some? && PartialRoot(opts) in disk.trees
      modifies this
      ensures Ran(old(disk), old(history), PromotedPartial(old(disk), opts))
      ensures points == PromotedPartial(old(disk), opts).points
    {
      hide Promoted, Then, ParseTime;
      ghost var d1 := MakeFolder(disk, HOURLY);
      ghost var d2 := MoveTree(d1, PartialRoot(opts), HourlyRoot(opts));
      AfterThen(disk, history, Outcome(Some([]), [d1, d2]), Promoted(d2, opts));
      ThenPoints(Outcome(Some([]), [d1, d2]), Promoted(d2, opts));
      Do(MakeFolder(disk, HOURLY));
      Do(MoveTree(disk, PartialRoot(opts), HourlyRoot(opts)));
      points := FinalizePromoted(opts);
      assert points.Some? ==> [] + points.value == points.value;
    }
  }
}
