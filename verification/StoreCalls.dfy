/** The directory calls of the snapshot store (internal/dataplane/snapshot.go): whatever an operation does, however it
    ends or is interrupted, it does by these calls. */
module StoreCalls {
  import opened Wrappers
  import opened Paths
  import opened Calendar
  import opened Volume
  import opened SnapshotStore

  datatype Call =
    | Mkdir(dir: string)
    | RemoveEntry(entry: string)
    | Point(target: Root)
    | Rename
    | Promote(run: string, timestamp: string)
    | Link(src: Root, dst: Root)
    | Prune(root: Root)
    | DropPartial(run: string)

  predicate Folders(d: Disk, dir: string) {
    dir in d.tops ==> d.tops[dir].Folder?
  }

  /** When the store makes a call. */
  predicate Allowed(d: Disk, call: Call) {
    match call
    case Mkdir(dir) => dir in TIERS
    case RemoveEntry(entry) => entry == LATEST || entry == TMP
    case Point(target) => TMP !in d.tops && target.dir == HOURLY && ParseTime(target.name).Some? && IsTree(d, target)
    case Rename => TMP in d.tops && d.tops[TMP].Alias? && LATEST !in d.tops
    case Promote(run, timestamp) =>
      IsTree(d, Root(PARTIAL, run)) && Root(HOURLY, timestamp) !in d.trees && HOURLY in d.tops && d.tops[HOURLY].Folder?
    case Link(src, dst) =>
      src in d.trees && src.dir == HOURLY && dst !in d.trees && dst.dir in {DAILY, WEEKLY, MONTHLY}
        && Folders(d, dst.dir)
    case Prune(root) => root.dir in TIERS
    case DropPartial(run) => true
  }

  function Apply(d: Disk, call: Call): Disk
    requires Allowed(d, call)
  {
    match call
    case Mkdir(dir) => MakeFolder(d, dir)
    case RemoveEntry(entry) => RemoveTop(d, entry)
    case Point(target) => MakeAlias(d, TMP, target.ToText())
    case Rename => MoveAlias(d, TMP, LATEST)
    case Promote(run, timestamp) => MoveTree(d, Root(PARTIAL, run), Root(HOURLY, timestamp))
    case Link(src, dst) => LinkTree(d, src, dst)
    case Prune(root) => RemoveTree(d, root)
    case DropPartial(run) => RemoveTree(d, Root(PARTIAL, run))
  }

  /** A call leaves trees in folders. */
  lemma CallKeepsFolders(d: Disk, call: Call)
    requires InFolders(d) && Allowed(d, call)
    ensures InFolders(Apply(d, call))
  {
    hide ParseTime;
    DirsDiffer();
  }

  /** A call of an operation that drops no partial run and promotes only those in `promotions`. */
  ghost predicate Makes(d: Disk, call: Call, promotions: set<Call>) {
    Allowed(d, call) && !call.DropPartial? && (call.Promote? ==> call in promotions)
  }

  ghost predicate IsCall(d: Disk, s: Disk, promotions: set<Call>) {
    exists call :: Makes(d, call, promotions) && s == Apply(d, call)
  }

  /** Every step of the trace is one of the store's calls. */
  ghost predicate Calls(d: Disk, trace: seq<Disk>, promotions: set<Call>) {
    forall i :: 0 <= i < |trace| ==> IsCall(After(d, trace[..i]), trace[i], promotions)
  }

  lemma CallsThen(d: Disk, first: Outcome, second: Outcome, promotions: set<Call>)
    requires Calls(d, first.trace, promotions)
      && (first.points.Some? ==> Calls(After(d, first.trace), second.trace, promotions))
    ensures Calls(d, Then(first, second).trace, promotions)
  {
    if first.points.Some? {
      var all := first.trace + second.trace;
      forall i | 0 <= i < |all| ensures IsCall(After(d, all[..i]), all[i], promotions) {
        var n := |first.trace|;
        if i < n {
          assert all[..i] == first.trace[..i];
        } else {
          assert all[..i] == first.trace + second.trace[..i - n];
          AfterThen(d, [], first, Outcome(Some([]), second.trace[..i - n]));
          ThenTrace(first, Outcome(Some([]), second.trace[..i - n]));
        }
      }
    }
  }

  lemma ThenTrace(first: Outcome, second: Outcome)
    requires first.points.Some?
    ensures Then(first, second).trace == first.trace + second.trace
  {
  }

  lemma CallsOne(d: Disk, s: Disk, promotions: set<Call>)
    requires IsCall(d, s, promotions)
    ensures Calls(d, [s], promotions)
  {
    assert [s][..0] == [];
  }

  lemma PointCalls(d: Disk, target: Root, promotions: set<Call>)
    requires target.dir == HOURLY && ParseTime(target.name).Some?
    ensures Calls(d, PointLatest(d, target).trace, promotions)
  {
    hide ParseTime;
    DirsDiffer();
    if StatRoot(d, target) == Present(true) {
      var d1 := RemoveTop(d, TMP);
      var d2 := MakeAlias(d1, TMP, target.ToText());
      var d3 := RemoveTop(d2, LATEST);
      var d4 := MoveAlias(d3, TMP, LATEST);
      var trace := [d1, d2, d3, d4];
      assert Makes(d, RemoveEntry(TMP), promotions) && d1 == Apply(d, RemoveEntry(TMP));
      assert Makes(d1, Point(target), promotions) && d2 == Apply(d1, Point(target));
      assert Makes(d2, RemoveEntry(LATEST), promotions) && d3 == Apply(d2, RemoveEntry(LATEST));
      assert Makes(d3, Rename, promotions) && d4 == Apply(d3, Rename);
      assert trace[..0] == [] && trace[..1] == [d1] && trace[..2] == [d1, d2] && trace[..3] == [d1, d2, d3];
    }
  }

  lemma {:induction false} LinkCalls(d: Disk, hourly: Root, tiers: seq<Root>, promotions: set<Call>)
    requires InFolders(d) && hourly in d.trees && hourly.dir == HOURLY
    requires forall t :: t in tiers ==> t.dir in {DAILY, WEEKLY, MONTHLY}
    ensures Calls(d, LinkTiers(d, hourly, tiers).trace, promotions)
    ensures var e := After(d, LinkTiers(d, hourly, tiers).trace); InFolders(e) && hourly in e.trees
  {
    if tiers != [] {
      var n := |tiers| - 1;
      LinkCalls(d, hourly, tiers[..n], promotions);
      var before := LinkTiers(d, hourly, tiers[..n]);
      var s := After(d, before.trace);
      var step := LinkTier(s, hourly, tiers[n]);
      assert tiers[n] in tiers && tiers[..n + 1] == tiers;
      LinkStep(d, hourly, tiers, n);
      LinkCall(s, hourly, tiers[n], promotions);
      CallsThen(d, before, step, promotions);
      hide LinkTiers, LinkTier, Calls, InFolders;
      if before.points.Some? {
        AfterThen(d, [], before, step);
      } else {
        ThenFails(before, step);
      }
    }
  }

  lemma LinkCall(d: Disk, hourly: Root, tier: Root, promotions: set<Call>)
    requires InFolders(d) && hourly in d.trees && hourly.dir == HOURLY && tier.dir in {DAILY, WEEKLY, MONTHLY}
    ensures Calls(d, LinkTier(d, hourly, tier).trace, promotions)
    ensures var e := After(d, LinkTier(d, hourly, tier).trace); InFolders(e) && hourly in e.trees
  {
    if StatRoot(d, tier) == Missing {
      assert Makes(d, Link(hourly, tier), promotions) && LinkTree(d, hourly, tier) == Apply(d, Link(hourly, tier));
      CallsOne(d, LinkTree(d, hourly, tier), promotions);
    }
  }

  lemma {:induction false} PruneCalls(d: Disk, tier: string, names: seq<string>, promotions: set<Call>)
    requires tier in TIERS
    ensures Calls(d, PruneSteps(d, tier, names).trace, promotions)
  {
    if names != [] {
      var n := |names| - 1;
      PruneCalls(d, tier, names[..n], promotions);
      assert names[..n + 1] == names;
      PruneStep(d, tier, names, n);
      var before := PruneSteps(d, tier, names[..n]);
      var s, r := After(d, before.trace), Root(tier, names[n]);
      assert Makes(s, Prune(r), promotions) && RemoveTree(s, r) == Apply(s, Prune(r));
      CallsOne(s, RemoveTree(s, r), promotions);
      CallsThen(d, before, Outcome(Some([r.ToText()]), [RemoveTree(s, r)]), promotions);
    }
  }

  lemma {:induction false} RetainCalls(d: Disk, policy: Policy, tiers: seq<string>, promotions: set<Call>)
    requires forall t :: t in tiers ==> t in TIERS
    ensures Calls(d, RetainTiers(d, policy, tiers).trace, promotions)
  {
    if tiers != [] {
      var n := |tiers| - 1;
      hide Calls;
      RetainCalls(d, policy, tiers[..n], promotions);
      var before := RetainTiers(d, policy, tiers[..n]);
      var s, tier := After(d, before.trace), tiers[n];
      assert tiers[..n + 1] == tiers && tier in tiers;
      RetainStep(d, policy, tiers, n);
      NoCalls(s, promotions);
      PruneCalls(s, tier, Excess(s, tier, policy.Keep(tier)), promotions);
      CallsThen(d, before, RetainTier(s, tier, policy.Keep(tier)), promotions);
    }
  }

  lemma NoCalls(d: Disk, promotions: set<Call>)
    ensures Calls(d, [], promotions)
  {
  }

  /** Retention is a sequence of the store's calls, and promotes nothing. */
  lemma RetentionIsCalls(d: Disk, policy: Policy, promotions: set<Call>)
    ensures Calls(d, Retain(d, policy).trace, promotions)
  {
    RetainCalls(d, policy, TIERS, promotions);
    var s := After(d, RetainTiers(d, policy, TIERS).trace);
    NoCalls(s, promotions);
    assert Makes(s, RemoveEntry(LATEST), promotions) && RemoveTop(s, LATEST) == Apply(s, RemoveEntry(LATEST));
    CallsOne(s, RemoveTop(s, LATEST), promotions);
    hide Calls, RetainTiers;
    CallsThen(d, RetainTiers(d, policy, TIERS), CleanupLatest(s), promotions);
  }

  lemma PromotedIsCalls(d: Disk, opts: Options, promotions: set<Call>)
    requires InFolders(d) && ParseTime(opts.timestamp).Some?
    ensures Calls(d, Promoted(d, opts).trace, promotions)
  {
    hide ParseTime, Calls, SourcesPresent, Retain, LinkTiers, TierRoots;
    var hourly := HourlyRoot(opts);
    NoCalls(d, promotions);
    if SourcesPresent(d, hourly, opts.sources) {
      PointCalls(d, hourly, promotions);
      CallsThen(d, Outcome(Some([hourly.ToText()]), []), PointLatest(d, hourly), promotions);
      if Pointed(d, hourly).points.Some? {
        PointedForms(d, hourly);
        RestIsCalls(After(d, Pointed(d, hourly).trace), opts, promotions);
      }
      CallsThen(d, Pointed(d, hourly), LinkAndRetain(After(d, Pointed(d, hourly).trace), opts), promotions);
    }
  }

  lemma PointedForms(d: Disk, hourly: Root)
    requires InFolders(d) && Pointed(d, hourly).points.Some? && hourly.dir == HOURLY
    ensures var e := After(d, Pointed(d, hourly).trace); InFolders(e) && hourly in e.trees
  {
    DirsDiffer();
    var d1 := RemoveTop(d, TMP);
    var d2 := MakeAlias(d1, TMP, hourly.ToText());
    var d3 := RemoveTop(d2, LATEST);
    assert InFolders(d1) && InFolders(d2) && InFolders(d3);
  }

  lemma RestIsCalls(d: Disk, opts: Options, promotions: set<Call>)
    requires InFolders(d) && ParseTime(opts.timestamp).Some? && HourlyRoot(opts) in d.trees
    ensures Calls(d, LinkAndRetain(d, opts).trace, promotions)
  {
    ParseTimeExact(opts.timestamp, ParseTime(opts.timestamp).value);
    hide ParseTime, Calls, Retain, LinkTiers, FormatTime;
    var tiers := TierRoots(ParseTime(opts.timestamp).value.date);
    LinkCalls(d, HourlyRoot(opts), tiers, promotions);
    var linked := LinkTiers(d, HourlyRoot(opts), tiers);
    var e := After(d, linked.trace);
    RetentionIsCalls(e, opts.retention, promotions);
    CallsThen(d, linked, Silent(Retain(e, opts.retention)), promotions);
  }

  /** The one promotion that finalizing makes: that of its own run, under its own timestamp. */
  function OwnPromotion(opts: Options): set<Call> {
    {Promote(opts.runID, opts.timestamp)}
  }

  /** Finalizing, complete, failed or interrupted, is a sequence of the store's calls, which promotes no other run. */
  lemma FinalizingIsCalls(d: Disk, opts: Options)
    requires InFolders(d)
    ensures Calls(d, Finalize(d, opts).trace, OwnPromotion(opts))
  {
    hide ParseTime, Calls, SourcesPresent, Promoted, ValidRunID;
    NoCalls(d, OwnPromotion(opts));
    if ParseTime(opts.timestamp).Some? {
      PromotedIsCalls(d, opts, OwnPromotion(opts));
      if StatRoot(d, PartialRoot(opts)) == Present(true) && StatRoot(d, HourlyRoot(opts)) == Missing {
        PromotionIsCalls(d, opts);
      }
    }
  }

  lemma PromotionIsCalls(d: Disk, opts: Options)
    requires InFolders(d) && ParseTime(opts.timestamp).Some?
    requires StatRoot(d, PartialRoot(opts)) == Present(true) && StatRoot(d, HourlyRoot(opts)) == Missing
    ensures Calls(d, PromotedPartial(d, opts).trace, OwnPromotion(opts))
  {
    var promotions := OwnPromotion(opts);
    hide ParseTime, SourcesPresent, Promoted;
    DirsDiffer();
    var d1 := MakeFolder(d, HOURLY);
    var d2 := MoveTree(d1, PartialRoot(opts), HourlyRoot(opts));
    assert Makes(d, Mkdir(HOURLY), promotions) && d1 == Apply(d, Mkdir(HOURLY));
    assert Makes(d1, Promote(opts.runID, opts.timestamp), promotions)
      && d2 == Apply(d1, Promote(opts.runID, opts.timestamp));
    assert [d1, d2][..0] == [] && [d1, d2][..1] == [d1];
    PromotedIsCalls(d2, opts, promotions);
    CallsThen(d, Outcome(Some([]), [d1, d2]), Promoted(d2, opts), promotions);
  }
}
