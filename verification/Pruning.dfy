/** What retention removes from a volume (internal/dataplane/snapshot.go). */
module Pruning {
  import opened Wrappers
  import opened Text
  import opened Ordering
  import opened Paths
  import opened Calendar
  import opened Volume
  import opened Retention
  import opened SnapshotNames
  import opened SnapshotStore

  /** The snapshots of `tiers` that retention removes. */
  function Dropped(d: Disk, policy: Policy, tiers: seq<string>): set<Root> {
    set r | r in d.trees && r.dir in tiers && IsTree(d, r) && r.name in Doomed(DirNames(d, r.dir), policy.Keep(r.dir))
  }

  function Without(d: Disk, roots: set<Root>): Disk {
    d.(trees := d.trees - roots)
  }

  /** `s` is `d` without some of `roots`. */
  ghost predicate Thinned(d: Disk, roots: set<Root>, s: Disk) {
    s.tops == d.tops && s.files == d.files && s.trees.Keys <= d.trees.Keys && d.trees.Keys - s.trees.Keys <= roots
    && forall r :: r in s.trees ==> s.trees[r] == d.trees[r]
  }

  lemma ThenMembers(first: Outcome, second: Outcome, s: Disk)
    requires s in Then(first, second).trace
    ensures s in first.trace || s in second.trace
  {
  }

  lemma TiersDistinct()
    ensures NoDuplicates(TIERS)
  {
    DirsDiffer();
  }

  function Roots(tier: string, names: seq<string>): set<Root> {
    set n | n in names :: Root(tier, n)
  }

  lemma {:induction false} PruneForm(d: Disk, tier: string, names: seq<string>)
    ensures After(d, PruneSteps(d, tier, names).trace) == Without(d, Roots(tier, names))
    ensures forall s :: s in PruneSteps(d, tier, names).trace ==> Thinned(d, Roots(tier, names), s)
  {
    if names == [] {
      assert Without(d, {}) == d;
    } else {
      hide PruneSteps, After, Then, Thinned, Without, Roots;
      var n := |names| - 1;
      PruneForm(d, tier, names[..n]);
      assert names[..n + 1] == names;
      PruneStep(d, tier, names, n);
      var before := PruneSteps(d, tier, names[..n]);
      var r := Root(tier, names[n]);
      var last := RemoveTree(After(d, before.trace), r);
      AfterThen(d, [], before, Outcome(Some([r.ToText()]), [last]));
      AfterOne(After(d, before.trace), last);
      WithoutOneMore(d, tier, names);
      forall s | s in PruneSteps(d, tier, names).trace ensures Thinned(d, Roots(tier, names), s) {
        ThenMembers(before, Outcome(Some([r.ToText()]), [last]), s);
      }
    }
  }

  lemma AfterOne(d: Disk, s: Disk)
    ensures After(d, [s]) == s
  {
  }

  lemma WithoutOneMore(d: Disk, tier: string, names: seq<string>)
    requires names != []
    ensures var n := |names| - 1;
      RemoveTree(Without(d, Roots(tier, names[..n])), Root(tier, names[n])) == Without(d, Roots(tier, names))
      && (forall s :: Thinned(d, Roots(tier, names[..n]), s) ==> Thinned(d, Roots(tier, names), s))
      && Thinned(d, Roots(tier, names), Without(d, Roots(tier, names)))
  {
    var n := |names| - 1;
    assert names == names[..n] + [names[n]];
    assert Roots(tier, names) == Roots(tier, names[..n]) + {Root(tier, names[n])};
    assert RemoveTree(Without(d, Roots(tier, names[..n])), Root(tier, names[n])).trees ==
      Without(d, Roots(tier, names)).trees;
  }

  /** Pruning one tier removes exactly its doomed snapshots. */
  lemma TierForm(d: Disk, policy: Policy, tier: string)
    requires InFolders(d) && (policy.Keep(tier) >= 0 && tier in d.tops ==> d.tops[tier].Folder?)
    ensures RetainTier(d, tier, policy.Keep(tier)).points.Some?
    ensures After(d, RetainTier(d, tier, policy.Keep(tier)).trace) == Without(d, Dropped(d, policy, [tier]))
    ensures forall s :: s in RetainTier(d, tier, policy.Keep(tier)).trace ==> Thinned(d, Dropped(d, policy, [tier]), s)
  {
    var keep := policy.Keep(tier);
    var dropped := Dropped(d, policy, [tier]);
    if keep < 0 || tier !in d.tops {
      assert dropped == {};
      assert Without(d, {}) == d;
    } else {
      var excess := Excess(d, tier, keep);
      PruneForm(d, tier, excess);
      ExcessIsDropped(d, policy, tier);
      ThenSome(d, tier, excess);
    }
  }

  lemma ThenSome(d: Disk, tier: string, names: seq<string>)
    ensures PruneSteps(d, tier, names).points.Some?
  {
  }

  lemma ExcessIsDoomed(d: Disk, tier: string, keep: nat, n: string)
    ensures n in Excess(d, tier, keep) <==> n in Doomed(DirNames(d, tier), keep)
  {
    hide DirNames, Keeps;
    var sorted := SortedNames(DirNames(d, tier));
    DoomedIsPrefix(DirNames(d, tier), keep, sorted);
    if n in DirNames(d, tier) {
      var i :| 0 <= i < |sorted| && sorted[i] == n;
    }
  }

  lemma ExcessIsDropped(d: Disk, policy: Policy, tier: string)
    requires policy.Keep(tier) >= 0
    ensures Roots(tier, Excess(d, tier, policy.Keep(tier))) == Dropped(d, policy, [tier])
  {
    var keep := policy.Keep(tier);
    hide Keeps, Excess;
    forall n ensures n in Excess(d, tier, keep) <==> n in Doomed(DirNames(d, tier), keep) {
      ExcessIsDoomed(d, tier, keep, n);
    }
    forall r ensures r in Roots(tier, Excess(d, tier, keep)) <==> r in Dropped(d, policy, [tier]) {
      if r.dir == tier && r.name in Doomed(DirNames(d, tier), keep) {
        assert r == Root(tier, r.name);
      }
    }
  }

  /** The tiers that retention looks into are folders. */
  predicate TiersReadable(d: Disk, policy: Policy, tiers: seq<string>) {
    forall t :: t in tiers && policy.Keep(t) >= 0 && t in d.tops ==> d.tops[t].Folder?
  }

  lemma {:induction false} RetainForm(d: Disk, policy: Policy, tiers: seq<string>)
    requires NoDuplicates(tiers) && InFolders(d) && TiersReadable(d, policy, tiers)
    ensures RetainTiers(d, policy, tiers).points.Some?
    ensures After(d, RetainTiers(d, policy, tiers).trace) == Without(d, Dropped(d, policy, tiers))
    ensures forall s :: s in RetainTiers(d, policy, tiers).trace ==> Thinned(d, Dropped(d, policy, tiers), s)
  {
    if tiers == [] {
      assert Dropped(d, policy, []) == {};
      assert Without(d, {}) == d;
    } else {
      var n := |tiers| - 1;
      var first, tier := tiers[..n], tiers[n];
      RetainForm(d, policy, first);
      var d' := Without(d, Dropped(d, policy, first));
      assert tier !in first;
      TierForm(d', policy, tier);
      DroppedSplit(d, policy, first, tier);
      assert tiers == first + [tier];
      AfterThen(d, [], RetainTiers(d, policy, first), RetainTier(d', tier, policy.Keep(tier)));
      forall s | s in RetainTiers(d, policy, tiers).trace ensures Thinned(d, Dropped(d, policy, tiers), s) {
        if s !in RetainTiers(d, policy, first).trace {
          assert Thinned(d', Dropped(d', policy, [tier]), s);
        }
      }
    }
  }

  lemma DroppedSplit(d: Disk, policy: Policy, first: seq<string>, tier: string)
    requires tier !in first
    ensures var d' := Without(d, Dropped(d, policy, first));
      Dropped(d, policy, first + [tier]) == Dropped(d, policy, first) + Dropped(d', policy, [tier])
      && Without(d', Dropped(d', policy, [tier])) == Without(d, Dropped(d, policy, first + [tier]))
  {
    SameNames(d, policy, first, tier);
  }

  lemma SameNames(d: Disk, policy: Policy, first: seq<string>, tier: string)
    requires tier !in first
    ensures DirNames(Without(d, Dropped(d, policy, first)), tier) == DirNames(d, tier)
  {
    var d' := Without(d, Dropped(d, policy, first));
    forall n ensures n in DirNames(d, tier) <==> n in DirNames(d', tier) {
      if n in DirNames(d, tier) { assert IsTree(d', Root(tier, n)); }
      if n in DirNames(d', tier) { assert IsTree(d, Root(tier, n)); }
    }
  }

  // ---------------------------------------------------------------- the whole of retention

  function Texts(tier: string, names: seq<string>): seq<string> {
    seq(|names|, i requires 0 <= i < |names| => Root(tier, names[i]).ToText())
  }

  /** The removed snapshots, tier by tier, in each tier from the first name on. */
  ghost function Removed(d: Disk, policy: Policy, tiers: seq<string>): seq<string> {
    if tiers == [] then []
    else
      var tier := tiers[|tiers| - 1];
      Removed(d, policy, tiers[..|tiers| - 1]) + Texts(tier, Excess(d, tier, policy.Keep(tier)))
  }

  lemma {:induction false} PrunedTexts(d: Disk, tier: string, names: seq<string>)
    ensures PruneSteps(d, tier, names).points == Some(Texts(tier, names))
  {
    if names == [] {
      assert Texts(tier, []) == [];
    } else {
      var n := |names| - 1;
      PrunedTexts(d, tier, names[..n]);
      assert names[..n + 1] == names;
      PruneStep(d, tier, names, n);
      assert Texts(tier, names) == Texts(tier, names[..n]) + [Root(tier, names[n]).ToText()];
    }
  }

  /** Retention lists exactly what it removes. */
  lemma {:induction false} RetainedTexts(d: Disk, policy: Policy, tiers: seq<string>)
    requires NoDuplicates(tiers) && InFolders(d) && TiersReadable(d, policy, tiers)
    ensures RetainTiers(d, policy, tiers).points == Some(Removed(d, policy, tiers))
  {
    if tiers != [] {
      var n := |tiers| - 1;
      var first, tier := tiers[..n], tiers[n];
      hide Excess, Dropped;
      RetainedTexts(d, policy, first);
      RetainForm(d, policy, first);
      assert tiers[..n + 1] == tiers && tier !in first;
      RetainStep(d, policy, tiers, n);
      TierTexts(d, policy, first, tier);
    }
  }

  lemma TierTexts(d: Disk, policy: Policy, first: seq<string>, tier: string)
    requires tier !in first && InFolders(d) && (policy.Keep(tier) >= 0 && tier in d.tops ==> d.tops[tier].Folder?)
    ensures RetainTier(Without(d, Dropped(d, policy, first)), tier, policy.Keep(tier)).points
      == Some(Texts(tier, Excess(d, tier, policy.Keep(tier))))
  {
    var d' := Without(d, Dropped(d, policy, first));
    SameNames(d, policy, first, tier);
    if policy.Keep(tier) < 0 || tier !in d.tops {
      assert DirNames(d, tier) == {} || policy.Keep(tier) < 0;
      assert Excess(d, tier, policy.Keep(tier)) == [];
      assert Texts(tier, []) == [];
    } else {
      PrunedTexts(d', tier, Excess(d', tier, policy.Keep(tier)));
    }
  }

  lemma {:induction false} ReadableIfRetained(d: Disk, policy: Policy, tiers: seq<string>)
    requires NoDuplicates(tiers) && InFolders(d) && RetainTiers(d, policy, tiers).points.Some?
    ensures TiersReadable(d, policy, tiers)
  {
    if tiers != [] {
      var n := |tiers| - 1;
      assert tiers == tiers[..n] + [tiers[n]];
      ReadableIfRetained(d, policy, tiers[..n]);
      RetainForm(d, policy, tiers[..n]);
    }
  }

  /** `latest` does not dangle: it is absent, not a symlink, or leads to something. */
  predicate LatestLeads(d: Disk) {
    LATEST in d.tops && d.tops[LATEST].Alias? ==>
      NormalizeRelative(d.tops[LATEST].text).Ok?
        && StatPath(d, Segments(NormalizeRelative(d.tops[LATEST].text).value)).Present?
  }

  /** What ApplyRetention does: every tier keeps exactly its newest names, as many as its field of the policy says,
      other trees are not touched, the removed snapshots are reported, tier by tier from the first name on, and `latest`
      does not dangle afterwards. */
  lemma RetentionResult(d: Disk, policy: Policy)
    requires InFolders(d) && Retain(d, policy).points.Some?
    ensures Retain(d, policy).points
         == Some(Texts(HOURLY, Excess(d, HOURLY, policy.hourly)) + Texts(DAILY, Excess(d, DAILY, policy.daily))
                 + Texts(WEEKLY, Excess(d, WEEKLY, policy.weekly)) + Texts(MONTHLY, Excess(d, MONTHLY, policy.monthly)))
    ensures var e := After(d, Retain(d, policy).trace);
      LatestLeads(e)
      && DirNames(e, HOURLY) == Kept(DirNames(d, HOURLY), policy.hourly)
      && DirNames(e, DAILY) == Kept(DirNames(d, DAILY), policy.daily)
      && DirNames(e, WEEKLY) == Kept(DirNames(d, WEEKLY), policy.weekly)
      && DirNames(e, MONTHLY) == Kept(DirNames(d, MONTHLY), policy.monthly)
      && (forall r :: r in e.trees ==> r in d.trees && e.trees[r] == d.trees[r])
      && (forall r :: r in d.trees && r !in e.trees ==> r.dir in TIERS && IsTree(d, r))
  {
    hide RetainTiers, Dropped, DirNames, Removed, Texts, Excess, Kept;
    KeepFields(policy);
    RemovedByTier(d, policy);
    TiersDistinct();
    ReadableIfRetained(d, policy, TIERS);
    RetainForm(d, policy, TIERS);
    RetainedTexts(d, policy, TIERS);
    var pruned := RetainTiers(d, policy, TIERS);
    var x := After(d, pruned.trace);
    AfterThen(d, [], pruned, CleanupLatest(x));
    ThenPoints(pruned, CleanupLatest(x));
    CleanupPoints(x);
    assert Removed(d, policy, TIERS) + [] == Removed(d, policy, TIERS);
    CleanupResult(x);
    PrunedNames(d, policy);
  }

  lemma KeepFields(policy: Policy)
    ensures policy.Keep(HOURLY) == policy.hourly && policy.Keep(DAILY) == policy.daily
    ensures policy.Keep(WEEKLY) == policy.weekly && policy.Keep(MONTHLY) == policy.monthly
  {
    DirsDiffer();
  }

  lemma RemovedByTier(d: Disk, policy: Policy)
    ensures Removed(d, policy, TIERS)
         == Texts(HOURLY, Excess(d, HOURLY, policy.hourly)) + Texts(DAILY, Excess(d, DAILY, policy.daily))
            + Texts(WEEKLY, Excess(d, WEEKLY, policy.weekly)) + Texts(MONTHLY, Excess(d, MONTHLY, policy.monthly))
  {
    hide Texts, Excess;
    KeepFields(policy);
    assert TIERS[..3] == [HOURLY, DAILY, WEEKLY] && [HOURLY, DAILY, WEEKLY][..2] == [HOURLY, DAILY];
    assert [HOURLY, DAILY][..1] == [HOURLY] && [HOURLY][..0] == [];
    assert Removed(d, policy, [HOURLY]) == Texts(HOURLY, Excess(d, HOURLY, policy.hourly));
    assert Removed(d, policy, [HOURLY, DAILY])
        == Removed(d, policy, [HOURLY]) + Texts(DAILY, Excess(d, DAILY, policy.daily));
    assert Removed(d, policy, [HOURLY, DAILY, WEEKLY])
        == Removed(d, policy, [HOURLY, DAILY]) + Texts(WEEKLY, Excess(d, WEEKLY, policy.weekly));
  }

  lemma CleanupResult(d: Disk)
    requires InFolders(d) && CleanupLatest(d).points.Some?
    ensures var e := After(d, CleanupLatest(d).trace); LatestLeads(e) && e.trees == d.trees
  {
    var e := After(d, CleanupLatest(d).trace);
    if e != d {
      assert e.trees == d.trees;
    }
  }

  lemma PrunedNames(d: Disk, policy: Policy)
    ensures var x := Without(d, Dropped(d, policy, TIERS));
      forall e: Disk, tier | e.trees == x.trees && tier in TIERS ::
        DirNames(e, tier) == Kept(DirNames(d, tier), policy.Keep(tier))
    ensures forall r :: r in Dropped(d, policy, TIERS) ==> r.dir in TIERS && IsTree(d, r)
  {
    hide Keeps;
    var x := Without(d, Dropped(d, policy, TIERS));
    forall e: Disk, tier | e.trees == x.trees && tier in TIERS
      ensures DirNames(e, tier) == Kept(DirNames(d, tier), policy.Keep(tier))
    {
      forall n ensures n in DirNames(e, tier) <==> n in Kept(DirNames(d, tier), policy.Keep(tier)) {
        var r := Root(tier, n);
        assert n in DirNames(d, tier) <==> IsTree(d, r);
        assert n in DirNames(e, tier) <==> IsTree(e, r);
      }
    }
  }

  /** Lexical retention is chronological: when all names of a tier were given by runs, what is removed is older than
      what is kept, and the reported list goes from old to new. */
  lemma RetentionKeepsTheNewest(d: Disk, keep: int, tier: string, times: set<Timestamp>)
    requires tier in TIERS && forall t :: t in times ==> ValidTime(t) && 1 <= t.date.year
    requires DirNames(d, tier) == set t | t in times :: NameIn(tier, t)
    ensures
      |Kept(DirNames(d, tier), keep)| == (if keep < 0 || |DirNames(d, tier)| <= keep then |DirNames(d, tier)| else keep)
      && (forall s, t | s in times && t in times && NameIn(tier, s) in Doomed(DirNames(d, tier), keep)
                        && NameIn(tier, t) in Kept(DirNames(d, tier), keep) ::
            PeriodOf(tier, s) < PeriodOf(tier, t))
      && forall i, j, s, t | 0 <= i < j < |Excess(d, tier, keep)| && s in times && t in times
                             && Excess(d, tier, keep)[i] == NameIn(tier, s)
                             && Excess(d, tier, keep)[j] == NameIn(tier, t) ::
           PeriodOf(tier, s) < PeriodOf(tier, t)
  {
    hide NameIn, PeriodOf, Keeps, DirNames;
    KeepsTheNewest(DirNames(d, tier), keep);
    forall s, t | s in times && t in times
      ensures Less(NameIn(tier, s), NameIn(tier, t)) <==> PeriodOf(tier, s) < PeriodOf(tier, t)
    {
      NamesFollowTime(tier, s, t);
    }
  }
}
