/** What a scan lists, and which restore requests it answers (internal/dataplane/snapshot.go,
    internal/controller/reconcilers.go). */
module RestoreRequests {
  import opened Wrappers
  import opened Text
  import opened Paths
  import opened Calendar
  import opened Volume
  import opened SnapshotNames
  import opened SpaceRecovery
  import opened RestorePoints

  // ---------------------------------------------------------------- the list

  /** A scan lists `latest` first, if at all, and then the snapshots by falling name, each once. */
  lemma ScanOrder(d: Disk, target: string, points: seq<RestorePoint>, i: nat, j: nat)
    requires ScanReport(d, target, points) && i < j < |points|
    ensures points[j].snapshot != "latest"
    ensures points[i].snapshot == "latest" ==> i == 0
    ensures points[i].snapshot != "latest" ==> Less(points[j].snapshot, points[i].snapshot)
  {
    assert PointBefore(points[i], points[j]);
    if i > 0 { assert PointBefore(points[0], points[i]); }
  }

  /** The snapshots of one tier that runs have made are listed from the newest period to the oldest, and none twice. */
  lemma ScanIsNewestFirst(d: Disk, target: string, points: seq<RestorePoint>, i: nat, j: nat, tier: string,
                          a: Timestamp,
                          b: Timestamp)
    requires ScanReport(d, target, points) && i < j < |points| && tier in TIERS
    requires ValidTime(a) && ValidTime(b) && 1 <= a.date.year && 1 <= b.date.year
    requires points[i].snapshot == tier + "/" + NameIn(tier, a) && points[j].snapshot == tier + "/" + NameIn(tier, b)
    ensures PeriodOf(tier, b) < PeriodOf(tier, a)
  {
    hide NameIn, PeriodOf, ScanReport;
    NoTierIsLatest(tier, NameIn(tier, a));
    ScanOrder(d, target, points, i, j);
    NamesFollowTime(tier, b, a);
    LessAfter(tier + "/", NameIn(tier, b), NameIn(tier, a));
  }

  lemma NoTierIsLatest(tier: string, name: string)
    ensures tier + "/" + name != "latest"
  {
    assert (tier + "/" + name)[|tier|] == '/';
    assert '/' !in "latest";
  }

  /** Every snapshot that a run has made at time `t` is listed, with the start of its period as its time of creation;
      and `latest`, if it leads to the hourly snapshot of that time, with that time. */
  lemma ScanLists(d: Disk, target: Option<Root>, points: seq<RestorePoint>, tier: string, t: Timestamp)
    requires LatestIs(d, target) && InFolders(d) && LatestTarget(d).Ok? && ScanReport(d, LatestTarget(d).value, points)
    requires tier in TIERS && ValidTime(t) && 1 <= t.date.year && IsTree(d, Root(tier, NameIn(tier, t)))
    ensures RestorePoint(tier + "/" + NameIn(tier, t), "", tier, PeriodStart(tier, t), 0) in points
    ensures tier == "hourly" && target == Some(Root("hourly", NameIn(tier, t))) ==>
      RestorePoint("latest", "hourly/" + NameIn(tier, t), "", t, 0) in points
  {
    hide LatestTarget, ParseSnapshotTime, NameIn, LatestIs, PeriodStart, LatestExists;
    var r := Root(tier, NameIn(tier, t));
    ParseInvertsNames(tier, t);
    assert Removable(d, r) && PointFor(r) in points;
    assert r.ToText() == tier + "/" + NameIn(tier, t);
    if tier == "hourly" && target == Some(r) {
      LatestFollowsTarget(d, target, points);
      HourlyStart(t);
    }
  }

  lemma HourlyStart(t: Timestamp)
    requires ValidTime(t)
    ensures PeriodStart("hourly", t) == t
  {
  }

  /** And nothing else is listed: every entry but `latest` is a directory of a tier. */
  lemma NothingElseIsListed(d: Disk, target: string, points: seq<RestorePoint>, p: RestorePoint)
    requires ScanReport(d, target, points) && p in points && p.snapshot != "latest"
    ensures p.tier in TIERS && p.resolvesTo == "" && p.bytes == 0
    ensures exists name :: p.snapshot == p.tier + "/" + name && IsTree(d, Root(p.tier, name))
  {
    hide ParseSnapshotTime, LatestExists;
    var r :| Removable(d, r) && p == PointFor(r);
    assert p.snapshot == p.tier + "/" + r.name && r == Root(p.tier, r.name);
  }

  /** A `latest` that is a directory stands for the hourly snapshot with the greatest name. */
  lemma DirectoryLatest(d: Disk)
    requires "latest" in d.tops && d.tops["latest"].Folder? && ("hourly" in d.tops ==> d.tops["hourly"].Folder?)
    requires InFolders(d)
    ensures DirNames(d, "hourly") == {} ==> LatestTarget(d) == Ok("")
    ensures forall n | n in DirNames(d, "hourly") && forall m :: m in DirNames(d, "hourly") && m != n ==> Less(m, n) ::
      LatestTarget(d) == Ok("hourly/" + n)
  {
    hide NormalizeRelative, Segments, SortedNames, DirNames, Less;
    var names := SortedNames(DirNames(d, "hourly"));
    HourlyFolder(d);
    forall n | n in DirNames(d, "hourly") && forall m :: m in DirNames(d, "hourly") && m != n ==> Less(m, n)
      ensures LatestTarget(d) == Ok("hourly/" + n)
    {
      var i :| 0 <= i < |names| && names[i] == n;
      if i < |names| - 1 {
        assert names[|names| - 1] in names;
        LessTrichotomy(n, names[|names| - 1]);
      }
      assert names[|names| - 1] == n;
      assert HOURLY + "/" + n == "hourly/" + n;
    }
  }

  lemma HourlyFolder(d: Disk)
    requires InFolders(d)
    ensures DirNames(d, "hourly") != {} ==> "hourly" in d.tops
  {
  }

  // ---------------------------------------------------------------- requests

  /** On a machine that mirrors there is one restore point, `current`; nothing, `latest` and `current` ask for it,
      whatever the status lists, and every other request fails. */
  lemma MirrorRequests(requested: string, status: seq<RestorePoint>)
    ensures Resolve(true, requested, status).Ok? <==> requested == "" || requested == "latest" || requested == "current"
    ensures Resolve(true, requested, status).Ok? ==> Resolve(true, requested, status).value == "current"
  {
  }

  /** A request by name, in any spelling, succeeds iff the status lists the snapshot, or is empty; and then it yields
      the normalised name. */
  lemma NamedRequests(requested: string, status: seq<RestorePoint>)
    requires requested != "" && requested != "latest"
    ensures Resolve(false, requested, status).Ok? <==>
      NormalizeRelative(requested).Ok?
      && (status == [] || exists p :: p in status && p.snapshot == NormalizeRelative(requested).value)
    ensures Resolve(false, requested, status).Ok? ==>
      Resolve(false, requested, status).value == NormalizeRelative(requested).value
  {
    SnapshotCleanerAgrees(requested);
    hide CleanSnapshotPath, NormalizeRelative;
  }

  /** A request for `latest` succeeds iff the status lists it, and its first entry names a snapshot by a good path; and
      then it yields that. */
  lemma LatestRequests(requested: string, status: seq<RestorePoint>)
    requires requested == "" || requested == "latest"
    ensures Resolve(false, requested, status).Ok? <==>
      exists i :: 0 <= i < |status| && status[i].snapshot == "latest"
        && (forall k :: 0 <= k < i ==> status[k].snapshot != "latest")
        && NormalizeRelative(status[i].resolvesTo).Ok?
    ensures forall i :: 0 <= i < |status| && status[i].snapshot == "latest"
                        && (forall k :: 0 <= k < i ==> status[k].snapshot != "latest") ==>
      Resolve(false, requested, status)
      == if status[i].resolvesTo == "" then Err(SnapshotUnresolved) else NormalizeRelative(status[i].resolvesTo)
  {
    hide CleanSnapshotPath, NormalizeRelative, FirstPoint;
    forall i | 0 <= i < |status| && status[i].snapshot == "latest" && forall k :: 0 <= k < i ==>
      status[k].snapshot != "latest"
      ensures Resolve(false, requested, status)
           == if status[i].resolvesTo == "" then Err(SnapshotUnresolved) else NormalizeRelative(status[i].resolvesTo)
    {
      FoundFirst(status, "latest", i);
      SnapshotCleanerAgrees(status[i].resolvesTo);
    }
    if exists p :: p in status && p.snapshot == "latest" {
      var i := FirstLatest(status);
      EmptyIsNoPath();
    } else {
      NoneIsLatest(status);
    }
  }

  lemma EmptyIsNoPath()
    ensures NormalizeRelative("").Err?
  {
  }

  lemma NoneIsLatest(status: seq<RestorePoint>)
    requires forall p :: p in status ==> p.snapshot != "latest"
    ensures FirstPoint(status, "latest").None?
  {
  }

  lemma {:induction false} FirstLatest(status: seq<RestorePoint>) returns (i: nat)
    requires exists p :: p in status && p.snapshot == "latest"
    ensures i < |status| && status[i].snapshot == "latest" && forall k :: 0 <= k < i ==> status[k].snapshot != "latest"
  {
    if status[0].snapshot == "latest" {
      i := 0;
    } else {
      var p :| p in status && p.snapshot == "latest";
      assert p in status[1..];
      i := FirstLatest(status[1..]);
      i := i + 1;
    }
  }

  /** After a recorded scan every snapshot of the volume can be asked for by its path. */
  lemma SnapshotsCanBeRequested(d: Disk, target: Option<Root>, status: seq<RestorePoint>, r: Root)
    requires Recorded(d, target, status) && r.dir in TIERS && IsTree(d, r)
    requires NormalizeRelative(r.ToText()) == Ok(r.ToText())
    ensures Resolve(false, r.ToText(), status) == Ok(r.ToText())
  {
    hide Recorded, Resolve, NormalizeRelative;
    NoTierIsLatest(r.dir, r.name);
    assert r.ToText() == r.dir + "/" + r.name && Removable(d, r);
    RecordedEntries(d, target, status);
    NamedRequests(r.ToText(), status);
  }
}
