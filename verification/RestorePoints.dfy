/** The scan of a volume for restore points (internal/dataplane/snapshot.go), its way into the machine status
    (internal/cli/cli.go, internal/controller/events.go), and the resolution of a restore request against that status
    (internal/controller/reconcilers.go). */
module RestorePoints {
  import opened Wrappers
  import opened Text
  import opened Ordering
  import opened Paths
  import opened Calendar
  import opened Volume
  import opened SnapshotNames
  import opened SnapshotStore
  import opened Pruning
  import opened SpaceRecovery

  datatype RestorePoint = RestorePoint(snapshot: string, resolvesTo: string, tier: string, createdAt: Timestamp,
                                       bytes: int)

  // ---------------------------------------------------------------- the scan

  /** `newestSnapshot`. */
  ghost function Newest(d: Disk, tier: string): Result<string> {
    var names := SortedNames(DirNames(d, tier));
    if tier !in d.tops then Ok("")
    else if !d.tops[tier].Folder? then Err(VolumeUnreadable)
    else Ok(if names == [] then "" else Root(tier, names[|names| - 1]).ToText())
  }

  /** `latestSnapshotTarget`. */
  ghost function LatestTarget(d: Disk): Result<string> {
    if LATEST !in d.tops then Ok("")
    else match d.tops[LATEST]
      case Alias(text) =>
        (match NormalizeRelative(text)
         case Err(e) => Err(e)
         case Ok(normal) =>
           match StatPath(d, Segments(normal))
           case Missing => Ok("")
           case Failed => Err(VolumeUnreadable)
           case Present(_) => Ok(normal))
      case _ => Newest(d, HOURLY)
  }

  /** `os.Stat` of `latest`, once its target is known to be usable. */
  predicate LatestExists(d: Disk) {
    LATEST in d.tops && LatestLeads(d)
  }

  function PointFor(r: Root): RestorePoint {
    RestorePoint(r.ToText(), "", r.dir, ParseSnapshotTime(r.ToText()), 0)
  }

  function LatestPoint(target: string): RestorePoint {
    RestorePoint(LATEST, target, "", ParseSnapshotTime(target), 0)
  }

  /** The order of the result: `latest`, then the snapshots by falling name. */
  predicate PointBefore(a: RestorePoint, b: RestorePoint) {
    b.snapshot != LATEST && (a.snapshot == LATEST || Less(b.snapshot, a.snapshot))
  }

  /** A complete report of a volume whose `latest` has the given target. */
  ghost predicate ScanReport(d: Disk, target: string, points: seq<RestorePoint>) {
    Increasing(points, PointBefore) &&
    forall p :: p in points <==>
      (LatestExists(d) && p == LatestPoint(target)) || exists r :: Removable(d, r) && p == PointFor(r)
  }

  method LatestSnapshotTarget(d: Disk) returns (r: Result<string>)
    ensures r == LatestTarget(d)
  {
    hide NormalizeRelative, Segments;
    if LATEST !in d.tops {
      return Ok("");
    }
    match d.tops[LATEST]
    case Alias(text) =>
      var normal := NormalizeRelativePath(text);
      if normal.Err? {
        return Err(normal.problem);
      }
      match StatPath(d, Segments(normal.value)) {
        case Missing => return Ok("");
        case Failed => return Err(VolumeUnreadable);
        case Present(_) => return normal;
      }
    case _ =>
      if HOURLY !in d.tops {
        return Ok("");
      }
      if !d.tops[HOURLY].Folder? {
        return Err(VolumeUnreadable);
      }
      var listed := new Target(d);
      var names := listed.ReadDir(HOURLY);
      return Ok(if names == [] then "" else Root(HOURLY, names[|names| - 1]).ToText());
  }

  method ScanRestorePoints(d: Disk) returns (r: Result<seq<RestorePoint>>)
    ensures r.Ok? <==> LatestTarget(d).Ok? && Readable(d)
    ensures r.Ok? ==> ScanReport(d, LatestTarget(d).value, r.value)
  {
    var latest := LatestSnapshotTarget(d);
    if latest.Err? {
      return Err(latest.problem);
    }
    hide LatestTarget, NormalizeRelative, Segments, ParseSnapshotTime;
    var points := if LatestExists(d) then [LatestPoint(latest.value)] else [];
    if !Readable(d) {
      return Err(VolumeUnreadable);
    }
    points := AddSnapshots(d, points);
    PointsComparable(d, points, latest.value);
    SortByIncreasing(points, PointBefore);
    return Ok(SortBy(points, PointBefore));
  }

  /** The loop over the tiers: a point for every snapshot. */
  method AddSnapshots(d: Disk, start: seq<RestorePoint>) returns (points: seq<RestorePoint>)
    requires NoDuplicates(start) && forall p :: p in start ==> p.snapshot == LATEST
    ensures NoDuplicates(points)
    ensures forall p :: p in points <==> p in start || exists r :: Removable(d, r) && p == PointFor(r)
  {
    hide ParseSnapshotTime;
    points := start;
    var todo := set x | x in d.trees && Removable(d, x);
    while todo != {}
      invariant NoDuplicates(points)
      invariant forall p :: p in points <==> p in start || exists r :: Removable(d, r) && r !in todo && p == PointFor(r)
      invariant forall r :: r in todo ==> Removable(d, r)
      decreases todo
    {
      var x :| x in todo;
      TextsDiffer(d, x, "");
      assert PointFor(x) !in points;
      ghost var before, rest := points, todo;
      todo := todo - {x};
      points := points + [PointFor(x)];
      assert forall p :: p in points <==> p in before || p == PointFor(x);
      assert forall r :: r !in todo <==> r !in rest || r == x;
    }
  }

  /** Different snapshots give different points, and none is called `latest`. */
  lemma TextsDiffer(d: Disk, x: Root, target: string)
    requires Removable(d, x)
    ensures PointFor(x).snapshot != LATEST
    ensures forall r :: Removable(d, r) && r != x ==> PointFor(r).snapshot != PointFor(x).snapshot
  {
    hide ParseSnapshotTime;
    assert x.ToText()[|x.dir|] == '/';
    assert '/' !in LATEST && '/' in x.ToText();
    forall r | Removable(d, r) && r != x ensures r.ToText() != x.ToText() {
      assert '/' !in r.dir && '/' !in x.dir;
      if r.ToText() == x.ToText() {
        FirstSeparator(r.dir, r.name, x.dir, x.name, '/');
      }
    }
  }

  lemma PointsComparable(d: Disk, points: seq<RestorePoint>, target: string)
    requires forall p :: p in points ==> p == LatestPoint(target) || exists r :: Removable(d, r) && p == PointFor(r)
    ensures Transitive(PointBefore) && Comparable(points, PointBefore)
  {
    hide ParseSnapshotTime;
    forall a: RestorePoint, b: RestorePoint, c: RestorePoint | PointBefore(a, b) && PointBefore(b, c)
      ensures PointBefore(a, c)
    {
      if a.snapshot != LATEST { LessTransitive(c.snapshot, b.snapshot, a.snapshot); }
    }
    forall i, j | 0 <= i < |points| && 0 <= j < |points| && points[i] != points[j]
      ensures PointBefore(points[i], points[j]) || PointBefore(points[j], points[i])
    {
      assert points[i] in points && points[j] in points;
      if points[i] != LatestPoint(target) && points[j] != LatestPoint(target) {
        var r :| Removable(d, r) && points[i] == PointFor(r);
        var s :| Removable(d, s) && points[j] == PointFor(s);
        TextsDiffer(d, r, target);
        TextsDiffer(d, s, target);
        LessTrichotomy(points[i].snapshot, points[j].snapshot);
      } else if points[i] != LatestPoint(target) {
        var r :| Removable(d, r) && points[i] == PointFor(r);
        TextsDiffer(d, r, target);
      } else {
        var s :| Removable(d, s) && points[j] == PointFor(s);
        TextsDiffer(d, s, target);
      }
    }
  }

  /** `latest` is absent, or leads to a snapshot that may be gone. */
  ghost predicate LatestIs(d: Disk, target: Option<Root>) {
    match target
    case None => LATEST !in d.tops
    case Some(r) =>
      LATEST in d.tops && d.tops[LATEST] == Alias(r.ToText()) && (r in d.trees ==> IsTree(d, r))
      && r.dir in TIERS && r.name != "" && forall c :: c in r.name ==> NameChar(c)
  }

  /** `latest` leads to a snapshot that is there. */
  ghost predicate There(d: Disk, target: Option<Root>) {
    target.Some? && target.value in d.trees
  }

  lemma LatestTargetIs(d: Disk, target: Option<Root>)
    requires LatestIs(d, target) && InFolders(d) && LatestTarget(d).Ok?
    ensures LatestTarget(d) == Ok(if There(d, target) then target.value.ToText() else "")
    ensures LatestExists(d) <==> There(d, target)
  {
    hide NormalizeRelative, Segments;
    if target.Some? {
      RootText(target.value);
      var path := Segments(target.value.ToText());
      assert Root(path[0], path[1]) == target.value && path[2..] == [];
    }
  }

  /** The scan reports `latest` exactly when the snapshot it leads to is there, and then that snapshot is reported
      too. */
  lemma LatestFollowsTarget(d: Disk, target: Option<Root>, points: seq<RestorePoint>)
    requires LatestIs(d, target) && InFolders(d) && LatestTarget(d).Ok? && ScanReport(d, LatestTarget(d).value, points)
    ensures (exists p :: p in points && p.snapshot == LATEST) <==> There(d, target)
    ensures There(d, target) ==> LatestPoint(target.value.ToText()) in points && PointFor(target.value) in points
  {
    hide LatestTarget, LatestExists, ParseSnapshotTime;
    LatestTargetIs(d, target);
    forall p | p in points && p != LatestPoint(LatestTarget(d).value) ensures p.snapshot != LATEST {
      var r :| Removable(d, r) && p == PointFor(r);
      TextsDiffer(d, r, "");
    }
    if There(d, target) {
      assert Removable(d, target.value);
      assert LatestPoint(target.value.ToText()) in points && LatestPoint(target.value.ToText()).snapshot == LATEST;
    }
  }

  /** Space recovery may remove the target of `latest` without touching `latest`; the scan then leaves `latest` out. */
  lemma ScanAfterRecovery(d: Disk, gone: set<Root>, target: Option<Root>, points: seq<RestorePoint>)
    requires LatestIs(d, target) && InFolders(d)
    requires LatestTarget(Without(d, gone)).Ok?
    requires ScanReport(Without(d, gone), LatestTarget(Without(d, gone)).value, points)
    ensures (exists p :: p in points && p.snapshot == LATEST) <==> There(d, target) && target.value !in gone
    ensures There(d, target) && target.value !in gone ==>
      LatestPoint(target.value.ToText()) in points && PointFor(target.value) in points
  {
    hide LatestTarget, ParseSnapshotTime, ScanReport;
    LatestFollowsTarget(Without(d, gone), target, points);
  }

  // ---------------------------------------------------------------- the machine status

  const MAX_INT64 := 0x7FFF_FFFF_FFFF_FFFF

  /** `restorePointBytesTransferred`. */
  function Capped(bytes: nat): int { if bytes > MAX_INT64 then MAX_INT64 else bytes }

  /** `controlRestorePoints`: the points of the event, the new snapshot with the bytes of its run. */
  method ControlRestorePoints(points: seq<RestorePoint>, snapshot: string, bytes: nat) returns (out: seq<RestorePoint>)
    ensures |out| == |points|
    ensures forall i :: 0 <= i < |points| && points[i].snapshot != snapshot ==> out[i] == points[i]
    ensures forall i :: 0 <= i < |points| && points[i].snapshot == snapshot ==>
      out[i] == points[i].(bytes := out[i].bytes)
      && if bytes < 0x8000_0000_0000_0000 then out[i].bytes == bytes else out[i].bytes == 0x7FFF_FFFF_FFFF_FFFF
  {
    out := [];
    for i := 0 to |points|
      invariant |out| == i
      invariant forall k :: 0 <= k < i ==>
        out[k] == if points[k].snapshot == snapshot then points[k].(bytes := Capped(bytes)) else points[k]
    {
      out := out + [if points[i].snapshot == snapshot then points[i].(bytes := Capped(bytes)) else points[i]];
    }
  }

  /** The points are the scanned ones, up to the transferred bytes. */
  ghost predicate SamePoints(points: seq<RestorePoint>, status: seq<RestorePoint>) {
    |status| == |points| && forall i :: 0 <= i < |points| ==> status[i].(bytes := points[i].bytes) == points[i]
  }

  /** `ApplyTargetEventToRsyncMachine`: a scan replaces the recorded points, also when it found none. */
  function RecordedPoints(status: seq<RestorePoint>, scanned: bool, points: seq<RestorePoint>): seq<RestorePoint> {
    if scanned || points != [] then points else status
  }

  /** From the scan through the event into the status: a successful scan is recorded as it was, whatever was there. */
  method ReportScan(d: Disk, status: seq<RestorePoint>, snapshot: string, bytes: nat)
    returns (updated: seq<RestorePoint>)
    ensures LatestTarget(d).Ok? && Readable(d) ==>
      exists points :: ScanReport(d, LatestTarget(d).value, points) && SamePoints(points, updated)
    ensures !(LatestTarget(d).Ok? && Readable(d)) ==> updated == status
  {
    hide LatestTarget, ScanReport;
    var scan := ScanRestorePoints(d);
    if scan.Err? {
      return RecordedPoints(status, false, []);
    }
    var points := ControlRestorePoints(scan.value, snapshot, bytes);
    assert SamePoints(scan.value, points);
    return RecordedPoints(status, true, points);
  }

  // ---------------------------------------------------------------- resolving a request

  const CURRENT := "current"

  /** `cleanSnapshotPath`. */
  function CleanSnapshotPath(value: string): Result<string> {
    if value == "" then Err(PathEmpty)
    else if HasPrefix(value, "/") then Err(PathAbsolute)
    else if '\\' in value then Err(PathBackslash)
    else if ".." in Split(value, '/') then Err(PathParent)
    else if Clean(value) == "." then Err(PathUnnamed)
    else Ok(Clean(value))
  }

  /** The snapshot cleaner of the controller is the normaliser of the data plane, on every input. */
  lemma SnapshotCleanerAgrees(value: string)
    ensures CleanSnapshotPath(value) == NormalizeRelative(value)
  {
    if value != "" && !HasPrefix(value, "/") && '\\' !in value && ".." !in Split(value, '/') {
      var parts := Split(value, '/');
      CleanWithoutParents(parts, false, []);
      assert [] + Named(parts) == Named(parts);
      if Named(parts) != [] {
        NormalizeYieldsNormal(value);
        NormalBasics(Join(Named(parts), '/'));
      }
    }
  }

  function FirstPoint(points: seq<RestorePoint>, snapshot: string): (r: Option<RestorePoint>)
    ensures r.Some? ==> r.value in points && r.value.snapshot == snapshot
    ensures r.None? ==> forall p :: p in points ==> p.snapshot != snapshot
  {
    if points == [] then None
    else
      var last := points[|points| - 1];
      assert points == points[..|points| - 1] + [last];
      match FirstPoint(points[..|points| - 1], snapshot)
      case Some(p) => Some(p)
      case None => if last.snapshot == snapshot then Some(last) else None
  }

  lemma {:induction false} FoundFirst(points: seq<RestorePoint>, snapshot: string, i: nat)
    requires i < |points| && points[i].snapshot == snapshot && forall k :: 0 <= k < i ==> points[k].snapshot != snapshot
    ensures FirstPoint(points, snapshot) == Some(points[i])
  {
    var n := |points| - 1;
    if i < n {
      FoundFirst(points[..n], snapshot, i);
    } else {
      assert forall p :: p in points[..n] ==> p.snapshot != snapshot;
    }
  }

  function Resolve(mirror: bool, requested: string, points: seq<RestorePoint>): Result<string> {
    if mirror then if requested in ["", LATEST, CURRENT] then Ok(CURRENT) else Err(SnapshotUnknown)
    else if requested != "" && requested != LATEST then
      match CleanSnapshotPath(requested)
      case Err(e) => Err(e)
      case Ok(name) => if points == [] || FirstPoint(points, name).Some? then Ok(name) else Err(SnapshotUnknown)
    else
      match FirstPoint(points, LATEST)
      case None => Err(SnapshotUnknown)
      case Some(p) => if p.resolvesTo == "" then Err(SnapshotUnresolved) else CleanSnapshotPath(p.resolvesTo)
  }

  method FindPoint(points: seq<RestorePoint>, snapshot: string) returns (r: Option<RestorePoint>)
    ensures r == FirstPoint(points, snapshot)
  {
    for i := 0 to |points|
      invariant forall k :: 0 <= k < i ==> points[k].snapshot != snapshot
    {
      if points[i].snapshot == snapshot {
        FoundFirst(points, snapshot, i);
        return Some(points[i]);
      }
    }
    return None;
  }

  /** `resolveRestoreSnapshot`. */
  method ResolveRestoreSnapshot(mirror: bool, requested: string, points: seq<RestorePoint>) returns (r: Result<string>)
    ensures r == Resolve(mirror, requested, points)
  {
    hide CleanSnapshotPath, FirstPoint;
    if mirror {
      if requested == "" || requested == LATEST || requested == CURRENT {
        return Ok(CURRENT);
      }
      return Err(SnapshotUnknown);
    }
    var wanted := if requested == "" then LATEST else requested;
    if wanted != LATEST {
      var normalized := CleanSnapshotPath(wanted);
      if normalized.Err? || points == [] {
        return normalized;
      }
      var found := FindPoint(points, normalized.value);
      return if found.Some? then normalized else Err(SnapshotUnknown);
    }
    var found := FindPoint(points, LATEST);
    if found.None? {
      return Err(SnapshotUnknown);
    }
    if found.value.resolvesTo == "" {
      return Err(SnapshotUnresolved);
    }
    return CleanSnapshotPath(found.value.resolvesTo);
  }

  /** A status that records a scan of a volume on which `latest` is absent or leads to `target`. */
  ghost predicate Recorded(d: Disk, target: Option<Root>, status: seq<RestorePoint>) {
    LatestIs(d, target) && InFolders(d) && LatestTarget(d).Ok?
    && exists points :: ScanReport(d, LatestTarget(d).value, points) && SamePoints(points, status)
  }

  /** What a recorded status lists: `latest`, iff its target was there, and the snapshots of the volume. */
  lemma RecordedEntries(d: Disk, target: Option<Root>, status: seq<RestorePoint>)
    requires Recorded(d, target, status)
    ensures forall p :: p in status && p.snapshot == LATEST ==>
      There(d, target) && p.resolvesTo == target.value.ToText()
    ensures forall p :: p in status && p.snapshot != LATEST ==>
      exists r :: Removable(d, r) && p.snapshot == r.ToText() && p.tier == r.dir
    ensures There(d, target) ==> exists p :: p in status && p.snapshot == LATEST
    ensures forall r :: Removable(d, r) ==> exists p :: p in status && p.snapshot == r.ToText()
  {
    hide LatestTarget, ParseSnapshotTime, LatestExists, LatestIs;
    var points :| ScanReport(d, LatestTarget(d).value, points) && SamePoints(points, status);
    LatestFollowsTarget(d, target, points);
    forall p | p in status
      ensures p.snapshot == LATEST ==> There(d, target) && p.resolvesTo == target.value.ToText()
      ensures p.snapshot != LATEST ==> exists r :: Removable(d, r) && p.snapshot == r.ToText() && p.tier == r.dir
    {
      var i :| 0 <= i < |status| && status[i] == p;
      assert points[i] in points;
      RecordedEntry(d, target, points, points[i]);
    }
    forall q: RestorePoint | q in points ensures exists p :: p in status && p.snapshot == q.snapshot {
      var i :| 0 <= i < |points| && points[i] == q;
      assert status[i] in status;
    }
    forall r | Removable(d, r) ensures exists p :: p in status && p.snapshot == r.ToText() {
      assert PointFor(r) in points;
    }
  }

  lemma RecordedEntry(d: Disk, target: Option<Root>, points: seq<RestorePoint>, q: RestorePoint)
    requires LatestIs(d, target) && InFolders(d)
    requires LatestTarget(d).Ok? && ScanReport(d, LatestTarget(d).value, points) && q in points
    ensures q.snapshot == LATEST ==> There(d, target) && q.resolvesTo == target.value.ToText()
    ensures q.snapshot != LATEST ==> exists r :: Removable(d, r) && q == PointFor(r)
  {
    hide LatestTarget, LatestExists, ParseSnapshotTime;
    LatestTargetIs(d, target);
    if q != LatestPoint(LatestTarget(d).value) {
      var r :| Removable(d, r) && q == PointFor(r);
      TextsDiffer(d, r, "");
    }
  }

  /** A request for `latest` (or for nothing) yields the snapshot that `latest` led to at the scan, if that was there;
      it fails if the snapshot was gone or there was no `latest`. */
  lemma LatestResolvesToItsTarget(d: Disk, target: Option<Root>, status: seq<RestorePoint>, requested: string)
    requires Recorded(d, target, status) && (requested == "" || requested == LATEST)
    ensures Resolve(false, requested, status)
      == if There(d, target) then Ok(target.value.ToText()) else Err(SnapshotUnknown)
  {
    hide NormalizeRelative, Recorded, FirstPoint;
    RecordedEntries(d, target, status);
    if There(d, target) {
      RecordedTarget(d, target, status);
      SnapshotCleanerAgrees(target.value.ToText());
    }
  }

  lemma RecordedTarget(d: Disk, target: Option<Root>, status: seq<RestorePoint>)
    requires Recorded(d, target, status) && target.Some?
    ensures NormalizeRelative(target.value.ToText()) == Ok(target.value.ToText()) && target.value.ToText() != ""
  {
    RootText(target.value);
  }

  /** A successful request against a recorded, non-empty status names a listed point; and it names a snapshot that was
      there at the scan, unless the request was another spelling of `latest`, such as `./latest`. */
  lemma ResolvedIsListed(d: Disk, target: Option<Root>, status: seq<RestorePoint>, requested: string)
    requires Recorded(d, target, status) && status != [] && Resolve(false, requested, status).Ok?
    ensures var snapshot := Resolve(false, requested, status).value;
      (exists p :: p in status && p.snapshot == snapshot)
      && ((exists r :: Removable(d, r) && r.ToText() == snapshot) <==> snapshot != LATEST)
      && (snapshot == LATEST <==> requested != "" && requested != LATEST && CleanSnapshotPath(requested) == Ok(LATEST))
  {
    hide NormalizeRelative, Recorded, CleanSnapshotPath;
    RecordedEntries(d, target, status);
    var snapshot := Resolve(false, requested, status).value;
    forall r | Removable(d, r) ensures r.ToText() != LATEST {
      TextsDiffer(d, r, "");
    }
    if requested == "" || requested == LATEST {
      LatestResolvesToItsTarget(d, target, status, requested);
      TargetIsRemovable(d, target, status);
    } else {
      var p := FirstPoint(status, snapshot).value;
      assert p in status;
    }
  }

  lemma TargetIsRemovable(d: Disk, target: Option<Root>, status: seq<RestorePoint>)
    requires Recorded(d, target, status) && There(d, target)
    ensures Removable(d, target.value)
  {
  }

  /** The spelling `./latest` is accepted and stays unresolved, exactly when a plain request for `latest` would be
      resolved to a snapshot. */
  lemma OtherSpellingOfLatest(d: Disk, target: Option<Root>, status: seq<RestorePoint>)
    requires Recorded(d, target, status) && status != []
    ensures Resolve(false, "./latest", status) == if There(d, target) then Ok(LATEST) else Err(SnapshotUnknown)
  {
    hide Recorded, CleanSnapshotPath;
    DotLatestCleans();
    RecordedEntries(d, target, status);
    assert |LATEST| != |"./latest"|;
  }

  lemma DotLatestCleans()
    ensures CleanSnapshotPath("./latest") == Ok(LATEST)
  {
    SpelledSegments();
    NormalizeNamed("./latest");
    hide CleanSnapshotPath, NormalizeRelative;
    SnapshotCleanerAgrees("./latest");
  }

  lemma SpelledSegments()
    ensures Split("./latest", '/') == [".", LATEST] && Named([".", LATEST]) == [LATEST]
  {
    assert "./latest" == "." + "/" + LATEST;
    SplitField(".", LATEST, '/');
    SplitPlain(LATEST, '/');
    assert [".", LATEST][1..] == [LATEST] && [LATEST][1..] == [];
    assert LATEST[0] == 'l' && "."[0] == '.';
    assert Named([LATEST]) == [LATEST] + Named([]);
    hide Split;
  }

  lemma NormalizeNamed(value: string)
    requires Split(value, '/') == [".", LATEST] && Named([".", LATEST]) == [LATEST]
    requires value != "" && !HasPrefix(value, "/") && '\\' !in value
    ensures NormalizeRelative(value) == Ok(LATEST)
  {
    hide Split, Named;
    assert LATEST[0] == 'l' && ".."[0] == '.' && |"."| == 1;
    assert Join([LATEST], '/') == LATEST;
  }
}
