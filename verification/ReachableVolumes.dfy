/** What holds of every volume that serving processes have worked on, and what the scan and a restore request make of
    it: the hypotheses of `FinalizeRestart` and `RestorePoints` are those that every reachable volume meets. */
module ReachableVolumes {
  import opened Wrappers
  import opened Paths
  import opened Calendar
  import opened Volume
  import opened SnapshotStore
  import opened RestorePoints
  import Calls = StoreCalls
  import Seeding
  import SpaceRecovery
  import Runs = SnapshotRuns
  import ServeRuns

  /** Everything at the top is a folder, but for `latest` and its replacement. */
  ghost predicate PlainTops(d: Disk) {
    forall t :: t in d.tops && t != LATEST && t != TMP ==> d.tops[t].Folder?
  }

  ghost predicate Usable(d: Disk) {
    InFolders(d) && PlainTops(d) && Runs.SoundAliases(d)
  }

  lemma StepKeepsTops(v: Runs.State, step: Runs.Step)
    requires Runs.Enabled(v, step) && PlainTops(v.disk)
    ensures PlainTops(Runs.Next(v, step).disk)
  {
    DirsDiffer();
    if step.Open? {
      SeedKeepsTops(v.disk, step.destination);
      hide Seeding.Seed;
    } else if step.Store? {
      CallKeepsTops(v.disk, step.call);
      hide Calls.Apply, Calls.Allowed;
    }
  }

  lemma SeedKeepsTops(d: Disk, destination: string)
    requires PlainTops(d)
    ensures PlainTops(Seeding.Seed(d, destination).disk)
  {
    hide Seeding.Destination, Seeding.SeededTree, Seeding.Emptied, Seeding.LatestTree, StatIn, Seeding.Blocked;
  }

  lemma CallKeepsTops(d: Disk, call: Calls.Call)
    requires Calls.Allowed(d, call) && PlainTops(d)
    ensures PlainTops(Calls.Apply(d, call))
  {
    hide ParseTime;
    DirsDiffer();
  }

  lemma VolumeStepStaysUsable(v: Runs.State, w: Runs.State)
    requires Runs.Sound(v) && Usable(v.disk) && ServeRuns.VolumeStep(v, w)
    ensures Usable(w.disk)
  {
    hide Runs.Next, Runs.Enabled, Runs.Disciplined, PlainTops, Runs.SoundAliases;
    if w != v {
      var step :| Runs.Enabled(v, step) && Runs.Disciplined(v, step) && w == Runs.Next(v, step);
      Runs.StepIsSound(v, step);
      Runs.StepKeepsAliases(v, step);
      StepKeepsTops(v, step);
    }
  }

  lemma {:induction false} ServedIsUsable(run: ServeRuns.Run, i: nat)
    requires ServeRuns.Valid(run) && i < |run.states|
    ensures Usable(run.states[i].volume.disk)
  {
    hide Usable, ServeRuns.VolumeStep, ServeRuns.Next;
    if i == 0 {
      NewIsUsable();
    } else {
      ServedIsUsable(run, i - 1);
      ServeRuns.RunIsServing(run, i - 1);
      assert ServeRuns.StepOf(run.states[i - 1], run.steps[i - 1], run.states[i]);
      ServeRuns.StepIsDisciplined(run.states[i - 1], run.steps[i - 1]);
      VolumeStepStaysUsable(run.states[i - 1].volume, run.states[i].volume);
    }
  }

  lemma NewIsUsable()
    ensures Usable(ServeRuns.NEW.volume.disk)
  {
    Runs.NewVolumeIsSound();
  }

  /** Where `latest` leads on such a volume: nowhere, or to an hourly snapshot. */
  lemma LatestOf(d: Disk) returns (target: Option<Root>)
    requires Usable(d)
    ensures LatestIs(d, target) && (target.Some? ==> target.value.dir == HOURLY)
  {
    if LATEST !in d.tops {
      target := None;
    } else {
      var name :| Runs.SoundAlias(d, LATEST, name);
      NamesAreTimes(name);
      target := Some(Root(HOURLY, name));
    }
  }

  lemma NamesAreTimes(name: string)
    requires ParseTime(name).Some?
    ensures name != "" && forall c :: c in name ==> NameChar(c)
  {
    ParseTimeExact(name, ParseTime(name).value);
    TimeChars(ParseTime(name).value);
  }

  /** The scan of such a volume does not fail. */
  lemma ScanSucceeds(d: Disk)
    requires Usable(d)
    ensures LatestTarget(d).Ok? && SpaceRecovery.Readable(d)
  {
    hide ParseTime, NormalizeRelative, Segments, StatPath, Newest;
    DirsDiffer();
    assert HOURLY in d.tops ==> d.tops[HOURLY].Folder?;
    if LATEST in d.tops {
      var name :| Runs.SoundAlias(d, LATEST, name);
      NamesAreTimes(name);
      LatestCanBeRead(d, name);
    }
    hide LatestTarget, InFolders, Runs.SoundAliases;
  }

  lemma LatestCanBeRead(d: Disk, name: string)
    requires LATEST in d.tops && d.tops[LATEST] == Alias(Root(HOURLY, name).ToText())
    requires name != "" && (forall c :: c in name ==> NameChar(c)) && (HOURLY in d.tops ==> d.tops[HOURLY].Folder?)
    requires Root(HOURLY, name) in d.trees ==> IsTree(d, Root(HOURLY, name))
    ensures LatestTarget(d).Ok?
  {
    RootText(Root(HOURLY, name));
    hide NormalizeRelative, Segments;
    var path := Segments(Root(HOURLY, name).ToText());
    assert Root(path[0], path[1]) == Root(HOURLY, name) && path[2..] == [];
  }

  /** A request for `latest` against the recorded status yields the hourly snapshot of the volume to which `latest`
      leads, or fails if there is none. */
  ghost predicate Resolves(d: Disk, status: seq<RestorePoint>, target: Option<Root>) {
    Recorded(d, target, status) && (target.Some? ==> target.value.dir == HOURLY)
    && Resolve(false, LATEST, status) == if There(d, target) then Ok(target.value.ToText()) else Err(SnapshotUnknown)
  }

  /** From the processes that served a volume to a restore: the scan of a reachable volume succeeds, and against the
      status that records it a request for `latest` is resolved to an hourly snapshot of the volume, or fails. */
  lemma ServedLatestResolves(run: ServeRuns.Run, i: nat, points: seq<RestorePoint>, status: seq<RestorePoint>)
    requires ServeRuns.Valid(run) && i < |run.states|
    requires var d := run.states[i].volume.disk;
      LatestTarget(d).Ok? ==> ScanReport(d, LatestTarget(d).value, points) && SamePoints(points, status)
    ensures var d := run.states[i].volume.disk;
      LatestTarget(d).Ok? && SpaceRecovery.Readable(d) && exists target :: Resolves(d, status, target)
  {
    hide Resolve, ScanReport, LatestTarget, LatestIs, Runs.SoundAliases, PlainTops, ServeRuns.Valid;
    var d := run.states[i].volume.disk;
    ServedIsUsable(run, i);
    ScanSucceeds(d);
    var target := LatestOf(d);
    assert Recorded(d, target, status);
    LatestResolvesToItsTarget(d, target, status, LATEST);
    assert Resolves(d, status, target);
  }
}
