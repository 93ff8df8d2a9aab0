# Verified model of the rsync backup operator's protocols

The repository runs backups and restores of Kubernetes volumes: a controller admits runs and watches their jobs, an
in-memory control plane passes commands and events, a data plane receives rsync transfers on a target volume and keeps
tiers of hard-linked snapshots, and a web page follows the events. This project models the parts where the order of steps,
the sharing of files or the agreement of separately written code matters, and proves what they promise for every input,
every run and every point of interruption.

| area | files |
|---|---|
| shared vocabulary: strings, sorting, Go's path functions | `Wrappers.dfy`, `Ordering.dfy`, `Text.dfy`, `Paths.dfy` |
| the snapshot store: volume, calendar, retention, finalizing, recovery, scanning | `Calendar.dfy`, `Volume.dfy`, `Retention.dfy`, `SnapshotStore.dfy`, `SnapshotNames.dfy`, `Pruning.dfy`, `FinalizeRestart.dfy`, `TierSnapshots.dfy`, `StoreCalls.dfy`, `Seeding.dfy`, `SnapshotRuns.dfy`, `SpaceRecovery.dfy`, `RestorePoints.dfy`, `RestoreRequests.dfy` |
| the control plane: command log and event hub | `Commands.dfy`, `CommandService.dfy`, `EventHub.dfy`, `EventOrder.dfy` |
| the controller: admission, run phases, schedules | `Admission.dfy`, `AdmissionPhases.dfy`, `Reconcilers.dfy`, `RunPhases.dfy`, `RunOutcomes.dfy`, `Labels.dfy`, `Schedule.dfy` |
| the target process, its runs on a volume, and what a restore then finds | `ServeTarget.dfy`, `ServeRuns.dfy`, `Completion.dfy`, `ReachableVolumes.dfy` |
| controller and target process together | `FinalizeCommand.dfy`, `SystemRuns.dfy`, `GatedRuns.dfy` |
| agreement on destinations | `Destinations.dfy`, `Attachment.dfy`, `MirrorOverlaps.dfy`, `RunSet.dfy` |
| the event stream to the browser | `Sse.dfy`, `SseFields.dfy` |

Code that changes state in place is modelled by classes and methods (`SnapshotStore.Target`, `CommandService.Service`,
`EventHub.Hub`, `Reconcilers.ApiServer`, and the loops over sources, jobs, commands and chunks). Each of those methods is
tied to a function of the old state, and the theorems are about runs of that function; what an operation leaves is also
stated without it, on the state before alone (`TierSnapshots`, `AdmissionPhases`, `RunOutcomes`, `RestoreRequests`,
`SseFields`). Directory calls are recorded one by
one, so that an operation can be stopped after any of them; sections under a mutex, and reconciles, are single steps; channel
sends and receives are steps of their own. Clocks, the cron library, file modification times, the results of transfers and
the answers of the API server are parameters. `dafny verify dfyconfig.toml` checks everything.

Where a promise does not hold of the code as it stands, the project says exactly when it does, and shows that the other case
occurs:

- an interrupted finalize can be restarted to the same end iff retention keeps the new hourly name
  (`FinalizeRestart.RestartableIffKept`), and a second run after a success is idle unless the first one found both the partial
  run and its snapshot and then pruned the snapshot (`FinalizeRestart.SecondRunIsIdle`, `FinalizeRestart.SecondRunPromotesAgain`);
- snapshots are immutable as long as no transfer is open when its run is promoted; if one is, it can change the snapshot
  (`SnapshotRuns.SnapshotsAreImmutable`, `SnapshotRuns.OpenTransferChangesSnapshot`). The serving process never promotes
  then, so its snapshots are immutable without an assumption (`ServeRuns.ServedSnapshotsAreImmutable`);
- in every run a promoted snapshot holds what each source's last successful transfer left, iff no destination lies below
  another (`ServeRuns.AcceptedRunsAreWhole`): seeding an outer destination empties the inner one. The run set accepts such
  destinations (`ServeRuns.NestedSourcesAreAccepted`). That excepts sources that completed and then began another transfer
  without success; for them too it holds iff there is no second source (`ServeRuns.StrictlyWholeIffAlone`), as the receiver
  accepts a completed source again while another one is missing and goes on counting it as completed. The failing runs are
  also runs of process and controller together, in which a job completes only after a transfer of its source and finalize is
  sent only when all jobs are complete: that gate leaves both conditions as they are (`GatedRuns.WholeIffApart`,
  `GatedRuns.StrictlyWholeIffAlone`);
- a reported completion means that this process has promoted its run iff there was no snapshot of that name when finalizing
  began (`Completion.CompletionPromotesIffMissing`). Otherwise the old snapshot is reported and what the sources left stays in
  the partial run, which occurs after a process has ended right behind its promotion (`Completion.CompletionWithoutPromotion`,
  `GatedRuns.CompletionWithoutPromotion`);
- a live command stream is stuck iff it is idle and every producer that holds a command for it waits for a full channel
  (`CommandService.StuckIffBlocked`); behind the channel of a stream that has ended it stays stuck for ever
  (`CommandService.JamStarvesOthers`, `CommandService.StarvingRun`);
- commands are delivered exactly once, but enqueueing one while a live stream still waits for the one before lets a next step
  break their order, and only then (`CommandService.CommandsArriveExactlyOnce`, `CommandService.ConcurrentEnqueuesReorder`,
  `CommandService.ReorderingRun`);
- a subscriber receives events in order, but publishing one while an earlier delivery to it has not ended makes it possible
  that it receives them out of order, and only that (`EventHub.SubscriberStreamsAreSound`,
  `EventOrder.ConcurrentPublicationsReorder`, `EventOrder.OvertakingRun`);
- backups and restores exclude each other on a machine in every step but one: the reconcile of a backup that passes every
  check of the admission while an active restore of the machine is there. The check for restores does not see one whose source
  is gone or whose namespaces are no longer permitted (`Admission.ExclusionIsKeptIffSeen`, `Admission.OverlookedHasNoAccess`,
  `Admission.OverlookedRestoreRuns`);
- different fires of one machine have different job names; two machines share the job names of a minute iff their own names have
  the same plain form, as `a.b` and `a-b` do (`Schedule.MachinesShareNames`, `Schedule.DottedNamesAreShared`, for plain forms of
  at most 45 characters; longer ones as `Labels.LabelsCoincide` says). Creating a job that is already there counts as success;
- the id of a run, which names its staged tree, is unique within a namespace, but not beyond: `b-c` in `a` and `c` in `a-b` share
  theirs (`Destinations.RunIDsCoincide`, `Destinations.RunIDsMayCoincide`);
- normalising an event stream chunk by chunk agrees with normalising it as a whole iff no chunk ends inside a CRLF
  (`Sse.NormalizeChunks`); a stream that breaks off delivers its whole frames, and one event more iff the rest has reached the
  field name of a data line (`Sse.PrefixDelivers`);
- a restore request spelled `./latest` is accepted without being resolved to an immutable snapshot; every other successful
  request is (`RestorePoints.ResolvedIsListed`, `RestorePoints.OtherSpellingOfLatest`).

The repository's documentation speaks of a run lock on the target; `AcquireTargetLock` and `CleanupStalePartials`
(internal/dataplane/snapshot.go:239-323) have no caller, so the model has no lock: exclusion comes from admission alone.

## Model

| member | source | states |
|---|---|---|
| Paths.NormalizeRelativePath | internal/dataplane/snapshot.go:152-178 | the segment loop computes the normaliser: empty and `.` segments dropped, `..`, absolute paths, backslashes and nothing-left rejected |
| Paths.NormalIffFixed | internal/dataplane/snapshot.go:152-178 | a path is normal (plain segments only) iff the normaliser returns it unchanged |
| Paths.NormalizeIdempotent | internal/dataplane/snapshot.go:180-185 | normalising a target subpath twice is normalising it once |
| Paths.CleanersAgree | internal/controller/helpers.go:186-206 | the controller's `path.Clean`-based cleaner and the data plane's normaliser give the same normal path and reject the same inputs, except other spellings of the root |
| Paths.CleanIdempotent | internal/controller/helpers.go:186-206 | a cleaned destination cleans to itself |
| Destinations.ParseExpectedTransferSources | internal/dataplane/transport.go:702-732 | the argument loop yields one expectation for each `--source`, at its partial or mirror destination, or the first error |
| Destinations.SpecRoundTrip | internal/dataplane/transport.go:734-747 | parsing `namespace/name=destination` gives back the three fields of the argument |
| Destinations.ArgumentRoundTrip | internal/controller/builders.go:212-218 | the expectation parsed from a source's `--source` argument has its identity and the destination its sender asks for |
| Destinations.AcceptedSourcesAreReceived | internal/dataplane/transport.go:392-398 | for every accepted source in both strategies, the receiver's map has exactly these identities and the sender's destination passes the equality check |
| Destinations.SentIsNormal | internal/controller/helpers.go:122-145 | the sender's `--target` is the written form of a normal path: `.partial/<run>/<effective>` or the mirror destination |
| Destinations.EffectiveSegments | internal/controller/helpers.go:86-120 | effective destinations are normal; in Snapshot mode they are the namespace followed by the cleaned path |
| Destinations.SnapshotDestinationsDiffer | internal/controller/helpers.go:97-131 | in Snapshot mode two sources share a destination iff they share namespace and cleaned path |
| Destinations.SpecIffWritten | internal/dataplane/transport.go:734-747 | an argument is accepted iff it is a bare destination without `=`, or `namespace/name=destination` with no part missing |
| Destinations.OnlyExpectedIsAccepted | internal/dataplane/transport.go:382-398 | the receiver accepts a sender iff it is expected and asks for the destination it is expected with, in any spelling |
| Destinations.LastExpectationCounts | internal/dataplane/transport.go:723-729 | a sender named more than once is expected with the destination of its last argument |
| Destinations.FinalizeSourcesAreEffective | internal/dataplane/transport.go:707-731 | the sources to finalize that the target reads from its arguments are the effective destinations of the run |
| Attachment.AttachedIff | internal/controller/helpers.go:43-84 | a source is attached iff its reference names the machine, with its own namespace as default, and the machine lets that namespace in: its own if it lists none, else those listed, `.` for its own, `*` for all |
| MirrorOverlaps.OverlapIsNesting | internal/controller/helpers.go:341-356 | the string-prefix test means that one destination's segment list is a prefix of the other's; what is reported is the outer one, whatever the order of the pair, the root as `/` |
| MirrorOverlaps.DetectMirrorDestinationPathOverlaps | internal/controller/helpers.go:271-339 | the pair loops return the complete report: one sorted entry for each conflicting path, listing exactly the sources involved |
| MirrorOverlaps.NoOverlapIffDisjoint | internal/controller/helpers.go:271-339 | the report is empty iff no two attached sources, one of which deletes, have nested destinations |
| MirrorOverlaps.OverlapReportUnique | internal/controller/helpers.go:271-339 | there is only one complete report, so it does not depend on map iteration order |
| MirrorOverlaps.OverlapOrderIsByPath | internal/controller/helpers.go:325-338 | the report goes by rising path, each entry by rising `namespace/name` |
| RunSet.DetectDestinationPathConflicts | internal/controller/helpers.go:208-269 | the result lists, sorted, exactly the namespace and path pairs claimed more than once, with all their claimants; an error iff a destination cannot be cleaned |
| RunSet.ConflictsIffClash | internal/controller/helpers.go:208-269 | there is a conflict iff two attached sources of a namespace have the same cleaned path |
| RunSet.ConflictOrderIsBySlot | internal/controller/helpers.go:250-268 | the conflicts of a namespace go by rising path |
| RunSet.CalculateTargetRunSet | internal/controller/helpers.go:358-428 | succeeds iff the strategy is known, Mirror has no retention, all destinations are clean, none clash and a source is attached; then it lists exactly the attached sources, sorted, with their effective destinations |
| Calendar.NextDayCounts | internal/dataplane/snapshot.go:424-429 | the day after a date has the next day number, across months, years and leap days |
| Calendar.PreviousDayCounts | internal/dataplane/snapshot.go:424-429 | the day before a date has the previous day number |
| Calendar.DayNumberOfCivilDate | internal/dataplane/snapshot.go:424-429 | walking from day 0 to a day number reaches the date with that number |
| Calendar.CivilDateOfDayNumber | internal/dataplane/snapshot.go:424-429 | dates and day numbers correspond one to one |
| Calendar.WeekStartIsTheMonday | internal/dataplane/snapshot.go:424-429 | the week start is the one Monday among a date and the six days before it, in every year |
| Calendar.SameWeek | internal/dataplane/snapshot.go:416-429 | two dates have the same week start iff they lie in one Monday-to-Sunday week; otherwise a Monday separates them |
| Calendar.KnownMonday | internal/dataplane/snapshot_test.go:41-58 | 18 May 2026 is a Monday, and the week start of the following Sunday |
| Calendar.TimeOrder | internal/dataplane/snapshot.go:15 | formatted timestamps sort as strings exactly as the times sort, and name them uniquely |
| Calendar.ParseTimeExact | internal/dataplane/snapshot.go:52-55 | a text parses to a time iff it is that time's formatted name |
| SnapshotNames.NamesFollowTime | internal/dataplane/snapshot.go:416-422 | in every tier names sort like the periods they name, and two times share a name iff they share the period |
| SnapshotNames.ParseInvertsNames | internal/dataplane/snapshot.go:598-616 | parsing the name given in a tier yields the start of its period; for hourly names the time itself |
| Retention.DoomedIsPrefix | internal/dataplane/snapshot.go:352-360 | removing the first sorted names while more than `keep` are left removes exactly the doomed ones |
| Retention.KeepsTheNewest | internal/dataplane/snapshot.go:325-361 | exactly min(n, keep) names are kept and everything removed is older than everything kept |
| Retention.DoomedNamesDoNotMatter | internal/dataplane/snapshot.go:325-361 | what is kept does not change when some doomed names are already gone |
| SnapshotStore.Target.ReadDir | internal/dataplane/snapshot.go:339-352 | the sorted names of the directories of a tier |
| SnapshotStore.Target.PruneTier | internal/dataplane/snapshot.go:352-360 | the loop over `names[0]` performs the prune steps of the tier, in order, and reports them |
| Pruning.CleanupResult | internal/dataplane/snapshot.go:483-509 | after the check `latest` is gone or leads to something that exists, and no tree has changed |
| SnapshotStore.Target.ApplyRetention | internal/dataplane/snapshot.go:325-366 | the tier loop performs the retention steps in order, stopping at the first unreadable tier |
| FinalizeRestart.PointForm | internal/dataplane/snapshot.go:431-452 | repointing through `latest.tmp` succeeds for every directory, and leaves exactly `latest` changed, whatever was at either name |
| SnapshotStore.Target.ValidateSnapshotSources | internal/dataplane/snapshot.go:122-132 | true iff every source is a valid path that exists in the tree |
| SnapshotStore.Target.LinkTierSnapshots | internal/dataplane/snapshot.go:105-115 | missing tier snapshots are linked from the hourly one, existing ones left, an unusable tier ends the run |
| SnapshotStore.Target.FinalizePromoted | internal/dataplane/snapshot.go:95-120 | validation, `latest`, tiers and retention in this order, with exactly these steps and points |
| SnapshotStore.Target.PromotePartial | internal/dataplane/snapshot.go:86-92 | the hourly folder is made, the partial tree renamed into it, and finalized |
| SnapshotStore.Target.FinalizeBackup | internal/dataplane/snapshot.go:45-93 | the checks, the promotion and the finalization take exactly the steps of the specification, in every branch |
| Pruning.RetentionResult | internal/dataplane/snapshot.go:325-366 | the hourly, daily, weekly and monthly tier each keep exactly as many of their newest names as the field of that name says, other trees are untouched, the removed ones are reported in this order, and `latest` does not dangle |
| Pruning.RetentionKeepsTheNewest | internal/dataplane/snapshot.go:325-366 | for names given by runs, what is removed lies in an earlier period than what is kept, and the report goes from old to new |
| Pruning.RetainedTexts | internal/dataplane/snapshot.go:352-360 | the returned list is, tier by tier, exactly the removed snapshots |
| FinalizeRestart.FinalizeIffStartable | internal/dataplane/snapshot.go:45-120 | finalizing succeeds iff the arguments are good, the partial run or an earlier promotion is complete and the tier folders usable; it then leaves the closed-form disk |
| FinalizeRestart.RestartAfterAnyStep | internal/dataplane/snapshot.go:45-120 | stopping after any directory call and starting again succeeds with the disk of the uninterrupted run, if retention keeps the new snapshot |
| FinalizeRestart.RestartableIffKept | internal/dataplane/snapshot.go:45-120 | every interruption can be restarted to the same end iff retention keeps the new hourly name |
| FinalizeRestart.SecondRunIsIdle | internal/dataplane/snapshot.go:66-82 | a second run leaves the volume alone iff the new snapshot is kept or the first run did not find both partial run and snapshot |
| FinalizeRestart.SecondRunPromotesAgain | internal/dataplane/snapshot.go:66-82 | with an empty partial run beside its empty snapshot, a second run is idle iff the policy keeps an hourly snapshot: the other case occurs |
| FinalizeRestart.FirstRunSucceeds | internal/dataplane/snapshot.go:45-93 | both kinds of run occur: the first run of a volume succeeds, and its snapshot is kept iff the policy does not ask for zero hourly snapshots |
| FinalizeRestart.BetweenSameGoal | internal/dataplane/snapshot.go:95-120 | the final disk does not depend on how many tiers were linked and how many doomed snapshots removed before |
| TierSnapshots.TiersNamePeriods | internal/dataplane/snapshot.go:416-429 | the tier names of a run parse to midnight of its day, of the Monday on or before it, and of the first of its month |
| TierSnapshots.TiersAreShared | internal/dataplane/snapshot.go:416-429 | two runs share a daily, weekly or monthly name iff they lie in the same day, the same Monday-to-Sunday week, or the same month |
| TierSnapshots.TiersAfterFinalize | internal/dataplane/snapshot.go:95-120 | after a successful finalize each tier holds its names and the new one, pruned to as many of the newest as the field of the policy for it says |
| TierSnapshots.TierContents | internal/dataplane/snapshot.go:66-120 | the hourly snapshot is the partial run, or the earlier snapshot; a new tier snapshot has its nodes and the same inodes, without special files; others are as they were |
| TierSnapshots.LatestAfterFinalize | internal/dataplane/snapshot.go:431-509 | `latest` then leads to the new hourly snapshot iff retention has kept that, and is gone otherwise; the temporary link is gone |
| TierSnapshots.FinalizeReports | internal/dataplane/snapshot.go:95-120 | the result lists the hourly snapshot, `latest -> ` it, and the tier snapshots that were new, in this order |
| TierSnapshots.RunIDIff | internal/dataplane/snapshot.go:627-640 | a run id is accepted iff it is one plain path segment without line ends and `=` |
| TierSnapshots.BadArgumentsFail | internal/dataplane/snapshot.go:45-57 | without a target root, a good run id or a timestamp of some time, nothing is changed and an error returned |
| StoreCalls.FinalizingIsCalls | internal/dataplane/snapshot.go:45-120 | a finalize run, complete, failed or interrupted, is a sequence of the store's directory calls, which promotes no other run |
| StoreCalls.RetentionIsCalls | internal/dataplane/snapshot.go:325-366 | so is retention, and it promotes nothing |
| Seeding.SeedCopiesLatest | internal/dataplane/transport.go:416-456 | a seeded destination has exactly the nodes of `latest` at that path, sharing inodes, and nothing from before (also nothing a nested source had transferred); the rest of the run is unchanged |
| Seeding.SeedStaysInPartial | internal/dataplane/transport.go:416-456 | seeding changes no snapshot and no file |
| Seeding.DestinationIff | internal/dataplane/transport.go:417-430 | a destination can be seeded iff its named segments are `.partial`, a run, and at least one more |
| Seeding.SeededIff | internal/dataplane/transport.go:442-456 | it is linked from `latest` iff that has a directory there, and made empty iff `latest` has nothing there, if no file is in the way |
| Seeding.SeedMakesEmpty | internal/dataplane/transport.go:453-456 | then the run has the directories down to the destination, and nothing below it |
| Seeding.FailedSeedEmpties | internal/dataplane/transport.go:439-452 | a seed that fails has removed what was staged below the destination, and changed nothing else |
| Seeding.LatestTreeIs | internal/dataplane/transport.go:431-431 | what is seeded from is the tree that `latest` leads to, or nothing if that is gone |
| SnapshotRuns.SnapshotsAreImmutable | internal/dataplane/snapshot.go:89-120 | over any disciplined run of seeding, transfers, store calls and crashes a snapshot shows the same contents until it is removed as a whole |
| SnapshotRuns.StepKeepsSnapshots | internal/dataplane/rsync.go:55-64 | no step rebinds a path of a snapshot or changes a known file, despite the sharing |
| SnapshotRuns.OpenTransferChangesSnapshot | internal/cli/cli.go:340-357 | if a run is promoted while a transfer into it is open, that transfer can change the snapshot: waiting for the receiver is needed |
| SnapshotRuns.LatestLeadsToSnapshot | internal/dataplane/snapshot.go:431-452 | in every reachable state `latest` is absent or a symlink to an hourly snapshot that is a directory if it exists |
| SnapshotRuns.VolumesStaySound | internal/dataplane/snapshot.go:45-120 | all this holds over any disciplined run from a new volume, whose trees also stay in folders |
| SpaceRecovery.FreedByRemoval | internal/dataplane/snapshot.go:408-414 | removing trees frees exactly the files that no remaining tree links |
| SpaceRecovery.SharedSnapshotFreesNothing | internal/dataplane/snapshot.go:408-414 | pruning a snapshot whose files are all linked elsewhere frees nothing |
| SpaceRecovery.OwnFileIsFreed | internal/dataplane/snapshot.go:408-414 | pruning a snapshot with one file of its own frees the space of that file |
| SpaceRecovery.RemovableSnapshots | internal/dataplane/snapshot.go:641-681 | exactly the snapshot directories of the four tiers, by modification time and then name |
| SpaceRecovery.Protect | internal/dataplane/snapshot.go:376-383 | the set of normalised protected names, or an error iff one is invalid |
| SpaceRecovery.PruneUntil | internal/dataplane/snapshot.go:388-405 | the loop removes unprotected candidates in order until enough space is free or none is left |
| SpaceRecovery.RecoverSpace | internal/dataplane/snapshot.go:368-406 | nothing is done if space suffices or an argument is bad; otherwise the victims are removed in order as far as needed, and reported |
| SpaceRecovery.RecoveryIsCalls | internal/dataplane/snapshot.go:389-405 | the removals are a sequence of the store's calls that promotes nothing and ends without exactly the victims |
| SpaceRecovery.RecoveredIsMinimal | internal/dataplane/snapshot.go:389-405 | success iff some prefix of the victims frees enough, and then the shortest such prefix was removed |
| SpaceRecovery.OldestGoFirst | internal/dataplane/snapshot.go:670-675 | everything removed was modified before every unprotected snapshot that survives, the path deciding between equal times; and the removals go in that order |
| SpaceRecovery.ProtectedSurvive | internal/dataplane/snapshot.go:389-405 | protected snapshots and everything that is not a snapshot survive; after a failure only protected snapshots are left |
| RestorePoints.LatestSnapshotTarget | internal/dataplane/snapshot.go:454-481 | the target of `latest`: normalised and existing, empty if absent or dangling, the newest hourly name if `latest` is no symlink |
| RestorePoints.ScanRestorePoints | internal/dataplane/snapshot.go:187-237 | the sorted, complete list of `latest` (iff it resolves) and all snapshot directories; an error iff `latest` or a tier cannot be read |
| RestorePoints.LatestFollowsTarget | internal/dataplane/snapshot.go:193-205 | `latest`, absent or leading to a snapshot, is reported iff that snapshot is there, and then that snapshot is reported too |
| RestorePoints.ScanAfterRecovery | internal/dataplane/snapshot.go:389-404 | after space recovery removed snapshots, `latest` is reported iff its target was there and not among them |
| RestorePoints.ControlRestorePoints | internal/cli/cli.go:466-486 | the event carries the scanned points, with the run's bytes, capped at the largest signed 64-bit number, on the new snapshot |
| RestorePoints.ReportScan | internal/controller/events.go:139-159 | a successful scan is recorded in the machine status as it was; a failed one leaves the status |
| RestorePoints.SnapshotCleanerAgrees | internal/controller/reconcilers.go:2236-2256 | the restore side's snapshot cleaner equals the data plane's normaliser on every input |
| RestorePoints.ResolveRestoreSnapshot | internal/controller/reconcilers.go:2196-2234 | the loops compute the resolution in both strategies, including the errors |
| RestorePoints.LatestResolvesToItsTarget | internal/controller/reconcilers.go:2221-2233 | against a recorded scan a request for `latest` yields the snapshot recorded, and fails iff that was missing or there was no `latest` |
| RestorePoints.ResolvedIsListed | internal/controller/reconcilers.go:2203-2233 | a success against a non-empty recorded status names a listed point, and a snapshot of the scanned volume iff it is not `latest` under another spelling |
| RestorePoints.OtherSpellingOfLatest | internal/controller/reconcilers.go:2206-2218 | against a recorded scan `./latest` is accepted as `latest`, unresolved, exactly when a plain request would be resolved |
| RestoreRequests.ScanOrder | internal/dataplane/snapshot.go:227-235 | `latest` comes first, if at all, and then the snapshots by strictly falling path |
| RestoreRequests.ScanIsNewestFirst | internal/dataplane/snapshot.go:227-235 | within a tier the snapshots of runs go from the newest period to the oldest |
| RestoreRequests.ScanLists | internal/dataplane/snapshot.go:194-226 | a snapshot of a run at time t is listed with its tier and the start of its period as creation time; `latest`, leading to an hourly one, with its very time |
| RestoreRequests.NothingElseIsListed | internal/dataplane/snapshot.go:204-226 | every other entry is a directory of its tier |
| RestoreRequests.DirectoryLatest | internal/dataplane/snapshot.go:454-481 | a `latest` that is a directory stands for the hourly snapshot with the greatest name |
| RestoreRequests.MirrorRequests | internal/controller/reconcilers.go:2196-2202 | with a mirror the empty request, `latest` and `current` mean `current`, whatever is listed, and others fail |
| RestoreRequests.NamedRequests | internal/controller/reconcilers.go:2206-2219 | a request by name succeeds iff its path is good and listed, or nothing is listed; it yields the normalised path |
| RestoreRequests.LatestRequests | internal/controller/reconcilers.go:2221-2233 | a request for `latest` succeeds iff the first entry of that name leads to a good path, which it yields |
| RestoreRequests.SnapshotsCanBeRequested | internal/controller/reconcilers.go:2206-2219 | after a recorded scan every snapshot of the volume can be asked for by its path |
| CommandService.Service.RegisterTarget | internal/control/service.go:47-70 | validation errors change nothing; otherwise a new stream replays the whole log and follows it |
| CommandService.Service.EnqueueTargetCommand | internal/control/service.go:147-175 | invalid commands and known ids change nothing; a new command goes to the log, and a producer holds it for every registered stream, each once, in some order |
| CommandService.Service.UnregisterTarget | internal/control/service.go:189-197 | the stream leaves its run and is no longer served |
| CommandService.Service.Deliver | internal/control/service.go:171-173 | one round of a producer's loop: the command goes to the first stream of its list, once that has room |
| CommandService.ForwardedPasses | internal/control/service.go:71-94 | forwarding neither loses nor reorders anything that a stream passes on, and takes from its channel only after the replay |
| CommandService.NextIsGood | internal/control/service.go:47-197 | exactly-once accounting is kept by every step in every interleaving |
| CommandService.CommandsArriveExactlyOnce | internal/control/service.go:47-197 | in every reachable state each live stream's received, held and in-flight commands are together the run's log, whose ids are unique |
| CommandService.ReceivedIsPrefix | internal/control/service.go:147-175 | with serialised enqueues a receiver always has a prefix of the log |
| CommandService.ReachableIsBounded | internal/control/service.go:47-94 | no channel ever holds more than 64 commands |
| CommandService.LogAfterStep | internal/control/service.go:147-175 | a command with a new id is added at the end of its log, one with a known id is not, and nothing else changes a log |
| CommandService.LogsGrow | internal/control/service.go:147-175 | over any run a log only grows |
| CommandService.ConcurrentEnqueuesReorder | internal/control/service.go:165-174 | when everything is in order, enqueueing a new command lets a next step break the order of a live stream iff some live stream of the run still waits for a command and has room |
| CommandService.ReorderingRun | internal/control/service.go:165-174 | two enqueues one after the other reach a state in which a stream passes on the second command without the first |
| CommandService.StuckIffBlocked | internal/control/service.go:147-175 | no step brings a live stream closer to its log iff it is idle and every producer with a command for it waits for a full channel; it has received the whole log iff nothing remains |
| CommandService.JamStarvesOthers | internal/control/service.go:165-173 | behind a producer that waits for the full channel of an ended stream, a live stream never receives the command, in any continuation |
| CommandService.StarvingRun | internal/control/service.go:147-175 | such a stream is reached with one command more than a channel holds |
| EventHub.Hub.Publish | internal/control/eventhub.go:207-254 | the next number, the trimmed replay of the run and one delivery for each subscriber; an invalid event changes nothing |
| EventHub.Hub.CloneEventsAfter | internal/control/eventhub.go:307-319 | the slice from the first later event is the filter by sequence number |
| EventHub.Hub.SnapshotAfter | internal/control/eventhub.go:93-105 | exactly the events above the given number among the last `limit` ones of the run |
| EventHub.Hub.SubscribeAfter | internal/control/eventhub.go:111-154 | the new subscriber is given the retained later events of its run and follows the run |
| EventHub.Hub.SubscribeAllAfter | internal/control/eventhub.go:160-205 | the new subscriber of all runs follows every run after its replay |
| EventHub.Hub.ReplayAll | internal/control/eventhub.go:169-175 | whatever the map order, the collected and sorted replay is the global log restricted to retained later events |
| EventHub.Hub.Unsubscribe | internal/control/eventhub.go:265-283 | the subscriber is gone, and a run's entry only if it retains nothing |
| EventHub.ReplayIsWindowOfLog | internal/control/eventhub.go:207-236 | in every reachable state a run's replay is exactly its last min(limit, n) published events, with rising numbers |
| EventHub.ReplayOfAllIsRestrictedLog | internal/control/eventhub.go:169-175 | the replay of all runs is sorted and has exactly the retained later events |
| EventHub.SubscriberStreamsAreSound | internal/control/eventhub.go:111-154 | with serialised publications a subscriber receives a strictly increasing part of the log, none twice; its queue is the newest part of what was delivered, and the latest event is never lost |
| EventHub.ReachableIsBounded | internal/control/eventhub.go:111-154 | no channel of a subscriber ever holds more than the buffer |
| EventOrder.ConcurrentPublicationsReorder | internal/control/eventhub.go:227-254 | a publication makes it possible that a live subscriber receives an event after a later one iff a delivery to a live subscriber of the run, or of all runs, has not ended yet |
| EventOrder.OvertakingRun | internal/control/eventhub.go:247-252 | with any limits, two publications one right after the other lead a new hub to such a state |
| EventHub.AttemptKeepsStep | internal/control/eventhub.go:285-297 | one attempt sends the event or drops only the oldest, keeping the stream in step |
| EventHub.DeliveriesEnd | internal/control/eventhub.go:285-297 | each attempt of any of the concurrent deliveries to a subscriber leaves fewer for all of them together, whatever it takes meanwhile |
| EventHub.Channel.DeliverLatest | internal/control/eventhub.go:285-297 | the loop ends with the channel holding the newest events, the new one last |
| Admission.NextIsExclusive | internal/controller/reconcilers.go:137-209 | every step keeps at most one active backup for each machine and none beside an active restore, under Forbid and Replace, as long as active restores have access to their machine |
| Admission.StartsIffAdmits | internal/controller/reconcilers.go:137-209 | a step makes a run active iff the checks of the admission pass, each on the state before it |
| Admission.ExclusionIsKeptIffSeen | internal/controller/reconcilers.go:137-209 | a step breaks exclusion iff it is the reconcile of a backup that is admitted by every check on the state before it (phase, finalizer, readiness, other runs, lookup of restores, creation) while a restore of the machine is active there |
| Admission.OverlookedHasNoAccess | internal/controller/reconcilers.go:2055-2085 | and then every such restore has lost its access |
| Admission.OverlookedRestoreRuns | internal/controller/reconcilers.go:528-547 | a run in which a restore loses its access while it is active, and a backup is started beside it |
| Admission.AdmittedIsExclusive | internal/controller/reconcilers.go:147-165 | cancelling for replacement, holding for restores and taking the guard leave no second active run, unless a restore is overlooked |
| Admission.ReachableIsExclusive | internal/controller/reconcilers.go:497-547 | so in every reachable state, if no active restore has lost its access on the way |
| Admission.MergeChainsGoBack | internal/controller/reconcilers.go:212-251 | merge chains go strictly back in creation time and name, so they have no cycle |
| Admission.AdmissionProgresses | internal/controller/reconcilers.go:144-174 | on a ready and idle machine with something waiting, some reconcile starts a run or makes one terminal |
| AdmissionPhases.PhaseOfBackup | internal/controller/reconcilers.go:137-209 | a pending backup with its finalizer ends in Failed iff no run set can be calculated or it is clear and its objects are rejected, in Canceled iff an earlier one waits, in Preparing iff the machine is clear and its objects are created; it is held as Pending iff the machine is not ready, another run may not be replaced, or a restore waits |
| AdmissionPhases.FirstBackupDisplaces | internal/controller/reconcilers.go:144-174 | the first pending backup merges the others into itself; on a ready machine under Replace the active run ends Canceled, and the guard lease is taken iff the machine is clear; nothing else changes |
| AdmissionPhases.LaterBackupIsMerged | internal/controller/reconcilers.go:212-251 | a later one is cancelled into the earliest created, the smaller name among equals, and nothing else changes |
| AdmissionPhases.OtherBackups | internal/controller/reconcilers.go:105-139 | a terminal backup gives up its leases, one without finalizer gets it, an active one changes nothing here |
| AdmissionPhases.PhaseOfRestore | internal/controller/reconcilers.go:1823-1900 | a pending restore with its finalizer ends in Failed iff it is not permitted or its objects are rejected, in Preparing iff the machine is clear and they are created; it is held as Pending iff the machine is not ready or a backup is active |
| AdmissionPhases.OtherRestores | internal/controller/reconcilers.go:1823-1832 | other restores get their finalizer, or are left alone |
| Reconcilers.ApiServer.CoalescePending | internal/controller/reconcilers.go:212-251 | finds the earliest pending run of the machine and, if that is the reconciled one, cancels all others into it |
| Reconcilers.ApiServer.FindActiveBackup | internal/controller/reconcilers.go:497-526 | another active run of the machine, or none iff there is none |
| Reconcilers.ApiServer.FindActiveRestore | internal/controller/reconcilers.go:528-547 | whether a restore that is not terminal, and has access, waits for or reads the machine |
| Reconcilers.ApiServer.Admit | internal/controller/reconcilers.go:147-209 | the checks and effects of an admission in the order of the code |
| Reconcilers.ApiServer.ReconcileBackup | internal/controller/reconcilers.go:85-210 | a backup reconcile is one step of the protocol, with all its effects |
| Reconcilers.ApiServer.ReconcileRestore | internal/controller/reconcilers.go:1815-1928 | a restore reconcile is one step of the protocol |
| RunPhases.ScanJobs | internal/controller/reconcilers.go:807-847 | the loop finds the first failed job, or whether the target and all source jobs are complete and how many there are |
| RunPhases.FinalizeOnlyWhenDone | internal/controller/reconcilers.go:848-954 | a reconcile sends finalize only when no job failed and every source job, one for each source at least, is complete; it sets Succeeded only after finalize was sent |
| RunPhases.NoEarlySuccess | internal/controller/reconcilers.go:1004-1062 | a succeeded run's target has reported completion, when it had received finalize and all expected transfers; before that, or before any promotion, every job was well and every source job complete; one service lifetime holds finalize at most once |
| RunOutcomes.PhaseOfRun | internal/controller/reconcilers.go:807-954 | a run with jobs ends Succeeded iff no job failed, every source has a complete job, the target job is complete and finalize was sent; Failed iff a job failed beyond recovery, the run set is needed and missing, or finalize is refused; and which phase it has in every other case |
| RunOutcomes.EffectsOfReconcile | internal/controller/reconcilers.go:865-954 | the log grows only by finalize and by ordered recoveries, once each; jobs change only by creating the missing ones and by a retry; the target is not touched |
| RunOutcomes.FinishedRunSucceeds | internal/controller/reconcilers.go:870-894 | once finalize was sent, the first reconcile that sees all jobs complete ends the run well, whatever lies between but a failed job |
| RunOutcomes.EventsThatMove | internal/controller/events.go:47-96 | besides reconciles only readiness, failure and completion of the target and a resume change the phase |
| RunOutcomes.EndIsFinal | internal/controller/reconcilers.go:773-794 | a run that has ended changes its phase only by a resume |
| ServeTarget.ServeReceiver | internal/dataplane/transport.go:133-165 | the counting loop is complete after the shortest part of the arrivals that covers every expected identity, and never before |
| ServeTarget.WaitForFinalize | internal/dataplane/controlclient.go:48-82 | returns the finalize command iff nothing before it ends the wait: an abort, a failed recovery, a missing payload, a closed or failed stream or the end of the context |
| ServeTarget.FinalizeOptions | internal/cli/cli.go:333-338 | run, root and retention from the command line; timestamp and sources from the finalize command where it gives them |
| ServeRuns.ProcessWaitsAlike | internal/dataplane/controlclient.go:48-82 | signal by signal, the process goes on to finalize, stops or waits exactly where the loop of the control client does |
| FinalizeCommand.FinalizeIsAccepted | internal/controller/reconcilers.go:1022-1062 | the service accepts the finalize command that the controller builds of any run with accepted sources, and a waiting target takes it |
| FinalizeCommand.FinalizeIsAsOrdered | internal/controller/reconcilers.go:1022-1062 | the target then finalizes its run under the time of the command with exactly the effective destinations of these sources |
| FinalizeCommand.TakenIff | internal/control/service.go:260-336 | which commands the service accepts, field by field |
| FinalizeCommand.TakenCommands | internal/control/service.go:260-336 | an accepted command never ends the wait of a target for want of a payload |
| ServeRuns.StepIsDisciplined | internal/cli/cli.go:340-357 | whatever the serving process does to its volume is a step of `SnapshotRuns` that promotes no run while a transfer is open |
| ServeRuns.PromotionsAreCovered | internal/cli/cli.go:264-398 | every promotion of every run comes after a finalize command, with the options it orders, when all expected sources have completed and no connection is being received |
| ServeRuns.ServedSnapshotsAreImmutable | internal/cli/cli.go:211-442 | over all runs of serving processes that receive, recover, finalize and end anywhere, a snapshot shows the same contents as long as it is there |
| ServeRuns.OnlyFinalizingChangesSnapshots | internal/cli/cli.go:264-357 | until it finalizes, a process adds or changes no snapshot and no top-level entry but `.partial`; it removes snapshots only to recover space, and none that the command protects |
| ServeRuns.FinalizingGoesOn | internal/dataplane/snapshot.go:45-120 | in every reachable state of finalizing, the next disk of its trace is one allowed directory call away |
| ServeRuns.ReportIsTrue | internal/cli/cli.go:398-431 | completion is reported iff finalizing from the disk left by all transfers and recoveries succeeded, and the volume is then what that leaves |
| ServeRuns.InterruptedFinalizeRestarts | internal/dataplane/snapshot.go:45-120 | wherever a process ends while it finalizes, finalizing again leads to the volume it would have left, if retention keeps the snapshot |
| ServeRuns.PromotedSnapshotIsWhole | internal/dataplane/transport.go:133-165 | with destinations apart, every promoted snapshot holds below each destination what that source's last successful transfer left, but for sources that began again without success |
| ServeRuns.WholeIffApart | internal/dataplane/transport.go:416-456 | for any expected destinations of a run, that is so in all runs iff none lies below another |
| ServeRuns.StrictlyWholeIffAlone | internal/dataplane/transport.go:133-165 | without the exception, it is so in all runs iff no second source is expected |
| ServeRuns.AcceptedRunsAreWhole | internal/controller/helpers.go:97-145 | the same from the accepted sources on: through arguments, receiver map, seeding, transfers and promotion, iff no effective destination lies below another |
| ServeRuns.NestedSourcesAreAccepted | internal/controller/helpers.go:208-269 | `a` and `a/b` of one namespace do not conflict, are served together, and lie below each other |
| ServeRuns.RunIDIsValid | internal/dataplane/snapshot.go:627-640 | the receiver accepts the run id that the controller makes of any valid run name |
| Destinations.RunIDsCoincide | internal/controller/builders.go:667-676 | two runs have one id iff they are the same, or one namespace goes on, behind a dash, with what the name of the other begins with; within a namespace ids are unique |
| Destinations.RunIDsMayCoincide | internal/controller/builders.go:667-676 | `b-c` in `a` and `c` in `a-b` are valid runs with one id |
| Completion.PromotingIffMissing | internal/dataplane/snapshot.go:66-92 | a successful finalize promotes iff the hourly snapshot was not there at its start |
| Completion.CompletionPromotesIffMissing | internal/cli/cli.go:398-431 | at a reported completion the process has promoted its run iff the hourly snapshot was not there when finalizing began; if retention keeps it, the snapshot is the old partial run, with apart destinations whole, or else the old snapshot, with the partial run left in place |
| Completion.PromotedByItself | internal/dataplane/snapshot.go:86-92 | a process counts as having promoted only after a promoting call of its own |
| Completion.CompletionWithoutPromotion | internal/dataplane/snapshot.go:78-84 | a run in which a completed source's file is not in the reported snapshot, after a process has ended behind its promotion |
| SystemRuns.SeenIsEnabled | internal/cli/cli.go:264-431 | every gate that the run protocol puts to its target is kept by the serving process |
| SystemRuns.NextAgrees | internal/control/service.go:71-94 | controller and process agree on what is expected, completed and received, in every step of both together |
| SystemRuns.PromotionsAreEarned | internal/controller/reconcilers.go:848-954 | a promotion or reported completion comes after the controller has seen all jobs complete, each after a transfer of its source, and has sent finalize, and when the process has received it and all expected transfers |
| GatedRuns.WholeIffApart | internal/controller/reconcilers.go:848-954 | under the controller, too, promoted snapshots are whole but for sources that began again iff no destination lies below another |
| GatedRuns.StrictlyWholeIffAlone | internal/controller/reconcilers.go:848-954 | and without exception iff no second source is expected: the gate does not rule out the failing run |
| GatedRuns.CompletionWithoutPromotion | internal/controller/reconcilers.go:848-954 | nor the completion without promotion |
| ReachableVolumes.ServedIsUsable | internal/dataplane/snapshot.go:431-452 | every volume that serving processes leave has its trees in folders and nothing else at the top but `latest`, which leads to an hourly snapshot |
| ReachableVolumes.ScanSucceeds | internal/dataplane/snapshot.go:187-237 | the scan of such a volume does not fail |
| ReachableVolumes.ServedLatestResolves | internal/controller/reconcilers.go:2221-2233 | against the recorded scan of such a volume a request for `latest` yields an hourly snapshot that is there, or fails if there is none to which `latest` leads |
| ServeTarget.PromotedTreeIsWhole | internal/dataplane/snapshot.go:78-98 | every source that a successful run was finalized with is a node of the promoted tree, and if retention keeps the snapshot also at the end |
| ServeTarget.LackingSourceFails | internal/dataplane/snapshot.go:69-77 | a staged run that lacks a source is not promoted, and nothing is changed |
| Schedule.NextDueSchedule | internal/controller/reconcilers.go:2662-2683 | the fire after the last one, or at first the greatest fire of the last day or since creation, if it is not in the future; the loop bound is never reached |
| Schedule.NeitherSkipsNorRepeats | internal/controller/reconcilers.go:2598-2623 | recorded times are consecutive fires, never in the future, with exactly the fires between the first and the last having a job |
| Schedule.NamesAreMinutes | internal/controller/builders.go:653-657 | two scheduled names are equal iff the labels of the machines are and the times lie in the same minute |
| Schedule.ScheduledNameIsLabel | internal/controller/builders.go:653-657 | every scheduled name is a DNS label |
| Schedule.MachinesShareNames | internal/controller/builders.go:653-657 | jobs of two machines at one time share their name iff the plain forms of the machines' names are the same, if these fit |
| Schedule.DottedNamesAreShared | internal/controller/builders.go:746-765 | machines `a.b` and `a-b` share their names |
| Labels.DnsLabelMax | internal/controller/builders.go:746-779 | the loop over the characters, the trimming and the digest make the specified label |
| Labels.LabelIsNeat | internal/controller/builders.go:746-779 | labels fit, have single dashes between letters and digits, and are DNS labels |
| Labels.LabelIffFixed | internal/controller/builders.go:746-779 | a value is its own label iff it has that form and fits |
| Labels.LabelsCoincide | internal/controller/builders.go:746-779 | values that fit share a label iff their plain forms are the same; longer ones iff digests and trimmed beginnings are |
| Labels.AlikeValues | internal/controller/builders.go:746-764 | upper and lower case, and all characters that separate, are not told apart |
| Labels.SeparatorsCollapse | internal/controller/builders.go:746-764 | any number of separators is one dash |
| Labels.SeparatorsAtEnds | internal/controller/builders.go:761-764 | separators at the ends do not count; nothing else gives `krm` |
| Schedule.FiresHaveOwnNames | internal/controller/builders.go:653-657 | different fires of a machine's schedule have different names, so that repeating a lost reconcile finds its job |
| Schedule.RequeueAfter | internal/controller/reconcilers.go:2685-2697 | the delay lies in (0, 10 minutes], ends at the next fire if that is within reach, and is 10 minutes without one |
| Sse.ParseSseEvent | frontend/src/App.tsx:1010-1034 | the line loop folds the fields of a chunk into an event, or none without data |
| Sse.DrainBuffer | frontend/src/App.tsx:993-1000 | the inner loop takes all events up to the last blank line and keeps the rest |
| Sse.ReadSseStream | frontend/src/App.tsx:984-1008 | whatever the chunks, with any line ends, the reader delivers the events of the whole normalised text |
| Sse.DrainAppend | frontend/src/App.tsx:992-1000 | draining what is left together with more text is draining all of it |
| Sse.FramesRoundTrip | internal/liveapi/server.go:210-227 | the reader delivers every written frame once, in order, with its id, event and data |
| Sse.AnyChunksRoundTrip | internal/liveapi/server.go:210-227 | the same for any chunks of the written text |
| Sse.NormalizeChunks | frontend/src/App.tsx:980-982 | normalising two chunks one by one is normalising them together iff no CRLF is split between them |
| Sse.IdRoundTrip | internal/liveapi/server.go:556-569 | the id read last, sent back as `Last-Event-ID`, parses to the event's sequence number, up to 64 bits |
| Sse.PrefixDelivers | frontend/src/App.tsx:984-1008 | for every prefix of a written stream: the whole frames are delivered, and one event more iff the rest has reached the field name of its data line; all that is delivered was written iff it has not or lacks no data |
| Sse.TornFrameIsDelivered | frontend/src/App.tsx:1001-1004 | a stream cut inside the data of a frame delivers the torn frame as an event |
| SseFields.EventOfFields | frontend/src/App.tsx:1010-1034 | for any lines an event has the last `id` and `event` and all `data` in order, and there is none without `data`; comments and other fields do not count |
| SseFields.LineEnds | frontend/src/App.tsx:980-982 | LF, CRLF and CR each become one LF |
| SseFields.FrameText | internal/liveapi/server.go:210-227 | the text of a frame on the wire, line by line |
| SseFields.LastEventID | internal/liveapi/server.go:556-569 | the header counts unless blank, then the query, then 0; spaces around a number do not count, and it fails from 2^64 on |

## Left out

- Calendar.ParseTimeExact: Go's `time.Parse` also accepts one-digit hours and fractional seconds in this layout; the model parses the fixed-width form that the controller writes.
- SnapshotNames.NamesFollowTime: years 1 to 9999; in year 0 the week start can lie in year -1, whose text sorts differently.
- FinalizeRestart.RestartAfterAnyStep: `linkTree`, `RemoveAll` and `rename` are single steps; a crash inside `linkTree` leaves a partial tier directory that the existence test accepts.
- SnapshotRuns.SnapshotsAreImmutable: contents only; mode, owner and times of shared inodes and special files are not modelled, and a transfer is any sequence of rsync's effects without `--inplace`.
- SnapshotStore.Target.FinalizeBackup: symlinks other than `latest` are not followed, so a symlink in place of a tier directory or inside a snapshot counts as an unreadable or existing node; input/output errors of directory calls that can succeed are not modelled.
- SpaceRecovery.RecoverSpace: free space is the capacity minus the space of linked files; directories, other users of the volume and the block rounding of `statfs` are not counted.
- EventHub.Hub.Publish: sequence numbers are unbounded (uint64 in the code), the publication time is not kept, and the payload is opaque.
- EventHub.SubscriberStreamsAreSound: for serialised publications; what happens otherwise is `EventOrder.ConcurrentPublicationsReorder`.
- RunPhases.NoEarlySuccess: runs with a control service; without one, Succeeded follows the jobs alone. The controller also knows a `Finalizing` event, which no target sends.
- RunPhases.ScanJobs: the source status updates and metrics inside the loop are not modelled, and the recovery of a failed source job is an input.
- RestorePoints.ControlRestorePoints: creation times pass through RFC 3339 text in the event; the model keeps the time.
- Admission.NextIsExclusive: deletion timestamps, failed status writes, stale caches, late events and the resume of failed runs are not part of the admission model; backups whose machine does not resolve are not either.
- Reconcilers.ApiServer.ReconcileBackup: deletion, resume and the job status of an active run are not in this method; the latter is `RunPhases.ScanJobs` and the events of the protocol.
- Reconcilers.ApiServer.ReconcileRestore: deletion and the job status of an active restore are not in this method.
- RunSet.DetectDestinationPathConflicts: for one machine, which is how it is called; the code takes a list of machines and its keys keep them apart.
- EventHub.Channel.DeliverLatest: no consumer takes from the channel during the method; the interleaved attempts are the steps of `EventHub.AttemptKeepsStep`.
- ServeRuns.ServedSnapshotsAreImmutable: for the Snapshot strategy with a control service; a Mirror run has no snapshots, and without a control service the receiver is waited for before anything else.
- ServeRuns.ReportIsTrue: which victims a recovery chooses while transfers go on is left open; each removed snapshot is one that the command does not protect.
- ServeRuns.InterruptedFinalizeRestarts: one way, as `FinalizeRestart.RestartableIffKept` gives both.
- Schedule.NextDueSchedule: the cron library is a function that gives the least later fire, with gaps of at least a minute; a schedule that never fires again occurs in `Schedule.RequeueAfter` only.
- Schedule.NeitherSkipsNorRepeats: for one machine; a job that another machine has created under a shared name (`Schedule.MachinesShareNames`) would be taken for its own.
- Labels.DnsLabelMax: SHA-256 is a parameter, and only ASCII letters are lowered, as Kubernetes names have no others.
- Sse.ReadSseStream: text already decoded from UTF-8, by a reader that is not aborted.
- Seeding.SeedCopiesLatest: a `latest` that is a real directory is not used as a seed.
- CommandService.StuckIffBlocked: a goroutine that has seen the end of its context and has not unregistered yet counts as live.
- Kubernetes plumbing, TLS, gRPC, the rsync daemon, pod building, metrics, the rest of the web page, the HTTP routes and the reference generator: library calls or presentation.
- Stale partial runs: `CleanupStalePartials` has no caller; its effect is one of the store's calls.
