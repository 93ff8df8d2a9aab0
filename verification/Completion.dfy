/** What a reported completion means for the snapshot (internal/cli/cli.go, internal/dataplane/snapshot.go): finalizing
    succeeds also over an hourly snapshot of the same name that is already there, and then promotes nothing. */
module Completion {
  import opened Wrappers
  import opened Paths
  import opened Calendar
  import opened Destinations
  import opened Commands
  import opened Volume
  import opened SnapshotStore
  import opened StoreCalls
  import opened Seeding
  import opened ServeRuns
  import FinalizeRestart
  import Runs = SnapshotRuns
  import ServeTarget

  /** The branch of `FinalizeBackup` that promotes: the partial run is complete, and there is no snapshot of its
      name. */
  ghost predicate Promoting(d: Disk, opts: Options) {
    FinalizeRestart.ValidArguments(opts) && StatRoot(d, PartialRoot(opts)) == Present(true)
    && SourcesPresent(d, PartialRoot(opts), opts.sources) && StatRoot(d, HourlyRoot(opts)) == Missing
  }

  lemma PromotingTrace(d: Disk, opts: Options)
    requires Promoting(d, opts)
    ensures var trace, d1 := Finalize(d, opts).trace, MakeFolder(d, HOURLY);
      PartialRoot(opts) in d.trees && PartialRoot(opts) in d1.trees && |trace| >= 2 && trace[0] == d1
      && trace[1] == MoveTree(d1, PartialRoot(opts), HourlyRoot(opts))
  {
    DirsDiffer();
    hide ParseTime, ValidRunID, Promoted, SourcesPresent;
    assert Finalize(d, opts) == PromotedPartial(d, opts);
  }

  /** Otherwise finalizing, with or without success, makes no promotion. */
  lemma OtherwiseNoPromotion(d: Disk, opts: Options)
    requires InFolders(d) && !Promoting(d, opts)
    ensures Calls(d, Finalize(d, opts).trace, {})
  {
    hide ParseTime, ValidRunID, Promoted, SourcesPresent, Calls;
    NoCalls(d, {});
    if FinalizeRestart.ValidArguments(opts) {
      PromotedIsCalls(d, opts, {});
    }
  }

  /** A successful finalize promotes iff the hourly snapshot was not there. */
  lemma PromotingIffMissing(d: Disk, opts: Options)
    requires InFolders(d) && Finalize(d, opts).points.Some?
    ensures Promoting(d, opts) <==> HourlyRoot(opts) !in d.trees
  {
    hide ParseTime, ValidRunID, SourcesPresent, Finalize, FinalizeRestart.Final;
    FinalizeRestart.FinalizeIffStartable(d, opts);
  }

  // ---------------------------------------------------------------- single calls

  /** Only a promotion takes a partial run away. */
  lemma CallKeepsPartial(d: Disk, call: Call, r: Root)
    requires Makes(d, call, {}) && r.dir == PARTIAL
    ensures r in Apply(d, call).trees <==> r in d.trees
    ensures r in d.trees ==> Apply(d, call).trees[r] == d.trees[r]
  {
    hide ParseTime;
    DirsDiffer();
  }

  lemma {:induction false} CallsKeepPartial(d: Disk, trace: seq<Disk>, n: nat, r: Root)
    requires Calls(d, trace, {}) && n <= |trace| && r.dir == PARTIAL
    ensures var e := After(d, trace[..n]);
      (r in e.trees <==> r in d.trees) && (r in d.trees ==> e.trees[r] == d.trees[r])
  {
    if n > 0 {
      CallsKeepPartial(d, trace, n - 1, r);
      var s := After(d, trace[..n - 1]);
      assert IsCall(s, trace[n - 1], {});
      hide Calls, Makes, Apply;
      var call :| Makes(s, call, {}) && trace[n - 1] == Apply(s, call);
      CallKeepsPartial(s, call, r);
      assert trace[..n][n - 1] == trace[n - 1];
    }
  }

  /** Only a promotion adds an hourly snapshot, and it takes its partial run away. */
  lemma PromotionMoves(d: Disk, call: Call, opts: Options)
    requires Makes(d, call, OwnPromotion(opts))
    ensures HourlyRoot(opts) !in d.trees && HourlyRoot(opts) in Apply(d, call).trees ==> call.Promote?
    ensures call.Promote? ==> PartialRoot(opts) in d.trees && PartialRoot(opts) !in Apply(d, call).trees
  {
    hide ParseTime;
    DirsDiffer();
  }

  // ---------------------------------------------------------------- the invariant

  /** Whether the process has promoted follows from the disk it began on and the calls it has made. */
  ghost predicate PromotionKnown(s: State) {
    s.server.Some? ==>
      var v := s.server.value;
      (v.phase.Waiting? || v.phase.Recovering? || v.phase.Joining? ==> !v.promoted)
      && (v.phase.Finalizing? ==> FinalizingKnown(s.volume.disk, v))
  }

  ghost predicate FinalizingKnown(d: Disk, v: Server)
    requires v.phase.Finalizing?
  {
    MadePromotion(v.phase.start, v.phase.finalOpts, v.phase.done, d, v.promoted)
    && HeldAtStart(v.phase.start, v.phase.finalOpts, v)
  }

  ghost predicate MadePromotion(start: Disk, opts: Options, done: nat, d: Disk, promoted: bool) {
    (promoted <==> Promoting(start, opts) && done >= 2) && (promoted ==> PartialRoot(opts) !in d.trees)
  }

  ghost predicate HeldAtStart(start: Disk, opts: Options, v: Server) {
    Apart(v.expected) && PartialRoot(opts) in start.trees ==> Holds(TreeAt(start, PartialRoot(opts)), v)
  }

  lemma MakePromotes(start: Disk, opts: Options, done: nat, d: Disk, call: Call)
    requires InFolders(start) && done < |Finalize(start, opts).trace|
    requires d == After(start, Finalize(start, opts).trace[..done])
    requires Makes(d, call, OwnPromotion(opts)) && Apply(d, call) == Finalize(start, opts).trace[done]
    requires Promoting(start, opts) && done >= 2 ==> PartialRoot(opts) !in d.trees
    ensures call.Promote? <==> Promoting(start, opts) && done == 1
  {
    DirsDiffer();
    var trace := Finalize(start, opts).trace;
    PromotionMoves(d, call, opts);
    if Promoting(start, opts) {
      PromotingTrace(start, opts);
      hide Finalize, Promoting, Makes, Apply;
      if done == 1 { assert trace[..1][0] == trace[0]; }
    } else {
      OtherwiseNoPromotion(start, opts);
      assert IsCall(d, trace[done], {});
      var other :| Makes(d, other, {}) && trace[done] == Apply(d, other);
      CallKeepsPartial(d, other, PartialRoot(opts));
      hide Finalize, Promoting, Makes, Apply;
    }
  }

  lemma MakeKnows(start: Disk, opts: Options, done: nat, d: Disk, call: Call, promoted: bool)
    requires InFolders(start) && done < |Finalize(start, opts).trace|
    requires d == After(start, Finalize(start, opts).trace[..done])
    requires Makes(d, call, OwnPromotion(opts)) && Apply(d, call) == Finalize(start, opts).trace[done]
    requires MadePromotion(start, opts, done, d, promoted)
    ensures MadePromotion(start, opts, done + 1, Apply(d, call), promoted || call.Promote?)
  {
    MakePromotes(start, opts, done, d, call);
    PromotionMoves(d, call, opts);
    hide Finalize, Promoting, Makes, Apply;
    if PartialRoot(opts) in Apply(d, call).trees {
      MakeKeepsPartial(d, call, OwnPromotion(opts), PartialRoot(opts));
    }
  }

  lemma MakeKeepsKnown(s: State, call: Call)
    requires Serving(s) && PromotionKnown(s) && Enabled(s, Make(call))
    ensures PromotionKnown(Next(s, Make(call)))
  {
    hide Finalize, Promoting, Runs.Sound, Served, ServeTarget.Ordered, Makes, Apply, Holds, Apart, MadePromotion;
    var v, d := s.server.value, s.volume.disk;
    MakeKnows(v.phase.start, v.phase.finalOpts, v.phase.done, d, call, v.promoted);
    MadeIsAllowed(d, call, OwnPromotion(v.phase.finalOpts));
    var w := Next(s, Make(call)).server.value;
    SameHolds(TreeAt(v.phase.start, PartialRoot(v.phase.finalOpts)), v, w);
  }

  lemma SameHolds(tree: Tree, v: Server, w: Server)
    requires w.left == v.left && w.expected == v.expected && w.torn == v.torn
    ensures Holds(tree, w) == Holds(tree, v)
  {
    assert forall n :: HoldsOf(tree, w, n) == HoldsOf(tree, v, n);
  }

  lemma JoinKnows(s: State, finalOpts: Options)
    requires Serving(s) && KeepsLeft(s) && PromotionKnown(s) && Enabled(s, Join(finalOpts))
    ensures PromotionKnown(Next(s, Join(finalOpts)))
  {
    hide Finalize, Promoting, Runs.Sound, Served, Apart, Holds, HoldsOf;
    var v, w := s.server.value, Next(s, Join(finalOpts)).server.value;
    SameHolds(TreeAt(s.volume.disk, PartialRoot(finalOpts)), v, w);
  }

  lemma OtherKeepsKnown(s: State, step: Step)
    requires Serving(s) && PromotionKnown(s) && Enabled(s, step) && !step.Make? && !step.Join?
    ensures PromotionKnown(Next(s, step))
  {
    hide Finalize, Promoting, Runs.Sound, Served, ServeTarget.Ordered, Apart, Holds, Seed, ReceiveCheck,
      Runs.Transferred;
  }

  lemma StepKeepsKnown(s: State, step: Step)
    requires Serving(s) && KeepsLeft(s) && PromotionKnown(s) && Enabled(s, step)
    ensures PromotionKnown(Next(s, step))
  {
    hide PromotionKnown, KeepsLeft, Serving, Enabled, Next;
    match step
    case Make(call) => MakeKeepsKnown(s, call);
    case Join(finalOpts) => JoinKnows(s, finalOpts);
    case _ => OtherKeepsKnown(s, step);
  }

  lemma {:induction false} RunKnowsPromotion(run: Run, i: nat)
    requires Valid(run) && i < |run.states|
    ensures PromotionKnown(run.states[i])
  {
    if i > 0 {
      hide PromotionKnown, Serving, KeepsLeft;
      RunKnowsPromotion(run, i - 1);
      RunIsServing(run, i - 1);
      RunKeepsLeft(run, i - 1);
      assert StepOf(run.states[i - 1], run.steps[i - 1], run.states[i]);
      hide Enabled, Next, Attached;
      StepKeepsKnown(run.states[i - 1], run.steps[i - 1]);
    }
  }

  // ---------------------------------------------------------------- what completion means

  /** The step reports a successful finalize. */
  ghost predicate Completes(s: State, step: Step) {
    Attached(s) && step.Report? && s.server.Some? && s.server.value.phase.Finalizing? && Enabled(s, step)
    && Finalize(s.server.value.phase.start, s.server.value.phase.finalOpts).points.Some?
  }

  /** The finalized snapshot holds, below each destination, what that source's last successful transfer left, but for
      sources that have begun again. */
  ghost predicate HoldsLeft(s: State)
    requires s.server.Some? && s.server.value.phase.Finalizing?
  {
    var v := s.server.value;
    forall n :: n in v.expected && n !in v.torn ==> HoldsOf(TreeAt(s.volume.disk, HourlyRoot(v.phase.finalOpts)), v, n)
  }

  lemma SnapshotIsThatOf(start: Disk, opts: Options)
    requires InFolders(start) && Finalize(start, opts).points.Some? && FinalizeRestart.HourlyKept(start, opts)
    ensures var e, hourly := Finalized(start, opts), HourlyRoot(opts);
      var from := if Promoting(start, opts) then PartialRoot(opts) else hourly;
      hourly in e.trees && from in start.trees && e.trees[hourly] == start.trees[from]
  {
    hide ParseTime, ValidRunID, SourcesPresent, Finalize, FinalizeRestart.Final, FinalizeRestart.HourlyKept;
    FinalizeRestart.FinalizeIffStartable(start, opts);
    FinalizeRestart.KeptIffSurvives(start, opts);
    FinalizeRestart.BaseInFolders(start, opts);
    ServeTarget.KeptTree(FinalizeRestart.Base(start, opts), opts);
  }

  /** What finalizing has left when it succeeded: promoted iff the hourly snapshot was not there when it began. */
  ghost predicate CompletionIs(start: Disk, opts: Options, d: Disk, promoted: bool) {
    d == Finalized(start, opts) && (promoted <==> HourlyRoot(opts) !in start.trees)
    && (FinalizeRestart.HourlyKept(start, opts) ==>
          var from := if promoted then PartialRoot(opts) else HourlyRoot(opts);
          HourlyRoot(opts) in d.trees && from in start.trees && d.trees[HourlyRoot(opts)] == start.trees[from])
    && (!promoted && PartialRoot(opts) in start.trees ==>
          PartialRoot(opts) in d.trees && d.trees[PartialRoot(opts)] == start.trees[PartialRoot(opts)])
  }

  lemma FinalizedIsCompletion(start: Disk, opts: Options, promoted: bool)
    requires InFolders(start) && Finalize(start, opts).points.Some?
    requires promoted <==> Promoting(start, opts) && |Finalize(start, opts).trace| >= 2
    ensures CompletionIs(start, opts, Finalized(start, opts), promoted)
  {
    hide Finalize, FinalizeRestart.HourlyKept, Promoting;
    PromotingIffMissing(start, opts);
    if FinalizeRestart.HourlyKept(start, opts) { SnapshotIsThatOf(start, opts); }
    if Promoting(start, opts) {
      PromotingTrace(start, opts);
    } else {
      OtherwiseNoPromotion(start, opts);
      var trace := Finalize(start, opts).trace;
      CallsKeepPartial(start, trace, |trace|, PartialRoot(opts));
      assert trace[..|trace|] == trace;
    }
  }

  /** At a reported completion the process has promoted its run iff the hourly snapshot was not there when it began to
      finalize. Then that snapshot, if retention keeps it, holds what the sources left, with destinations apart.
      Otherwise it is the one that was there, and the partial run with all that the sources left stays where it is. */
  lemma CompletionPromotesIffMissing(run: Run, i: nat)
    requires Valid(run) && i < |run.steps| && Completes(run.states[i], run.steps[i])
    ensures var s, v := run.states[i], run.states[i].server.value;
      CompletionIs(v.phase.start, v.phase.finalOpts, s.volume.disk, v.promoted)
      && (v.promoted && FinalizeRestart.HourlyKept(v.phase.start, v.phase.finalOpts) && Apart(v.expected) ==>
          HoldsLeft(s))
  {
    hide Serving, KeepsLeft, PromotionKnown, CompletionIs, HoldsLeft, Enabled, Attached, Finalize,
      FinalizeRestart.HourlyKept;
    RunIsServing(run, i);
    RunKeepsLeft(run, i);
    RunKnowsPromotion(run, i);
    CompletedKnown(run.states[i], run.steps[i]);
  }

  lemma CompletedKnown(s: State, step: Step)
    requires Serving(s) && KeepsLeft(s) && PromotionKnown(s) && Completes(s, step)
    ensures var v := s.server.value;
      CompletionIs(v.phase.start, v.phase.finalOpts, s.volume.disk, v.promoted)
      && (v.promoted && FinalizeRestart.HourlyKept(v.phase.start, v.phase.finalOpts) && Apart(v.expected) ==>
          HoldsLeft(s))
  {
    hide Finalize, FinalizeRestart.HourlyKept, Runs.Sound, Served, HoldsOf, Apart, Promoting, ServeTarget.Ordered;
    FinalizingIsCovered(s);
    var v := s.server.value;
    var trace := Finalize(v.phase.start, v.phase.finalOpts).trace;
    assert trace[..|trace|] == trace;
    FinalizedIsCompletion(v.phase.start, v.phase.finalOpts, v.promoted);
  }

  /** A process has promoted only by a call of its own. */
  lemma {:induction false} PromotedByItself(run: Run, i: nat) returns (j: nat)
    requires Valid(run) && i < |run.states| && run.states[i].server.Some? && run.states[i].server.value.promoted
    ensures j < i && run.steps[j].Make? && run.steps[j].call.Promote?
    ensures forall k :: j <= k <= i ==> run.states[k].server.Some?
  {
    hide Serving, Enabled, Finalize, Seed, ReceiveCheck;
    assert i > 0;
    var s, step := run.states[i - 1], run.steps[i - 1];
    assert StepOf(s, step, run.states[i]);
    if step.Make? && step.call.Promote? {
      j := i - 1;
      StepHasServer(s, step);
    } else {
      OnlyMakePromotes(s, step);
      j := PromotedByItself(run, i - 1);
    }
  }

  lemma StepHasServer(s: State, step: Step)
    requires Enabled(s, step) && !step.Start?
    ensures s.server.Some?
  {
  }

  lemma OnlyMakePromotes(s: State, step: Step)
    requires Attached(s) && Enabled(s, step) && Next(s, step).server.Some? && Next(s, step).server.value.promoted
    requires !(step.Make? && step.call.Promote?)
    ensures s.server.Some? && s.server.value.promoted
  {
    hide Finalize, Seed, ReceiveCheck, Served, Runs.Transferred;
  }

  // ---------------------------------------------------------------- completion without promotion

  lemma ReachedIsKnown(s: State)
    requires Reachable(s)
    ensures Serving(s) && PromotionKnown(s)
  {
    hide Serving, PromotionKnown;
    var run :| Valid(run) && run.states[|run.steps|] == s;
    RunIsServing(run, |run.steps|);
    RunKnowsPromotion(run, |run.steps|);
  }

  /** How many calls a finalizing process has still to make. */
  ghost function CallsLeft(phase: Phase): int
    requires phase.Finalizing?
  {
    |Finalize(phase.start, phase.finalOpts).trace| - phase.done
  }

  lemma MakeOne(s: State, expected: map<Name, string>) returns (n: State)
    requires PlainlyReached(s, expected) && s.server.Some? && s.server.value.phase.Finalizing?
    requires CallsLeft(s.server.value.phase) > 0
    ensures PlainlyReached(n, expected) && n.server.Some?
    ensures var v, w := s.server.value, n.server.value;
      w == v.(phase := v.phase.(done := v.phase.done + 1), promoted := w.promoted)
  {
    hide PlainlyReached, Finalize, Runs.Sound, ServerSound, Makes, Apply;
    PlainIsServing(s, expected);
    FinalizingGoesOn(s);
    var call :| Enabled(s, Make(call));
    PlainStepReaches(s, Make(call), expected);
    n := Next(s, Make(call));
  }

  /** A finalizing process can make its calls to the end. */
  lemma {:induction false} MakeAll(s: State, expected: map<Name, string>) returns (n: State)
    requires PlainlyReached(s, expected) && s.server.Some? && s.server.value.phase.Finalizing?
    requires CallsLeft(s.server.value.phase) >= 0
    ensures PlainlyReached(n, expected) && n.server.Some?
    ensures var v, w := s.server.value, n.server.value;
      w == v.(phase := v.phase.(done := |Finalize(v.phase.start, v.phase.finalOpts).trace|), promoted := w.promoted)
    decreases CallsLeft(s.server.value.phase)
  {
    hide PlainlyReached, Finalize;
    if CallsLeft(s.server.value.phase) == 0 {
      n := s;
    } else {
      var next := MakeOne(s, expected);
      n := MakeAll(next, expected);
    }
  }

  /** A first process receives a source that leaves nothing, promotes the run, and ends before it points `latest` to
      it. */
  lemma PromoteAndEnd(opts: Options, expected: map<Name, string>, m: Name, t: Timestamp) returns (n: State)
    requires Served(opts.runID, expected) && expected.Keys == {m}
    requires ValidTime(t) && ValidRunID(opts.runID)
    requires opts == Options("/target", opts.runID, FormatTime(t), [], opts.retention)
    ensures PlainlyReached(n, expected) && n.server.None?
    ensures var d := n.volume.disk;
      d.tops == map[PARTIAL := Folder, HOURLY := Folder] && d.trees.Keys == {HourlyRoot(opts)} && d.files == map[]
      && AllDirs(d.trees[HourlyRoot(opts)]) && [] in d.trees[HourlyRoot(opts)]
  {
    hide FormatTime, ParseTime, ValidRunID, Finalize, PlainlyReached, PathOf;
    var received := ReceiveNothing(opts, expected, m);
    var told := CommandComes(received, expected, FinalizePayload(opts.timestamp, [], 0));
    var begun := FinalizeBegins(told, opts, expected, t);
    n := EndAfterPromotion(begun, received.volume.disk, opts, expected, t);
  }

  lemma ReceiveNothing(opts: Options, expected: map<Name, string>, m: Name) returns (n: State)
    requires Served(opts.runID, expected) && expected.Keys == {m}
    ensures PlainlyReached(n, expected) && n.server.Some? && Staged(n.volume.disk, opts.runID)
    ensures n.volume.disk.files == map[]
    ensures var v := n.server.value;
      v.opts == opts && v.expected == expected && v.completed == {m} && v.receiving.None? && v.receiver.Listening?
      && v.phase.Waiting?
      && v.consumed == []
  {
    DirsDiffer();
    hide PlainlyReached, Seed, Destination, NormalizeTargetSubpath;
    NewIsPlainlyReached(expected);
    InitiallyServing();
    PlainStepReaches(NEW, Start(opts, expected), expected);
    var s := Next(NEW, Start(opts, expected));
    SeedOfDirs(s.volume.disk, expected[m], opts.runID, PathOf(expected, m));
    PlainIsReachable(s, expected);
    SomeAreMissing(s, m);
    hide Next, Enabled;
    var accepted := AcceptOne(s, opts, expected, m);
    n := FinishOne(accepted, expected, m, true);
  }

  lemma EndAfterPromotion(s: State, d: Disk, opts: Options, expected: map<Name, string>, t: Timestamp)
    returns (n: State)
    requires PlainlyReached(s, expected) && s.server.Some? && s.volume == Runs.State(MakeFolder(d, HOURLY), map[])
    requires Staged(d, opts.runID)
    requires ValidTime(t) && ValidRunID(opts.runID)
    requires opts == Options("/target", opts.runID, FormatTime(t), [], opts.retention)
    requires s.server.value.receiving.None? && s.server.value.phase == Finalizing(opts, d, 1)
    ensures PlainlyReached(n, expected) && n.server.None?
    ensures n.volume.disk == MoveTree(MakeFolder(d, HOURLY), PartialRoot(opts), HourlyRoot(opts))
  {
    DirsDiffer();
    hide FormatTime, ParseTime, ValidRunID, Finalize, PlainlyReached, PathOf;
    var call := Promote(opts.runID, opts.timestamp);
    FinalizeStarts(d, opts, t);
    assert Makes(s.volume.disk, call, OwnPromotion(opts));
    PlainStepReaches(s, Make(call), expected);
    var promoted := Next(s, Make(call));
    PlainStepReaches(promoted, Exit, expected);
    n := Next(promoted, Exit);
  }

  /** A second process with the same orders receives the source again, and it leaves a file. */
  lemma ReceiveAgain(s: State, opts: Options, expected: map<Name, string>, m: Name) returns (n: State)
    requires Served(opts.runID, expected) && expected.Keys == {m} && PlainlyReached(s, expected) && s.server.None?
    requires var d := s.volume.disk;
      d.tops == map[PARTIAL := Folder, HOURLY := Folder] && d.trees.Keys == {HourlyRoot(opts)} && d.files == map[]
    ensures PlainlyReached(n, expected) && n.server.Some?
    ensures var v, path := n.server.value, PathOf(expected, m) + ["file"];
      v.opts == opts && v.expected == expected && v.completed == {m} && v.receiving.None? && v.receiver.Listening?
      && v.phase.Waiting?
      && v.consumed == []
      && v.torn == {} && m in v.left && path in v.left[m] && v.left[m][path].File?
    ensures var d, e, partial := s.volume.disk, n.volume.disk, PartialRoot(opts);
      e.tops == d.tops && partial in e.trees && e.trees == d.trees[partial := e.trees[partial]] && IsTree(e, partial)
  {
    DirsDiffer();
    hide PlainlyReached, Seed, Destination, NormalizeTargetSubpath;
    PlainIsServing(s, expected);
    PlainStepReaches(s, Start(opts, expected), expected);
    var started := Next(s, Start(opts, expected));
    SeedOfDirs(started.volume.disk, expected[m], opts.runID, PathOf(expected, m));
    PlainIsReachable(started, expected);
    SomeAreMissing(started, m);
    hide Next, Enabled;
    var accepted := AcceptOne(started, opts, expected, m);
    var written := WriteFile(accepted, opts, expected, m);
    n := FinishOne(written, expected, m, true);
  }

  /** It finalizes, to the end. */
  lemma FinalizeAgain(s: State, opts: Options, expected: map<Name, string>) returns (n: State)
    requires PlainlyReached(s, expected) && s.server.Some?
    requires var v := s.server.value;
      v.opts == opts && v.completed == v.expected.Keys && v.receiving.None? && v.receiver.Listening? && v.phase.Waiting?
      && v.consumed == []
    requires opts.timestamp != ""
    ensures PlainlyReached(n, expected) && n.server.Some? && n.server.value.phase.Finalizing?
    ensures var v, w, trace := s.server.value, n.server.value, Finalize(s.volume.disk, opts).trace;
      w.phase == Finalizing(opts, s.volume.disk, |trace|) && w.left == v.left && w.expected == v.expected
        && w.torn == v.torn
      && n.volume.disk == Finalized(s.volume.disk, opts)
  {
    hide PlainlyReached, Finalize, Runs.Sound, Served;
    var told := CommandComes(s, expected, FinalizePayload(opts.timestamp, [], 0));
    PlainStepReaches(told, Join(opts), expected);
    var joined := Next(told, Join(opts));
    n := MakeAll(joined, expected);
    PlainIsReachable(n, expected);
    AllMade(n);
  }

  lemma AllMade(s: State)
    requires Reachable(s) && s.server.Some? && s.server.value.phase.Finalizing? && CallsLeft(s.server.value.phase) == 0
    ensures s.volume.disk == Finalized(s.server.value.phase.start, s.server.value.phase.finalOpts)
  {
    ReachedIsServing(s);
    hide Finalize, Runs.Sound, Served, ServeTarget.Ordered, Reachable;
    var trace := Finalize(s.server.value.phase.start, s.server.value.phase.finalOpts).trace;
    assert trace[..|trace|] == trace;
  }

  /** A reported completion of a process that has promoted nothing, though its source has left a file: the snapshot,
      which retention keeps, has no such file. */
  ghost predicate CompletesWithout(s: State, m: Name) {
    Reachable(s) && Completes(s, Report) && var v := s.server.value;
      !v.promoted && v.torn == {} && FinalizeRestart.HourlyKept(v.phase.start, v.phase.finalOpts)
      && HourlyRoot(v.phase.finalOpts) in s.volume.disk.trees
      && !HoldsOf(TreeAt(s.volume.disk, HourlyRoot(v.phase.finalOpts)), v, m)
  }

  lemma TimestampIsThere(t: Timestamp)
    requires ValidTime(t)
    ensures FormatTime(t) != ""
  {
  }

  /** Finalizing over a snapshot that is there leaves it as it is. */
  lemma FinalizeOver(d: Disk, opts: Options, t: Timestamp)
    requires ValidTime(t) && ValidRunID(opts.runID)
    requires opts == Options("/target", opts.runID, FormatTime(t), [], Policy(-1, -1, -1, -1))
    requires d.tops == map[PARTIAL := Folder, HOURLY := Folder] && d.trees.Keys == {HourlyRoot(opts), PartialRoot(opts)}
    requires IsTree(d, HourlyRoot(opts)) && IsTree(d, PartialRoot(opts))
    ensures Finalize(d, opts).points.Some? && FinalizeRestart.HourlyKept(d, opts) && !Promoting(d, opts)
    ensures var e := Finalized(d, opts);
      HourlyRoot(opts) in e.trees && e.trees[HourlyRoot(opts)] == d.trees[HourlyRoot(opts)]
  {
    DirsDiffer();
    ParseTimeExact(opts.timestamp, t);
    hide ParseTime, ValidRunID, FormatTime, Finalize, Finalized;
    assert StatRoot(d, PartialRoot(opts)) == Present(true) && StatRoot(d, HourlyRoot(opts)) == Present(true);
    assert FinalizeRestart.Base(d, opts) == d && FinalizeRestart.Startable(d, opts);
    assert opts.timestamp in DirNames(d, HOURLY) by { assert HourlyRoot(opts) in d.trees; }
    FinalizeRestart.FinalizeIffStartable(d, opts);
    hide FinalizeRestart.Startable, StatRoot, DirNames;
    SnapshotIsThatOf(d, opts);
  }

  lemma FileIsMissing(s: State, d: Disk, opts: Options, expected: map<Name, string>, m: Name)
    requires m in expected && Reachable(s) && s.server.Some?
    requires s.server.value.phase == Finalizing(opts, d, |Finalize(d, opts).trace|)
    requires s.volume.disk == Finalized(d, opts) && Finalize(d, opts).points.Some?
    requires FinalizeRestart.HourlyKept(d, opts)
    requires HourlyRoot(opts) in s.volume.disk.trees && AllDirs(s.volume.disk.trees[HourlyRoot(opts)])
    requires !Promoting(d, opts)
    requires var v, path := s.server.value, PathOf(expected, m) + ["file"];
      v.torn == {} && v.expected == expected && m in v.left && path in v.left[m] && v.left[m][path].File?
    ensures CompletesWithout(s, m)
  {
    hide Reachable, Finalize, Finalized, Promoting, FinalizeRestart.HourlyKept, PathOf, HoldsOf, Completes;
    ReportFollows(s);
    NotHeld(s.volume.disk.trees[HourlyRoot(opts)], s.server.value, m, PathOf(expected, m) + ["file"]);
  }

  lemma NotHeld(tree: Tree, v: Server, m: Name, path: seq<string>)
    requires AllDirs(tree) && m in v.left && path in v.left[m] && v.left[m][path].File?
    ensures !HoldsOf(tree, v, m)
  {
    hide PathOf;
  }

  lemma ReportFollows(s: State)
    requires Reachable(s) && s.server.Some? && s.server.value.phase.Finalizing? && CallsLeft(s.server.value.phase) == 0
    requires Finalize(s.server.value.phase.start, s.server.value.phase.finalOpts).points.Some?
    ensures Completes(s, Report)
    ensures !Promoting(s.server.value.phase.start, s.server.value.phase.finalOpts) ==> !s.server.value.promoted
  {
    hide Reachable, Finalize, Promoting, Runs.Sound, ServerSound, HeldAtStart;
    ReachedIsKnown(s);
  }

  /** That occurs: a process ends right after it has promoted, and the next one is told to finalize under the same
      name. */
  lemma CompletionWithoutPromotion(runID: string, expected: map<Name, string>, m: Name, t: Timestamp)
    requires Served(runID, expected) && expected.Keys == {m} && ValidRunID(runID) && ValidTime(t)
    ensures exists s :: PlainlyReached(s, expected) && CompletesWithout(s, m)
  {
    var opts := Options("/target", runID, FormatTime(t), [], Policy(-1, -1, -1, -1));
    TimestampIsThere(t);
    hide FormatTime, ValidRunID, PlainlyReached, PathOf, Served, Finalize, Finalized, HoldsOf, Completes;
    var ended := PromoteAndEnd(opts, expected, m, t);
    var again := ReceiveAgain(ended, opts, expected, m);
    var n := FinalizeAgain(again, opts, expected);
    FinalizeOver(again.volume.disk, opts, t);
    FileIsMissing(n, again.volume.disk, opts, expected, m);
    hide CompletesWithout;
    assert CompletesWithout(n, m);
  }
}
