/** The serving process of a target at work on its volume (internal/cli/cli.go, internal/dataplane/transport.go):
    accepting and seeding, transfers, commands and space recovery interleave until finalize has been received and the
    receiver is done; then the run is finalized call by call. The process can end at any point and be started again. */
module ServeRuns {
  import opened Wrappers
  import opened Text
  import opened Paths
  import opened Calendar
  import opened Destinations
  import opened Commands
  import opened Volume
  import opened SnapshotStore
  import opened StoreCalls
  import opened Seeding
  import Runs = SnapshotRuns
  import FinalizeRestart
  import ServeTarget
  import SpaceRecovery

  /** The receiver goroutine: still accepting, returned without an error, or with one. */
  datatype Receiver = Listening | Returned | Broken

  /** Where the main goroutine is; while it finalizes, `done` directory calls of the run that began on `start` are
      made. */
  datatype Phase =
    | Waiting
    | Recovering(protectedSnapshots: seq<string>)
    | Joining(payload: FinalizePayload)
    | Finalizing(finalOpts: Options, start: Disk, done: nat)
    | Completed(finalOpts: Options)
    | Aborted

  /** A serving process. `left` is what the last successful transfer of each completed source left below its
      destination; `torn` are those of them that have begun another transfer since, without success so far; `promoted`
      tells whether the process has promoted its run. */
  datatype Server = Server(opts: Options, expected: map<Name, string>, completed: set<Name>, receiving: Option<Name>,
                           receiver: Receiver, consumed: seq<ServeTarget.Signal>, phase: Phase,
                           left: map<Name, Tree>, torn: set<Name>, promoted: bool)

  datatype State = State(volume: Runs.State, server: Option<Server>)

  datatype Step =
    | Start(opts: Options, expected: map<Name, string>)
    | Accept(sender: Name, requested: string)
    | Transfer(effect: Runs.Effect)
    | Finish(ok: bool)
    | Return
    | Break
    | Consume(signal: ServeTarget.Signal)
    | Recover(root: Root)
    | EndRecovery(ok: bool)
    | Join(finalOpts: Options)
    | Make(call: Call)
    | Report
    | Exit

  /** The one session id of a process: connections are received one after the other. */
  const CONNECTION: nat := 0

  /** The expected destinations are normal paths in the partial run. */
  predicate Served(runID: string, expected: map<Name, string>) {
    forall n :: n in expected ==>
      NormalizeTargetSubpath(expected[n]) == Ok(expected[n])
      && Destination(expected[n]).Some? && Destination(expected[n]).value.0 == runID
  }

  /** The path of a source below its run. */
  function PathOf(expected: map<Name, string>, n: Name): seq<string>
    requires n in expected
  {
    match Destination(expected[n]) case Some((_, path)) => path case None => []
  }

  ghost predicate Enabled(s: State, step: Step) {
    if step.Start? then s.server.None? && Served(step.opts.runID, step.expected)
    else
      s.server.Some? && var v := s.server.value;
      match step
      case Start(_, _) => false
      case Accept(_, _) => v.receiver.Listening? && v.receiving.None? && |v.completed| < |v.expected.Keys|
      case Transfer(effect) => v.receiving.Some? && Runs.Enabled(s.volume, Runs.Transfer(CONNECTION, effect))
      case Finish(_) => v.receiving.Some?
      case Return => v.receiver.Listening? && v.receiving.None? && |v.completed| >= |v.expected.Keys|
      case Break => v.receiver.Listening? && v.receiving.None?
      case Consume(_) => v.phase.Waiting?
      case Recover(root) =>
        v.phase.Recovering? && root.dir in TIERS
          && root.ToText() !in SpaceRecovery.ProtectedNames(v.phase.protectedSnapshots)
      case EndRecovery(_) => v.phase.Recovering?
      case Join(finalOpts) =>
        v.phase.Joining? && !v.receiver.Listening? && ServeTarget.Ordered(v.opts, v.phase.payload, finalOpts)
      case Make(call) =>
        v.phase.Finalizing? && var trace := Finalize(v.phase.start, v.phase.finalOpts).trace;
        v.phase.done < |trace| && Makes(s.volume.disk, call, OwnPromotion(v.phase.finalOpts))
        && Apply(s.volume.disk, call) == trace[v.phase.done]
      case Report => v.phase.Finalizing? && v.phase.done >= |Finalize(v.phase.start, v.phase.finalOpts).trace|
      case Exit => true
  }

  /** The session of the connection that is being received. */
  function Sessions(v: Server): map<nat, Runs.Session>
    requires v.receiving.Some? ==> v.receiving.value in v.expected
  {
    if v.receiving.None? then map[]
    else map[CONNECTION := Runs.Session(Root(PARTIAL, v.opts.runID), PathOf(v.expected, v.receiving.value))]
  }

  /** The volume's sessions are those of the process. */
  predicate Attached(s: State) {
    match s.server
    case None => s.volume.sessions == map[]
    case Some(v) => (v.receiving.Some? ==> v.receiving.value in v.expected) && s.volume.sessions == Sessions(v)
  }

  /** The tree below a destination, as the source left it. */
  function LeftBy(d: Disk, run: string, path: seq<string>): Tree {
    Below(TreeAt(d, Root(PARTIAL, run)), path)
  }

  /** Accepting a connection: the checks, and then the seeding of its destination. */
  ghost function Accepted(s: State, v: Server, sender: Name, requested: string): State
    requires CONNECTION !in s.volume.sessions
  {
    match ReceiveCheck(v.expected, sender, requested)
    case Err(_) => s
    case Ok(destination) =>
      var again := v.(torn := if sender in v.completed then v.torn + {sender} else v.torn);
      State(Runs.Next(s.volume, Runs.Open(destination, CONNECTION)),
            Some(if Seed(s.volume.disk, destination).linked.None? then again else again.(receiving := Some(sender))))
  }

  /** The end of a transfer. */
  function Finished(s: State, v: Server, ok: bool): State
    requires v.receiving.Some? && v.receiving.value in v.expected && CONNECTION in s.volume.sessions
  {
    var n := v.receiving.value;
    State(Runs.Next(s.volume, Runs.Close(CONNECTION)),
          Some(if ok then v.(receiving := None, completed := v.completed + {n}, torn := v.torn - {n},
                             left := v.left[n := LeftBy(s.volume.disk, v.opts.runID, PathOf(v.expected, n))])
               else v.(receiving := None)))
  }

  function Consumed(v: Server, signal: ServeTarget.Signal): Server {
    v.(consumed := v.consumed + [signal],
       phase := if ServeTarget.Finalizes(signal) then Joining(signal.command.finalize.value)
                else if ServeTarget.Recovers(signal) then Recovering(signal.command.recover.value.protectedSnapshots)
                else if ServeTarget.Aborts(signal) then Aborted
                else v.phase)
  }

  ghost function Next(s: State, step: Step): State
    requires Attached(s) && Enabled(s, step)
  {
    if step.Start? then
      State(s.volume, Some(Server(step.opts, step.expected, {}, None, Listening, [], Waiting, map[], {}, false)))
    else
      var v := s.server.value;
      match step
      case Accept(sender, requested) => Accepted(s, v, sender, requested)
      case Transfer(effect) => State(Runs.Next(s.volume, Runs.Transfer(CONNECTION, effect)), s.server)
      case Finish(ok) => Finished(s, v, ok)
      case Return => s.(server := Some(v.(receiver := Returned)))
      case Break => s.(server := Some(v.(receiver := Broken)))
      case Consume(signal) => s.(server := Some(Consumed(v, signal)))
      case Recover(root) => State(Runs.Next(s.volume, Runs.Store(Prune(root))), s.server)
      case EndRecovery(ok) => s.(server := Some(v.(phase := if ok then Waiting else Aborted)))
      case Join(finalOpts) =>
        s.(server := Some(v.(phase := if v.receiver.Broken? then Aborted else Finalizing(finalOpts, s.volume.disk, 0))))
      case Make(call) =>
        State(Runs.Next(s.volume, Runs.Store(call)),
              Some(v.(phase := v.phase.(done := v.phase.done + 1), promoted := v.promoted || call.Promote?)))
      case Report =>
        var succeeded := Finalize(v.phase.start, v.phase.finalOpts).points.Some?;
        s.(server := Some(v.(phase := if succeeded then Completed(v.phase.finalOpts) else Aborted)))
      case Exit =>
        State(if CONNECTION in s.volume.sessions then Runs.Next(s.volume, Runs.Close(CONNECTION)) else s.volume, None)
  }

  // ---------------------------------------------------------------- the invariant

  /** A process counts what it expects, and stops receiving before it finalizes what it was told to. */
  ghost predicate ServerSound(d: Disk, v: Server) {
    Served(v.opts.runID, v.expected) && v.completed <= v.expected.Keys
    && (v.receiving.Some? ==> v.receiver.Listening?)
    && (v.receiver.Returned? ==> v.expected.Keys <= v.completed)
    && (v.phase.Joining? ==>
          v.consumed != [] && ServeTarget.Finalizes(v.consumed[|v.consumed| - 1])
          && v.phase.payload == v.consumed[|v.consumed| - 1].command.finalize.value)
    && (v.phase.Finalizing? ==> v.receiver.Returned? && Underway(d, v))
  }

  /** Finalizing is underway: the options are those of the last command, and the disk is where `done` calls have led. */
  ghost predicate Underway(d: Disk, v: Server)
    requires v.phase.Finalizing?
  {
    var trace := Finalize(v.phase.start, v.phase.finalOpts).trace;
    v.phase.done <= |trace| && d == After(v.phase.start, trace[..v.phase.done]) && InFolders(v.phase.start)
    && v.consumed != [] && ServeTarget.Finalizes(v.consumed[|v.consumed| - 1])
    && ServeTarget.Ordered(v.opts, v.consumed[|v.consumed| - 1].command.finalize.value, v.phase.finalOpts)
  }

  ghost predicate Serving(s: State) {
    Runs.Sound(s.volume) && Attached(s) && (s.server.Some? ==> ServerSound(s.volume.disk, s.server.value))
  }

  const NEW := State(Runs.NEW, None)

  lemma InitiallyServing()
    ensures Serving(NEW)
  {
    Runs.NewVolumeIsSound();
  }

  // ---------------------------------------------------------------- the process is disciplined

  /** `w` is the volume `v` itself, or what a disciplined step makes of it. */
  ghost predicate VolumeStep(v: Runs.State, w: Runs.State) {
    w == v || exists step :: Runs.Enabled(v, step) && Runs.Disciplined(v, step) && w == Runs.Next(v, step)
  }

  /** Whatever the process does to its volume is a disciplined step: when it promotes a run, no transfer is open. */
  lemma StepIsDisciplined(s: State, step: Step)
    requires Serving(s) && Enabled(s, step)
    ensures VolumeStep(s.volume, Next(s, step).volume)
  {
    hide Finalize, Seed, Apply, Allowed, ReceiveCheck, Runs.Sound, Served, Consumed;
    var n := Next(s, step);
    match step
    case Accept(sender, requested) =>
      var v := s.server.value;
      if ReceiveCheck(v.expected, sender, requested).Ok? {
        AsVolumeStep(s.volume, Runs.Open(ReceiveCheck(v.expected, sender, requested).value, CONNECTION));
      }
    case Transfer(effect) => AsVolumeStep(s.volume, Runs.Transfer(CONNECTION, effect));
    case Finish(ok) => AsVolumeStep(s.volume, Runs.Close(CONNECTION));
    case Recover(root) => RecoverIsDisciplined(s.volume, root);
    case Make(call) => AsVolumeStep(s.volume, Runs.Store(call));
    case Exit =>
      if CONNECTION in s.volume.sessions { AsVolumeStep(s.volume, Runs.Close(CONNECTION)); }
    case _ =>
  }

  lemma AsVolumeStep(v: Runs.State, step: Runs.Step)
    requires Runs.Enabled(v, step) && Runs.Disciplined(v, step)
    ensures VolumeStep(v, Runs.Next(v, step))
  {
  }

  lemma RecoverIsDisciplined(v: Runs.State, root: Root)
    requires root.dir in TIERS
    ensures VolumeStep(v, Runs.Next(v, Runs.Store(Prune(root))))
  {
    AsVolumeStep(v, Runs.Store(Prune(root)));
  }

  lemma VolumeStaysSound(v: Runs.State, w: Runs.State)
    requires Runs.Sound(v) && VolumeStep(v, w)
    ensures Runs.Sound(w)
  {
    hide Runs.Sound, Runs.Next, Runs.Enabled, Runs.Disciplined;
    if w != v {
      var step :| Runs.Enabled(v, step) && Runs.Disciplined(v, step) && w == Runs.Next(v, step);
      Runs.StepIsSound(v, step);
    }
  }

  lemma AcceptKeepsAttached(s: State, sender: Name, requested: string)
    requires Serving(s) && Enabled(s, Accept(sender, requested))
    ensures Attached(Next(s, Accept(sender, requested)))
    ensures Next(s, Accept(sender, requested)).server.Some?
    ensures ServerSound(Next(s, Accept(sender, requested)).volume.disk, Next(s, Accept(sender, requested)).server.value)
  {
    hide Finalize, Runs.Sound, Destination, Seed, NormalizeTargetSubpath, Underway, ServeTarget.Ordered;
    var v := s.server.value;
    assert !v.phase.Finalizing?;
    SeedNeedsDestination(s.volume.disk, v.expected, sender, requested);
  }

  lemma SeedNeedsDestination(d: Disk, expected: map<Name, string>, sender: Name, requested: string)
    ensures ReceiveCheck(expected, sender, requested).Ok? ==>
      sender in expected && ReceiveCheck(expected, sender, requested).value == expected[sender]
  {
    hide NormalizeTargetSubpath;
  }

  lemma MakeKeepsAttached(s: State, call: Call)
    requires Serving(s) && Enabled(s, Make(call))
    ensures var n := Next(s, Make(call)); Attached(n) && n.server.Some? && ServerSound(n.volume.disk, n.server.value)
  {
    hide Finalize, Runs.Sound, Served, Apply, Allowed, ServeTarget.Ordered;
    var v := s.server.value;
    var trace := Finalize(v.phase.start, v.phase.finalOpts).trace;
    assert trace[..v.phase.done + 1][v.phase.done] == trace[v.phase.done];
  }

  lemma JoinKeepsSound(s: State, finalOpts: Options)
    requires Serving(s) && Enabled(s, Join(finalOpts))
    ensures var n := Next(s, Join(finalOpts));
      Attached(n) && n.server.Some? && ServerSound(n.volume.disk, n.server.value)
  {
    hide Finalize, Served, ServeTarget.Ordered;
  }

  lemma StepKeepsServer(s: State, step: Step)
    requires Serving(s) && Enabled(s, step)
    ensures var n := Next(s, step);
      Attached(n) && (n.server.Some? ==> ServerSound(n.volume.disk, n.server.value))
  {
    match step
    case Accept(sender, requested) => AcceptKeepsAttached(s, sender, requested);
    case Make(call) => MakeKeepsAttached(s, call);
    case Join(finalOpts) => JoinKeepsSound(s, finalOpts);
    case Return => ReturnKeepsSound(s);
    case _ => OtherKeepsServer(s, step);
  }

  lemma ReturnKeepsSound(s: State)
    requires Serving(s) && Enabled(s, Return)
    ensures var n := Next(s, Return); Attached(n) && n.server.Some? && ServerSound(n.volume.disk, n.server.value)
  {
    hide Finalize, Served, ServeTarget.Ordered, Runs.Sound;
    ServeTarget.Covering(s.server.value.expected.Keys, s.server.value.completed);
  }

  lemma OtherKeepsServer(s: State, step: Step)
    requires Serving(s) && Enabled(s, step) && !step.Accept? && !step.Make? && !step.Join? && !step.Return?
    ensures var n := Next(s, step);
      Attached(n) && (n.server.Some? ==> ServerSound(n.volume.disk, n.server.value))
  {
    hide Finalize, Served, ServeTarget.Ordered, Runs.Sound, Apply, Allowed, Runs.Transferred;
  }

  lemma StepKeepsServing(s: State, step: Step)
    requires Serving(s) && Enabled(s, step)
    ensures Serving(Next(s, step))
  {
    StepIsDisciplined(s, step);
    StepKeepsServer(s, step);
    VolumeStaysSound(s.volume, Next(s, step).volume);
    hide Next, Enabled, Attached, ServerSound, VolumeStep, Runs.Sound;
  }

  // ---------------------------------------------------------------- the wait for commands

  /** The phase of a process after these signals, each taken when it waits again; `recovers` tells how recoveries
      end. */
  function PhaseAfter(v: Server, signals: seq<ServeTarget.Signal>, recovers: Command -> bool): Phase {
    if signals == [] then v.phase
    else
      var n := |signals| - 1;
      var before := PhaseAfter(v, signals[..n], recovers);
      if !before.Waiting? then before
      else
        var taken := Consumed(v.(phase := before), signals[n]).phase;
        if taken.Recovering? then if recovers(signals[n].command) then Waiting else Aborted else taken
  }

  /** Signal by signal the process does what the loop of the control client does: it goes on to finalize with the
      command that ends the wait, stops where that stops, and waits where that waits. */
  lemma {:induction false} ProcessWaitsAlike(v: Server, signals: seq<ServeTarget.Signal>, recovers: Command -> bool,
                                             r: ServeTarget.Waited)
    requires v.phase.Waiting? && ServeTarget.WaitEnds(signals, recovers, r)
    ensures PhaseAfter(v, signals, recovers)
         == match r
            case Finalizing(_, command) => Joining(command.finalize.value)
            case Stopped(_) => Aborted
            case NotYet => Waiting
  {
    if signals != [] {
      var n := |signals| - 1;
      match r
      case NotYet =>
        ProcessWaitsAlike(v, signals[..n], recovers, r);
        assert !ServeTarget.Ends(signals[n], recovers);
      case Finalizing(index, command) =>
        ProcessWaitsAlike(v, signals[..n], recovers, if index < n then r else ServeTarget.NotYet);
      case Stopped(index) =>
        ProcessWaitsAlike(v, signals[..n], recovers, if index < n then r else ServeTarget.NotYet);
    }
  }

  // ---------------------------------------------------------------- runs

  datatype Run = Run(states: seq<State>, steps: seq<Step>)

  /** A run from a new volume: processes that serve it one after the other, ending anywhere. */
  ghost predicate Valid(run: Run) {
    |run.states| == |run.steps| + 1 && run.states[0] == NEW
    && forall i :: 0 <= i < |run.steps| ==> StepOf(run.states[i], run.steps[i], run.states[i + 1])
  }

  ghost predicate StepOf(s: State, step: Step, n: State) {
    Attached(s) && Enabled(s, step) && n == Next(s, step)
  }

  lemma {:induction false} RunIsServing(run: Run, i: nat)
    requires Valid(run) && i < |run.states|
    ensures Serving(run.states[i])
  {
    hide Serving;
    if i == 0 {
      InitiallyServing();
    } else {
      RunIsServing(run, i - 1);
      assert StepOf(run.states[i - 1], run.steps[i - 1], run.states[i]);
      StepKeepsServing(run.states[i - 1], run.steps[i - 1]);
    }
  }

  /** A finalize command was received, and every expected source has completed its transfer. */
  ghost predicate Covered(v: Server) {
    v.expected.Keys <= v.completed && v.receiving.None? && v.phase.Finalizing?
    && v.consumed != [] && ServeTarget.Finalizes(v.consumed[|v.consumed| - 1])
    && ServeTarget.Ordered(v.opts, v.consumed[|v.consumed| - 1].command.finalize.value, v.phase.finalOpts)
  }

  lemma FinalizingIsCovered(s: State)
    requires Serving(s) && s.server.Some? && s.server.value.phase.Finalizing?
    ensures s.volume.sessions == map[] && Covered(s.server.value)
  {
    hide Finalize, Runs.Sound, Served, ServeTarget.Ordered;
  }

  /** A promotion in any run comes after a finalize command, with the options it orders, when every expected source has
      completed its transfer and no transfer is open. */
  lemma PromotionsAreCovered(run: Run, i: nat)
    requires Valid(run) && i < |run.steps| && run.steps[i].Make? && run.steps[i].call.Promote?
    ensures var s := run.states[i]; s.server.Some? && s.volume.sessions == map[] && Covered(s.server.value)
  {
    hide Serving, Next, Covered, Makes;
    RunIsServing(run, i);
    assert StepOf(run.states[i], run.steps[i], run.states[i + 1]);
    FinalizingIsCovered(run.states[i]);
  }

  /** Snapshot immutability for the processes of this program, with no assumption about their discipline: whatever they
      receive, recover, finalize and leave unfinished, a snapshot shows the same contents as long as it is there. */
  lemma {:induction false} ServedSnapshotsAreImmutable(run: Run, i: nat, j: nat, r: Root)
    requires Valid(run) && i <= j < |run.states| && r.dir in TIERS
    requires forall k :: i <= k <= j ==> r in run.states[k].volume.disk.trees
    ensures Runs.View(run.states[j].volume.disk, r) == Runs.View(run.states[i].volume.disk, r)
    decreases j - i
  {
    if i < j {
      ServedSnapshotsAreImmutable(run, i, j - 1, r);
      var s, n := run.states[j - 1], run.states[j];
      RunIsServing(run, j - 1);
      assert StepOf(s, run.steps[j - 1], n);
      StepIsDisciplined(s, run.steps[j - 1]);
      SnapshotStays(s.volume, n.volume, r);
    }
  }

  lemma SnapshotStays(v: Runs.State, w: Runs.State, r: Root)
    requires Runs.Sound(v) && VolumeStep(v, w) && r.dir in TIERS && r in v.disk.trees && r in w.disk.trees
    ensures Runs.View(v.disk, r) == Runs.View(w.disk, r)
  {
    hide Runs.Next, Runs.Enabled, Runs.Disciplined, Runs.View;
    if w != v {
      var step :| Runs.Enabled(v, step) && Runs.Disciplined(v, step) && w == Runs.Next(v, step);
      Runs.StepKeepsSnapshots(v, step);
      Runs.SameView(v.disk, w.disk, r);
    }
  }

  /** Until it finalizes, a process adds no snapshot and moves neither `latest` nor a tier; it removes snapshots only to
      recover space, and then none that the command protects. */
  lemma OnlyFinalizingChangesSnapshots(s: State, step: Step)
    requires Serving(s) && Enabled(s, step) && !step.Make?
    ensures var d, e := s.volume.disk, Next(s, step).volume.disk;
      (forall r: Root | r.dir in TIERS :: (r in e.trees ==> r in d.trees && e.trees[r] == d.trees[r]))
      && (forall r: Root | r.dir in TIERS && r in d.trees && r !in e.trees ::
            step == Recover(r) && s.server.value.phase.Recovering?
            && !SpaceRecovery.Protects(s.server.value.phase.protectedSnapshots, r))
      && (forall t | t != PARTIAL :: (t in e.tops <==> t in d.tops) && (t in e.tops ==> e.tops[t] == d.tops[t]))
  {
    DirsDiffer();
    hide Finalize, Seed, ReceiveCheck, Served, Consumed, ServeTarget.Ordered, Runs.Transferred, Underway;
    if step.Accept? {
      AcceptStaysInPartial(s, step.sender, step.requested);
    } else if step.Transfer? {
      TransferStaysInPartial(s.volume.disk, s.volume.sessions[CONNECTION], step.effect);
      hide Sessions;
    } else if step.Recover? {
      SpaceRecovery.ProtectedByName(s.server.value.phase.protectedSnapshots, step.root);
    }
  }

  lemma AcceptStaysInPartial(s: State, sender: Name, requested: string)
    requires Serving(s) && Enabled(s, Accept(sender, requested))
    ensures StagedChange(s.volume.disk, Next(s, Accept(sender, requested)).volume.disk)
  {
    hide Finalize, Seed, ReceiveCheck, Served, ServeTarget.Ordered, Runs.Sound, Underway;
    var destination := ReceiveCheck(s.server.value.expected, sender, requested);
    if destination.Ok? { SeedStaysInPartial(s.volume.disk, destination.value); }
  }

  lemma TransferStaysInPartial(d: Disk, session: Runs.Session, effect: Runs.Effect)
    requires session.root.dir == PARTIAL
    ensures var e := Runs.Transferred(d, session, effect);
      e.tops == d.tops
      && forall r: Root | r.dir in TIERS ::
           (r in e.trees <==> r in d.trees) && (r in d.trees ==> e.trees[r] == d.trees[r])
  {
    DirsDiffer();
  }

  // ---------------------------------------------------------------- finalizing, in any reachable state

  /** Finalizing can always go on: the next disk of its trace is one directory call away. */
  lemma FinalizingGoesOn(s: State)
    requires Serving(s) && s.server.Some? && s.server.value.phase.Finalizing?
    ensures Enabled(s, Report) || exists call :: Enabled(s, Make(call))
  {
    hide Finalize, Runs.Sound, Served, ServeTarget.Ordered, Attached;
    var phase := s.server.value.phase;
    if phase.done < |Finalize(phase.start, phase.finalOpts).trace| {
      var call := NextCall(phase.start, phase.finalOpts, phase.done, s.volume.disk);
      assert Enabled(s, Make(call));
    }
  }

  lemma NextCall(start: Disk, opts: Options, done: nat, d: Disk) returns (call: Call)
    requires InFolders(start) && done < |Finalize(start, opts).trace|
    requires d == After(start, Finalize(start, opts).trace[..done])
    ensures Makes(d, call, OwnPromotion(opts)) && Apply(d, call) == Finalize(start, opts).trace[done]
  {
    hide Finalize, Allowed, Apply, InFolders;
    FinalizingIsCalls(start, opts);
    assert IsCall(d, Finalize(start, opts).trace[done], OwnPromotion(opts));
    call :| Makes(d, call, OwnPromotion(opts)) && Finalize(start, opts).trace[done] == Apply(d, call);
  }

  /** A process reports completion iff finalizing from the disk it found after its receiver was done has succeeded, and
      then the volume is what that leaves. */
  lemma ReportIsTrue(run: Run, i: nat)
    requires Valid(run) && i < |run.steps| && run.steps[i].Report?
    ensures var s, n := run.states[i], run.states[i + 1];
      s.server.Some? && s.server.value.phase.Finalizing? && n.server.Some?
      && var phase := s.server.value.phase;
        s.volume.disk == Finalized(phase.start, phase.finalOpts) && n.volume == s.volume
        && (n.server.value.phase == Completed(phase.finalOpts) <==> Finalize(phase.start, phase.finalOpts).points.Some?)
  {
    RunIsServing(run, i);
    var s := run.states[i];
    assert StepOf(s, run.steps[i], run.states[i + 1]);
    hide Finalize, Runs.Sound, Served, ServeTarget.Ordered;
    var phase := s.server.value.phase;
    var trace := Finalize(phase.start, phase.finalOpts).trace;
    assert trace[..|trace|] == trace;
  }

  /** A process may end at any point of a finalizing that would have succeeded: if retention keeps the new snapshot,
      finalizing again from there leads to the same volume. */
  lemma InterruptedFinalizeRestarts(run: Run, i: nat)
    requires Valid(run) && i < |run.states| && run.states[i].server.Some?
    requires run.states[i].server.value.phase.Finalizing?
    requires var phase := run.states[i].server.value.phase;
      Finalize(phase.start, phase.finalOpts).points.Some? && FinalizeRestart.HourlyKept(phase.start, phase.finalOpts)
    ensures var s, phase := run.states[i], run.states[i].server.value.phase;
      Finalized(s.volume.disk, phase.finalOpts) == Finalized(phase.start, phase.finalOpts)
  {
    RunIsServing(run, i);
    hide Finalize, Finalized, Runs.Sound, Served, ServeTarget.Ordered, FinalizeRestart.HourlyKept, Valid;
    var phase := run.states[i].server.value.phase;
    RestartsFrom(phase.start, phase.finalOpts, phase.done, run.states[i].volume.disk);
  }

  lemma RestartsFrom(start: Disk, opts: Options, done: nat, d: Disk)
    requires InFolders(start) && Finalize(start, opts).points.Some? && FinalizeRestart.HourlyKept(start, opts)
    requires done <= |Finalize(start, opts).trace| && d == After(start, Finalize(start, opts).trace[..done])
    ensures Finalized(d, opts) == Finalized(start, opts)
  {
    hide Finalize, Finalized, FinalizeRestart.HourlyKept, InFolders;
    FinalizeRestart.RestartableIffKept(start, opts);
    var trace := Finalize(start, opts).trace;
    if done > 0 {
      assert d == trace[..done][done - 1] == trace[done - 1];
    }
  }

  // ---------------------------------------------------------------- what a promoted snapshot holds

  /** No expected destination lies below another. */
  ghost predicate Apart(expected: map<Name, string>) {
    forall m, n :: m in expected && n in expected && m != n ==> !(PathOf(expected, m) <= PathOf(expected, n))
  }

  /** Below a destination the tree holds what its source left there. */
  ghost predicate HoldsOf(tree: Tree, v: Server, n: Name) {
    n in v.left && n in v.expected && Below(tree, PathOf(v.expected, n)) == v.left[n]
  }

  ghost predicate Holds(tree: Tree, v: Server) {
    forall n :: n in v.left && n in v.expected && n !in v.torn ==> HoldsOf(tree, v, n)
  }

  /** The bookkeeping of completed sources, and what the partial run holds until it is promoted. */
  ghost predicate LeftSound(d: Disk, v: Server) {
    v.left.Keys == v.completed && v.torn <= v.completed
    && (v.receiving.Some? && v.receiving.value in v.completed ==> v.receiving.value in v.torn)
    && (v.torn != {} ==> |v.expected.Keys| > 1)
    && (Apart(v.expected) && (v.receiver.Listening? || Root(PARTIAL, v.opts.runID) in d.trees) ==>
          Holds(TreeAt(d, Root(PARTIAL, v.opts.runID)), v))
  }

  ghost predicate KeepsLeft(s: State) {
    s.server.Some? ==> LeftSound(s.volume.disk, s.server.value)
  }

  predicate Incomparable(p: seq<string>, q: seq<string>) { !(p <= q) && !(q <= p) }

  /** What happens below one path shows nowhere below another that is not comparable. */
  lemma SeededElsewhere(tree: Tree, path: seq<string>, latest: Tree, other: seq<string>)
    requires Incomparable(path, other)
    ensures Below(SeededTree(Emptied(tree, path), path, latest), other) == Below(tree, other)
    ensures Below(Emptied(tree, path), other) == Below(tree, other)
  {
    PrefixesBelow(path);
    var seeded, emptied := SeededTree(Emptied(tree, path), path, latest), Emptied(tree, path);
    forall p | p in seeded.Keys + tree.Keys && other <= p
      ensures (p in emptied <==> p in tree) && (p in seeded <==> p in tree)
        && (p in tree ==> tree[p] == emptied[p] == seeded[p])
    {
      if path <= p { CommonPrefixes(path, other, p); }
      if p in Prefixes(path) { PrefixOfPrefix(other, p, path); }
    }
    hide Prefixes, Linked, SeededTree;
  }

  lemma PrefixOfPrefix(p: seq<string>, q: seq<string>, r: seq<string>)
    requires p <= q <= r
    ensures p <= r
  {
  }

  lemma CommonPrefixes(p: seq<string>, q: seq<string>, all: seq<string>)
    requires p <= all && q <= all
    ensures !Incomparable(p, q)
  {
    if |p| <= |q| { assert p == q[..|p|]; } else { assert q == p[..|q|]; }
  }

  lemma SeedKeepsOthers(d: Disk, destination: string, run: string, path: seq<string>, other: seq<string>)
    requires Destination(destination) == Some((run, path)) && Incomparable(path, other)
    ensures Below(TreeAt(Seed(d, destination).disk, Root(PARTIAL, run)), other) ==
      Below(TreeAt(d, Root(PARTIAL, run)), other)
  {
    var r := Root(PARTIAL, run);
    var tree, emptied := TreeAt(d, r), EmptiedDisk(d, r, path);
    SeededElsewhere(tree, path, LatestTree(emptied), other);
    SeededElsewhere(tree, path, map[], other);
    assert Emptied(map[], path) == map[];
    assert TreeAt(emptied, r) == Emptied(tree, path);
    SeedTree(d, destination, run, path);
    hide Seed, SeededTree, Emptied, Below, LatestTree, Destination;
  }

  /** The tree of a run after its destination was seeded, or left empty. */
  lemma SeedTree(d: Disk, destination: string, run: string, path: seq<string>)
    requires Destination(destination) == Some((run, path))
    ensures var r := Root(PARTIAL, run);
      var emptied := EmptiedDisk(d, r, path);
      TreeAt(Seed(d, destination).disk, r)
        in {TreeAt(d, r), TreeAt(emptied, r), SeededTree(TreeAt(emptied, r), path, LatestTree(emptied)),
            SeededTree(TreeAt(emptied, r), path, map[])}
  {
    hide Destination, SeededTree, Emptied, LatestTree, StatIn, Blocked;
  }

  lemma TransferKeepsOthers(d: Disk, session: Runs.Session, effect: Runs.Effect, other: seq<string>)
    requires Incomparable(session.base, other)
    ensures Below(TreeAt(Runs.Transferred(d, session, effect), session.root), other) ==
      Below(TreeAt(d, session.root), other)
  {
    var path := session.base + effect.path;
    assert session.base <= path;
    if other <= path { CommonPrefixes(session.base, other, path); }
    if path <= other { PrefixOfPrefix(session.base, path, other); }
    SeededElsewhere(TreeAt(d, session.root), path, map[], other);
    hide SeededTree;
  }

  lemma AcceptKeepsLeft(s: State, sender: Name, requested: string)
    requires Serving(s) && KeepsLeft(s) && Enabled(s, Accept(sender, requested))
    ensures KeepsLeft(Next(s, Accept(sender, requested)))
  {
    hide Finalize, Runs.Sound, Seed, Destination, TreeAt, NormalizeTargetSubpath, Holds, Apart, LeftSound, Served,
      ServeTarget.Ordered, Underway, PathOf;
    var v, n := s.server.value, Next(s, Accept(sender, requested));
    SeedNeedsDestination(s.volume.disk, v.expected, sender, requested);
    if ReceiveCheck(v.expected, sender, requested).Ok? {
      AcceptedLeft(s.volume.disk, v, n.server.value, sender);
    }
  }

  lemma AcceptedLeft(d: Disk, v: Server, w: Server, sender: Name)
    requires Served(v.opts.runID, v.expected) && LeftSound(d, v) && sender in v.expected
    requires v.receiver.Listening? && v.receiving.None? && v.completed <= v.expected.Keys
    requires |v.completed| < |v.expected.Keys|
    requires w == v.(torn := if sender in v.completed then v.torn + {sender} else v.torn, receiving := w.receiving)
    requires w.receiving.Some? ==> w.receiving.value == sender
    ensures LeftSound(Seed(d, v.expected[sender]).disk, w)
  {
    hide Seed, Destination, TreeAt, Holds, Apart, PathOf;
    if Apart(v.expected) {
      SeedHolds(d, v, w, sender);
    }
    assert sender in v.completed ==> v.completed != {};
  }

  lemma SeedHolds(d: Disk, v: Server, w: Server, sender: Name)
    requires Served(v.opts.runID, v.expected) && sender in v.expected && Apart(v.expected)
    requires Holds(TreeAt(d, Root(PARTIAL, v.opts.runID)), v)
    requires w.expected == v.expected && w.left == v.left && v.torn <= w.torn && (sender in v.left ==> sender in w.torn)
    ensures Holds(TreeAt(Seed(d, v.expected[sender]).disk, Root(PARTIAL, v.opts.runID)), w)
  {
    hide Seed, Destination, Below, TreeAt;
    var r := Root(PARTIAL, v.opts.runID);
    forall m | m in w.left && m in w.expected && m !in w.torn
      ensures HoldsOf(TreeAt(Seed(d, v.expected[sender]).disk, r), w, m)
    {
      assert HoldsOf(TreeAt(d, r), v, m);
      assert m != sender && !(PathOf(v.expected, m) <= PathOf(v.expected, sender));
      SeedKeepsOthers(d, v.expected[sender], v.opts.runID, PathOf(v.expected, sender), PathOf(v.expected, m));
    }
  }

  lemma TransferKeepsLeft(s: State, effect: Runs.Effect)
    requires Serving(s) && KeepsLeft(s) && Enabled(s, Transfer(effect))
    ensures KeepsLeft(Next(s, Transfer(effect)))
  {
    hide Finalize, Runs.Sound, Runs.Transferred, PathOf, Below, TreeAt, Served, ServeTarget.Ordered;
    var v := s.server.value;
    var session := s.volume.sessions[CONNECTION];
    assert session == Runs.Session(Root(PARTIAL, v.opts.runID), PathOf(v.expected, v.receiving.value));
    if Apart(v.expected) {
      forall m | m in v.left && m in v.expected && m !in v.torn
        ensures HoldsOf(TreeAt(Runs.Transferred(s.volume.disk, session, effect), session.root), v, m)
      {
        assert HoldsOf(TreeAt(s.volume.disk, session.root), v, m) && m != v.receiving.value;
        assert !(PathOf(v.expected, m) <= PathOf(v.expected, v.receiving.value));
        TransferKeepsOthers(s.volume.disk, session, effect, PathOf(v.expected, m));
      }
    }
  }

  lemma FinishKeepsLeft(s: State, ok: bool)
    requires Serving(s) && KeepsLeft(s) && Enabled(s, Finish(ok))
    ensures KeepsLeft(Next(s, Finish(ok)))
  {
    hide Finalize, Runs.Sound, PathOf, Below, TreeAt, Served, ServeTarget.Ordered;
  }

  /** Finalizing takes no tree of a partial run apart. */
  lemma MakeKeepsPartial(d: Disk, call: Call, promotions: set<Call>, r: Root)
    requires Makes(d, call, promotions) && r.dir == PARTIAL && r in Apply(d, call).trees
    ensures r in d.trees && Apply(d, call).trees[r] == d.trees[r]
  {
    hide ParseTime;
    DirsDiffer();
  }

  lemma MadeIsAllowed(d: Disk, call: Call, promotions: set<Call>)
    requires Makes(d, call, promotions)
    ensures Allowed(d, call)
  {
  }

  lemma MakeKeepsLeft(s: State, call: Call)
    requires Serving(s) && KeepsLeft(s) && Enabled(s, Make(call))
    ensures KeepsLeft(Next(s, Make(call)))
  {
    hide Finalize, Runs.Sound, PathOf, Below, Served, ServeTarget.Ordered, Makes, Apply, Allowed;
    var v := s.server.value;
    var r := Root(PARTIAL, v.opts.runID);
    MadeIsAllowed(s.volume.disk, call, OwnPromotion(v.phase.finalOpts));
    assert Next(s, Make(call)).volume.disk == Apply(s.volume.disk, call);
    if r in Apply(s.volume.disk, call).trees {
      MakeKeepsPartial(s.volume.disk, call, OwnPromotion(v.phase.finalOpts), r);
    }
  }

  lemma StepKeepsLeft(s: State, step: Step)
    requires Serving(s) && KeepsLeft(s) && Enabled(s, step)
    ensures KeepsLeft(Next(s, step))
  {
    match step
    case Accept(sender, requested) => AcceptKeepsLeft(s, sender, requested);
    case Transfer(effect) => TransferKeepsLeft(s, effect);
    case Finish(ok) => FinishKeepsLeft(s, ok);
    case Make(call) => MakeKeepsLeft(s, call);
    case _ => OtherKeepsLeft(s, step);
  }

  lemma OtherKeepsLeft(s: State, step: Step)
    requires Serving(s) && KeepsLeft(s) && Enabled(s, step)
    requires !step.Accept? && !step.Transfer? && !step.Finish? && !step.Make?
    ensures KeepsLeft(Next(s, step))
  {
    hide Finalize, Runs.Sound, PathOf, Below, Served, ServeTarget.Ordered;
    DirsDiffer();
  }

  lemma {:induction false} RunKeepsLeft(run: Run, i: nat)
    requires Valid(run) && i < |run.states|
    ensures KeepsLeft(run.states[i])
  {
    hide KeepsLeft, Serving;
    if i == 0 {
      assert KeepsLeft(NEW) by { NothingLeft(); }
    } else {
      RunKeepsLeft(run, i - 1);
      RunIsServing(run, i - 1);
      assert StepOf(run.states[i - 1], run.steps[i - 1], run.states[i]);
      StepKeepsLeft(run.states[i - 1], run.steps[i - 1]);
    }
  }

  lemma NothingLeft()
    ensures KeepsLeft(NEW)
  {
  }

  /** The step of a run that promotes: the state before it, and the snapshot that it makes. */
  ghost predicate Promotes(s: State, step: Step) {
    Attached(s) && step.Make? && step.call.Promote? && Enabled(s, step)
  }

  /** The new snapshot holds, below the destination of every expected source, what that source's last successful
      transfer left; `excepted` sources aside. */
  ghost predicate SnapshotIsWhole(s: State, step: Step, excepted: set<Name>)
    requires Promotes(s, step)
  {
    var v, tree := s.server.value, TreeAt(Next(s, step).volume.disk, Root(HOURLY, step.call.timestamp));
    forall n :: n in v.expected && n !in excepted ==> HoldsOf(tree, v, n)
  }

  lemma PromotionMovesTree(s: State, step: Step)
    requires Serving(s) && Promotes(s, step)
    ensures var d, e := s.volume.disk, Next(s, step).volume.disk;
      var partial := Root(PARTIAL, s.server.value.opts.runID);
      partial in d.trees && Root(HOURLY, step.call.timestamp) in e.trees
      && e.trees[Root(HOURLY, step.call.timestamp)] == d.trees[partial]
  {
    hide Finalize, Runs.Sound, Served;
  }

  lemma PromotionIsWhole(s: State, step: Step)
    requires Serving(s) && KeepsLeft(s) && Promotes(s, step) && Apart(s.server.value.expected)
    ensures SnapshotIsWhole(s, step, s.server.value.torn)
  {
    FinalizingIsCovered(s);
    PromotionMovesTree(s, step);
    hide Next, Enabled, HoldsOf, Finalize, Runs.Sound, Served, ServeTarget.Ordered, Apart, Attached;
  }

  /** With destinations apart, every promoted snapshot is whole, but for sources that have begun another transfer after
      they completed, and not completed it. */
  lemma PromotedSnapshotIsWhole(run: Run, i: nat)
    requires Valid(run) && i < |run.steps| && run.steps[i].Make? && run.steps[i].call.Promote?
    requires run.states[i].server.Some? && Apart(run.states[i].server.value.expected)
    ensures Promotes(run.states[i], run.steps[i])
    ensures SnapshotIsWhole(run.states[i], run.steps[i], run.states[i].server.value.torn)
  {
    hide Next, Enabled, SnapshotIsWhole, Apart, Serving, KeepsLeft;
    RunIsServing(run, i);
    RunKeepsLeft(run, i);
    assert StepOf(run.states[i], run.steps[i], run.states[i + 1]);
    PromotionIsWhole(run.states[i], run.steps[i]);
  }

  // ---------------------------------------------------------------- destinations that are not apart

  ghost predicate Reachable(s: State) {
    exists run :: Valid(run) && run.states[|run.steps|] == s
  }

  lemma StepReaches(s: State, step: Step)
    requires Reachable(s) && Attached(s) && Enabled(s, step)
    ensures Reachable(Next(s, step))
  {
    hide Next, Enabled, Attached;
    var run :| Valid(run) && run.states[|run.steps|] == s;
    var longer := Run(run.states + [Next(s, step)], run.steps + [step]);
    forall i | 0 <= i < |longer.steps| ensures StepOf(longer.states[i], longer.steps[i], longer.states[i + 1]) {
      if i < |run.steps| { assert StepOf(run.states[i], run.steps[i], run.states[i + 1]); }
    }
    assert Valid(longer) && longer.states[|longer.steps|] == Next(s, step);
  }

  lemma NewIsReachable()
    ensures Reachable(NEW)
  {
    var run := Run([NEW], []);
    assert Valid(run) && run.states[|run.steps|] == NEW;
  }

  lemma ReachedIsServing(s: State)
    requires Reachable(s)
    ensures Serving(s)
  {
    hide Serving;
    var run :| Valid(run) && run.states[|run.steps|] == s;
    RunIsServing(run, |run.steps|);
  }

  predicate AllDirs(tree: Tree) {
    forall p :: p in tree ==> tree[p].Dir?
  }

  /** Seeding a run of directories on a volume without `latest`. */
  lemma SeedOfDirs(d: Disk, destination: string, run: string, path: seq<string>)
    requires Destination(destination) == Some((run, path)) && LATEST !in d.tops
      && (PARTIAL in d.tops ==> d.tops[PARTIAL].Folder?)
    requires AllDirs(Emptied(TreeAt(d, Root(PARTIAL, run)), path))
    ensures var seeded, r := Seed(d, destination), Root(PARTIAL, run);
      seeded.linked == Some(false) && r in seeded.disk.trees && seeded.disk.tops == d.tops[PARTIAL := Folder]
      && seeded.disk.trees == d.trees[r := seeded.disk.trees[r]] && AllDirs(seeded.disk.trees[r])
      && [] in seeded.disk.trees[r] && path in seeded.disk.trees[r] && seeded.disk.files == d.files
  {
    DirsDiffer();
    var r := Root(PARTIAL, run);
    var emptied := EmptiedDisk(d, r, path);
    assert LatestTree(emptied) == map[];
    assert TreeAt(emptied, r) == Emptied(TreeAt(d, r), path);
    assert !Blocked(TreeAt(emptied, r), path);
    SeededDirs(TreeAt(emptied, r), path);
    hide Destination, Emptied, Blocked, SeededTree, AllDirs, TreeAt;
  }

  lemma SeededDirs(tree: Tree, path: seq<string>)
    requires AllDirs(tree)
    ensures var seeded := SeededTree(tree, path, map[]); AllDirs(seeded) && [] in seeded && path in seeded
  {
    assert path[..|path|] == path && path[..0] == [];
    assert path in Prefixes(path) && [] in Prefixes(path);
  }

  /** A step of processes that expect `expected`, and take one command, finalize, when their receiver has returned. */
  predicate PlainStep(s: State, step: Step, expected: map<Name, string>) {
    (step.Start? ==> step.expected == expected)
    && (step.Consume? ==>
          ServeTarget.Finalizes(step.signal) && s.server.Some? && s.server.value.consumed == []
            && s.server.value.receiver.Returned?)
  }

  ghost predicate Plain(run: Run, expected: map<Name, string>) {
    |run.states| == |run.steps| + 1 && forall i :: 0 <= i < |run.steps| ==>
      PlainStep(run.states[i], run.steps[i], expected)
  }

  ghost predicate PlainlyReached(s: State, expected: map<Name, string>) {
    exists run :: Valid(run) && Plain(run, expected) && run.states[|run.steps|] == s
  }

  lemma PlainStepReaches(s: State, step: Step, expected: map<Name, string>)
    requires PlainlyReached(s, expected) && Attached(s) && Enabled(s, step) && PlainStep(s, step, expected)
    ensures PlainlyReached(Next(s, step), expected)
  {
    hide Next, Enabled, Attached, PlainStep;
    var run :| Valid(run) && Plain(run, expected) && run.states[|run.steps|] == s;
    var longer := Run(run.states + [Next(s, step)], run.steps + [step]);
    forall i | 0 <= i < |longer.steps|
      ensures StepOf(longer.states[i], longer.steps[i], longer.states[i + 1])
      ensures PlainStep(longer.states[i], longer.steps[i], expected)
    {
      if i < |run.steps| { assert StepOf(run.states[i], run.steps[i], run.states[i + 1]); }
    }
    assert Valid(longer) && Plain(longer, expected) && longer.states[|longer.steps|] == Next(s, step);
  }

  lemma NewIsPlainlyReached(expected: map<Name, string>)
    ensures PlainlyReached(NEW, expected)
  {
    var run := Run([NEW], []);
    assert Valid(run) && Plain(run, expected) && run.states[|run.steps|] == NEW;
  }

  lemma PlainIsReachable(s: State, expected: map<Name, string>)
    requires PlainlyReached(s, expected)
    ensures Reachable(s)
  {
    hide Valid, Plain;
  }

  lemma PlainIsServing(s: State, expected: map<Name, string>)
    requires PlainlyReached(s, expected)
    ensures Serving(s)
  {
    hide Serving, Reachable, PlainlyReached;
    PlainIsReachable(s, expected);
    ReachedIsServing(s);
  }

  /** A process that has received `done`, all of whose staged nodes are directories now, though `first` left a file. */
  ghost predicate Filling(s: State, opts: Options, expected: map<Name, string>, first: Name, torn: set<Name>,
                          done: set<Name>) {
    PlainlyReached(s, expected) && s.server.Some? && var v := s.server.value;
      v.opts == opts && v.expected == expected && v.completed == done && v.receiving.None? && v.receiver.Listening?
      && v.phase.Waiting? && v.consumed == [] && v.torn == torn
      && first in v.left && (exists p :: p in v.left[first] && v.left[first][p].File?)
      && Staged(s.volume.disk, opts.runID)
  }

  /** The volume has nothing but one partial run, and that has nothing but directories. */
  ghost predicate Staged(d: Disk, runID: string) {
    d.tops == map[PARTIAL := Folder] && d.trees.Keys == {Root(PARTIAL, runID)}
    && AllDirs(d.trees[Root(PARTIAL, runID)]) && [] in d.trees[Root(PARTIAL, runID)]
  }

  /** A source that connects, and is accepted with what it is expected to ask for. */
  lemma AcceptOne(s: State, opts: Options, expected: map<Name, string>, m: Name) returns (n: State)
    requires PlainlyReached(s, expected) && s.server.Some? && Served(opts.runID, expected) && m in expected
    requires var v := s.server.value;
      v.opts == opts && v.expected == expected && |v.completed| < |expected.Keys| && v.receiving.None?
        && v.receiver.Listening?
    requires Seed(s.volume.disk, expected[m]).linked.Some?
    ensures PlainlyReached(n, expected) && n.volume.disk == Seed(s.volume.disk, expected[m]).disk
    ensures var v := s.server.value;
      n.server == Some(v.(torn := if m in v.completed then v.torn + {m} else v.torn, receiving := Some(m)))
  {
    PlainIsServing(s, expected);
    hide Seed, Destination, Finalize, PlainlyReached, NormalizeTargetSubpath, Runs.Sound;
    assert ReceiveCheck(expected, m, expected[m]) == Ok(expected[m]);
    assert Enabled(s, Accept(m, expected[m]));
    PlainStepReaches(s, Accept(m, expected[m]), expected);
    n := Next(s, Accept(m, expected[m]));
  }

  lemma SomeAreMissing(s: State, m: Name)
    requires Reachable(s) && s.server.Some? && m in s.server.value.expected && m !in s.server.value.completed
    ensures |s.server.value.completed| < |s.server.value.expected.Keys|
  {
    ReachedIsServing(s);
    ServeTarget.Covering(s.server.value.expected.Keys, s.server.value.completed);
  }

  lemma FinishOne(s: State, expected: map<Name, string>, m: Name, ok: bool) returns (n: State)
    requires PlainlyReached(s, expected) && s.server.Some? && s.server.value.receiving == Some(m)
    ensures PlainlyReached(n, expected) && n.volume.disk == s.volume.disk
    ensures var v := s.server.value;
      m in v.expected
      && n.server == Some(if ok then v.(receiving := None, completed := v.completed + {m}, torn := v.torn - {m},
                                        left := v.left[m := LeftBy(s.volume.disk, v.opts.runID, PathOf(v.expected, m))])
                          else v.(receiving := None))
  {
    PlainIsServing(s, expected);
    hide Finalize, PlainlyReached, Runs.Sound, Served, LeftBy, PathOf;
    PlainStepReaches(s, Finish(ok), expected);
    n := Next(s, Finish(ok));
  }

  /** One more source is received: its transfer changes nothing in the seeded directory. */
  lemma ReceiveEmpty(s: State, opts: Options, expected: map<Name, string>, first: Name, torn: set<Name>,
                     done: set<Name>, m: Name)
    returns (n: State)
    requires Filling(s, opts, expected, first, torn, done) && Served(opts.runID, expected)
    requires m in expected && m !in done && m != first && torn <= done <= expected.Keys
    ensures Filling(n, opts, expected, first, torn, done + {m})
  {
    hide PlainlyReached, Seed, Destination, LeftBy, Below, NormalizeTargetSubpath, Next, Enabled;
    var path := Destination(expected[m]).value.1;
    DirsDiffer();
    PlainIsReachable(s, expected);
    SomeAreMissing(s, m);
    SeedOfDirs(s.volume.disk, expected[m], opts.runID, path);
    var accepted := AcceptOne(s, opts, expected, m);
    n := FinishOne(accepted, expected, m, true);
    assert n.server.value.left[first] == s.server.value.left[first];
    assert n.server.value.torn == torn;
    assert Staged(n.volume.disk, opts.runID);
  }

  /** A first source is received and leaves a file. */
  lemma ReceiveFile(opts: Options, expected: map<Name, string>, m: Name) returns (n: State)
    requires Served(opts.runID, expected) && m in expected
    ensures PlainlyReached(n, expected) && n.server.Some?
    ensures var v, r, path := n.server.value, Root(PARTIAL, opts.runID), PathOf(expected, m);
      v.opts == opts && v.expected == expected && v.completed == {m} && v.receiving.None? && v.receiver.Listening?
      && v.phase.Waiting? && v.consumed == [] && v.torn == {} && v.left.Keys == {m}
      && path + ["file"] in v.left[m] && v.left[m][path + ["file"]] == File(0)
      && n.volume.disk.tops == map[PARTIAL := Folder] && n.volume.disk.trees.Keys == {r}
      && (forall p :: p in n.volume.disk.trees[r] && p != path + ["file"] ==> n.volume.disk.trees[r][p].Dir?)
  {
    DirsDiffer();
    hide PlainlyReached, Seed, Destination, NormalizeTargetSubpath;
    NewIsPlainlyReached(expected);
    InitiallyServing();
    PlainStepReaches(NEW, Start(opts, expected), expected);
    var s := Next(NEW, Start(opts, expected));
    var r, path := Root(PARTIAL, opts.runID), PathOf(expected, m);
    SeedOfDirs(s.volume.disk, expected[m], opts.runID, path);
    PlainIsReachable(s, expected);
    SomeAreMissing(s, m);
    var accepted := AcceptOne(s, opts, expected, m);
    hide Next, Enabled;
    var written := WriteFile(accepted, opts, expected, m);
    n := FinishOne(written, expected, m, true);
  }

  lemma WriteFile(s: State, opts: Options, expected: map<Name, string>, m: Name) returns (n: State)
    requires PlainlyReached(s, expected) && s.server.Some? && s.server.value.receiving == Some(m) && m in expected
    requires s.server.value.opts == opts && s.server.value.expected == expected && s.volume.disk.files == map[]
    requires Root(PARTIAL, opts.runID) in s.volume.disk.trees
    ensures PlainlyReached(n, expected) && n.server == s.server
    ensures var d, r, path := s.volume.disk, Root(PARTIAL, opts.runID), PathOf(expected, m) + ["file"];
      n.volume.disk.tops == d.tops && n.volume.disk.trees == d.trees[r := d.trees[r][path := File(0)]]
  {
    PlainIsServing(s, expected);
    hide Finalize, PlainlyReached, Runs.Sound, Served, PathOf;
    var effect := Runs.Replace(["file"], 0, Data([], 0));
    PlainStepReaches(s, Transfer(effect), expected);
    n := Next(s, Transfer(effect));
  }

  /** A second connection, of a source at or above the first one's destination: seeding its directory takes the file
      away. */
  lemma ReceiveAbove(opts: Options, expected: map<Name, string>, m: Name, above: Name, ok: bool) returns (n: State)
    requires Served(opts.runID, expected) && m in expected && above in expected && |expected.Keys| > 1
    requires PathOf(expected, above) <= PathOf(expected, m) && (ok <==> above != m)
    ensures Filling(n, opts, expected, m, if ok then {} else {m}, {m, above})
  {
    DirsDiffer();
    hide PlainlyReached, Seed, Destination, NormalizeTargetSubpath, Next, Enabled;
    var s := ReceiveFile(opts, expected, m);
    var path, r := PathOf(expected, above), Root(PARTIAL, opts.runID);
    assert path <= PathOf(expected, m) + ["file"];
    SeedOfDirs(s.volume.disk, expected[above], opts.runID, path);
    var accepted := AcceptOne(s, opts, expected, above);
    n := FinishOne(accepted, expected, above, ok);
    assert n.server.value.left[m] == s.server.value.left[m];
    assert n.server.value.torn == if ok then {} else {m};
    assert Staged(n.volume.disk, opts.runID);
  }

  lemma {:induction false} ReceiveRest(s: State, opts: Options, expected: map<Name, string>, first: Name,
                                       torn: set<Name>, done: set<Name>)
    returns (n: State)
    requires Filling(s, opts, expected, first, torn, done) && Served(opts.runID, expected)
    requires first in done && torn <= done <= expected.Keys
    ensures Filling(n, opts, expected, first, torn, expected.Keys)
    decreases expected.Keys - done
  {
    hide Filling, Served;
    if expected.Keys - done == {} {
      n := s;
      assert done == expected.Keys by {
        assert forall m :: m in expected.Keys ==> m in done || m in expected.Keys - done;
      }
    } else {
      var m :| m in expected.Keys - done;
      var next := ReceiveEmpty(s, opts, expected, first, torn, done, m);
      n := ReceiveRest(next, opts, expected, first, torn, done + {m});
    }
  }

  /** The first two calls of finalizing a staged run. */
  lemma FinalizeStarts(d: Disk, opts: Options, t: Timestamp)
    requires Staged(d, opts.runID) && ValidTime(t) && opts.timestamp == FormatTime(t) && opts.sources == []
    requires opts.targetRoot != "" && ValidRunID(opts.runID)
    ensures var trace, d1 := Finalize(d, opts).trace, MakeFolder(d, HOURLY);
      PartialRoot(opts) in d1.trees && |trace| >= 2 && trace[0] == d1
      && trace[1] == MoveTree(d1, PartialRoot(opts), HourlyRoot(opts))
  {
    DirsDiffer();
    ParseTimeExact(opts.timestamp, t);
    hide ParseTime, ValidRunID, FormatTime, Promoted;
    assert StatRoot(d, PartialRoot(opts)) == Present(true) && StatRoot(d, HourlyRoot(opts)) == Missing;
    assert Finalize(d, opts) == PromotedPartial(d, opts);
  }

  /** The receiver is done, and the finalize command comes. */
  lemma CommandComes(s: State, expected: map<Name, string>, payload: FinalizePayload) returns (n: State)
    requires PlainlyReached(s, expected) && s.server.Some?
    requires var v := s.server.value;
      v.completed == v.expected.Keys && v.receiving.None? && v.receiver.Listening? && v.phase.Waiting?
        && v.consumed == []
    ensures PlainlyReached(n, expected) && n.volume == Runs.State(s.volume.disk, map[]) && n.server.Some?
    ensures n.server.value
         == s.server.value.(receiver := Returned, consumed := n.server.value.consumed, phase := Joining(payload))
  {
    PlainIsServing(s, expected);
    hide Finalize, PlainlyReached, Runs.Sound, Served, Underway;
    PlainStepReaches(s, Return, expected);
    var returned := Next(s, Return);
    var signal := ServeTarget.Got(Command("finalize", FinalizeBackupJob, Some(payload), None, None));
    PlainStepReaches(returned, Consume(signal), expected);
    n := Next(returned, Consume(signal));
  }

  /** Finalizing begins: the directory of hourly snapshots is made, and the promotion is next. */
  lemma FinalizeBegins(s: State, opts: Options, expected: map<Name, string>, t: Timestamp) returns (n: State)
    requires PlainlyReached(s, expected) && s.server.Some? && s.volume.sessions == map[]
    requires Staged(s.volume.disk, opts.runID)
    requires ValidTime(t) && ValidRunID(opts.runID)
    requires opts == Options("/target", opts.runID, FormatTime(t), [], opts.retention)
    requires var v := s.server.value;
      v.opts == opts && v.receiving.None? && v.receiver.Returned?
        && v.phase == Joining(FinalizePayload(opts.timestamp, [], 0))
    ensures PlainlyReached(n, expected)
    ensures n.server == Some(s.server.value.(phase := Finalizing(opts, s.volume.disk, 1)))
    ensures n.volume == Runs.State(MakeFolder(s.volume.disk, HOURLY), map[])
  {
    hide ParseTime, ValidRunID, FormatTime, Finalize, PlainlyReached, Staged, Underway, Served;
    PlainStepReaches(s, Join(opts), expected);
    var joined := Next(s, Join(opts));
    FinalizeStarts(s.volume.disk, opts, t);
    assert Makes(joined.volume.disk, Mkdir(HOURLY), OwnPromotion(opts));
    PlainStepReaches(joined, Make(Mkdir(HOURLY)), expected);
    n := Next(joined, Make(Mkdir(HOURLY)));
  }

  /** A promotion of a run with these expectations. */
  ghost predicate PromotionOf(s: State, step: Step, runID: string, expected: map<Name, string>) {
    Reachable(s) && s.server.Some? && Promotes(s, step) && s.server.value.opts.runID == runID
      && s.server.value.expected == expected
  }

  /** A process that has received everything promotes a snapshot without the file of `first`. */
  lemma FileIsLost(s: State, opts: Options, expected: map<Name, string>, first: Name, torn: set<Name>, t: Timestamp)
    returns (n: State, step: Step)
    requires Filling(s, opts, expected, first, torn, expected.Keys) && first in expected
    requires ValidTime(t) && ValidRunID(opts.runID)
    requires opts == Options("/target", opts.runID, FormatTime(t), [], opts.retention)
    ensures PlainlyReached(n, expected) && PromotionOf(n, step, opts.runID, expected) && n.server.value.torn == torn
    ensures !HoldsOf(TreeAt(Next(n, step).volume.disk, Root(HOURLY, step.call.timestamp)), n.server.value, first)
  {
    hide ParseTime, ValidRunID, FormatTime, Finalize, PlainlyReached, Reachable, Staged;
    var told := CommandComes(s, expected, FinalizePayload(opts.timestamp, [], 0));
    n := FinalizeBegins(told, opts, expected, t);
    step := Make(Promote(opts.runID, opts.timestamp));
    PlainIsReachable(n, expected);
    PromotesWithout(n, s.volume.disk, opts, expected, first, t);
  }

  lemma PromotesWithout(s: State, d: Disk, opts: Options, expected: map<Name, string>, first: Name, t: Timestamp)
    requires Reachable(s) && s.server.Some? && s.volume == Runs.State(MakeFolder(d, HOURLY), map[])
    requires Staged(d, opts.runID)
    requires ValidTime(t) && ValidRunID(opts.runID)
    requires opts == Options("/target", opts.runID, FormatTime(t), [], opts.retention)
    requires var v := s.server.value;
      v.opts == opts && v.expected == expected && v.receiving.None? && v.phase == Finalizing(opts, d, 1)
      && first in v.left && first in expected && exists p :: p in v.left[first] && v.left[first][p].File?
    ensures var step := Make(Promote(opts.runID, opts.timestamp));
      PromotionOf(s, step, opts.runID, expected)
      && !HoldsOf(TreeAt(Next(s, step).volume.disk, Root(HOURLY, opts.timestamp)), s.server.value, first)
  {
    hide FormatTime, ParseTime, ValidRunID, Finalize, Reachable, PathOf;
    DirsDiffer();
    var call := Promote(opts.runID, opts.timestamp);
    FinalizeStarts(d, opts, t);
    assert Makes(s.volume.disk, call, OwnPromotion(opts));
    assert Promotes(s, Make(call));
    var e := Next(s, Make(call)).volume.disk;
    assert e.trees[Root(HOURLY, opts.timestamp)] == d.trees[Root(PARTIAL, opts.runID)];
    var left := s.server.value.left[first];
    var p :| p in left && left[p].File?;
    var kept := Below(e.trees[Root(HOURLY, opts.timestamp)], PathOf(expected, first));
    assert p in kept ==> kept[p].Dir?;
  }

  /** An inner source's file is not in a snapshot that is promoted after the outer source was received. */
  lemma InnerIsLost(runID: string, expected: map<Name, string>, inner: Name, outer: Name, t: Timestamp)
    returns (s: State, step: Step)
    requires Served(runID, expected) && inner in expected && outer in expected && inner != outer
    requires PathOf(expected, outer) <= PathOf(expected, inner) && ValidTime(t) && ValidRunID(runID)
    ensures PlainlyReached(s, expected) && PromotionOf(s, step, runID, expected)
    ensures !SnapshotIsWhole(s, step, s.server.value.torn)
  {
    var opts := Options("/target", runID, FormatTime(t), [], Policy(-1, -1, -1, -1));
    hide Served, FormatTime, ParseTime, ValidRunID, PathOf, Filling, Next, HoldsOf, PromotionOf;
    TwoAreMany(expected.Keys, inner, outer);
    var begun := ReceiveAbove(opts, expected, inner, outer, true);
    var filled := ReceiveRest(begun, opts, expected, inner, {}, {inner, outer});
    s, step := FileIsLost(filled, opts, expected, inner, {}, t);
    LostIsNotWhole(s, step, inner, {}, runID, expected);
  }

  lemma LostIsNotWhole(s: State, step: Step, first: Name, excepted: set<Name>, runID: string,
                       expected: map<Name, string>)
    requires PromotionOf(s, step, runID, expected) && first in expected && first !in excepted
    requires !HoldsOf(TreeAt(Next(s, step).volume.disk, Root(HOURLY, step.call.timestamp)), s.server.value, first)
    ensures !SnapshotIsWhole(s, step, excepted)
  {
    hide Next, Enabled, HoldsOf, Reachable;
  }

  lemma TwoAreMany(names: set<Name>, m: Name, n: Name)
    requires m in names && n in names
    ensures m != n ==> |names| > 1
    ensures |names| > 1 && m == n ==> names - {m} != {}
  {
    assert names == {m} + (names - {m});
    if m != n { assert n in names - {m}; }
  }

  /** The file of a source that completed, and began again without success, is not in the snapshot. */
  lemma TornIsLost(runID: string, expected: map<Name, string>, m: Name, t: Timestamp) returns (s: State, step: Step)
    requires Served(runID, expected) && m in expected && |expected.Keys| > 1 && ValidTime(t) && ValidRunID(runID)
    ensures PlainlyReached(s, expected) && PromotionOf(s, step, runID, expected) && !SnapshotIsWhole(s, step, {})
  {
    var opts := Options("/target", runID, FormatTime(t), [], Policy(-1, -1, -1, -1));
    hide Served, FormatTime, ParseTime, ValidRunID, PathOf, Filling, Next, HoldsOf, PromotionOf;
    var begun := ReceiveAbove(opts, expected, m, m, false);
    assert {m, m} == {m};
    var filled := ReceiveRest(begun, opts, expected, m, {m}, {m});
    s, step := FileIsLost(filled, opts, expected, m, {m}, t);
    LostIsNotWhole(s, step, m, {}, runID, expected);
  }

  /** Promoted snapshots are whole in every run, but for sources that began again, exactly when no destination lies
      below another. */
  lemma WholeIffApart(runID: string, expected: map<Name, string>, t: Timestamp)
    requires Served(runID, expected) && ValidRunID(runID) && ValidTime(t)
    ensures (forall s, step :: PromotionOf(s, step, runID, expected) ==> SnapshotIsWhole(s, step, s.server.value.torn))
       <==> Apart(expected)
  {
    hide Served, ValidRunID, Promotes, SnapshotIsWhole, PathOf, Reachable;
    if Apart(expected) {
      forall s, step | PromotionOf(s, step, runID, expected) ensures SnapshotIsWhole(s, step, s.server.value.torn) {
        ReachedIsWhole(s, step);
      }
    } else {
      var outer, inner :| outer in expected && inner in expected && outer != inner
        && PathOf(expected, outer) <= PathOf(expected, inner);
      var s, step := InnerIsLost(runID, expected, inner, outer, t);
    }
  }

  /** Without that exception, exactly when there is no second source: the receiver accepts a completed source again
      while another one is missing, and goes on counting it as completed. */
  lemma StrictlyWholeIffAlone(runID: string, expected: map<Name, string>, t: Timestamp)
    requires Served(runID, expected) && ValidRunID(runID) && ValidTime(t)
    ensures (forall s, step :: PromotionOf(s, step, runID, expected) ==> SnapshotIsWhole(s, step, {})) <==>
      |expected.Keys| <= 1
  {
    hide Served, ValidRunID, Promotes, SnapshotIsWhole, PathOf, Reachable;
    if |expected.Keys| <= 1 {
      AloneIsApart(expected);
      forall s, step | PromotionOf(s, step, runID, expected) ensures SnapshotIsWhole(s, step, {}) {
        ReachedIsWhole(s, step);
        assert s.server.value.torn == {};
      }
    } else {
      var m :| m in expected.Keys;
      var s, step := TornIsLost(runID, expected, m, t);
    }
  }

  lemma AloneIsApart(expected: map<Name, string>)
    requires |expected.Keys| <= 1
    ensures Apart(expected)
  {
    if !Apart(expected) {
      var m, n :| m in expected && n in expected && m != n && PathOf(expected, m) <= PathOf(expected, n);
      TwoAreMany(expected.Keys, m, n);
    }
  }

  lemma ReachedIsWhole(s: State, step: Step)
    requires Reachable(s) && s.server.Some? && Promotes(s, step) && Apart(s.server.value.expected)
    ensures SnapshotIsWhole(s, step, s.server.value.torn)
      && (s.server.value.torn != {} ==> |s.server.value.expected.Keys| > 1)
  {
    hide Promotes, SnapshotIsWhole, Apart, Serving, Holds;
    var run :| Valid(run) && run.states[|run.steps|] == s;
    RunIsServing(run, |run.steps|);
    RunKeepsLeft(run, |run.steps|);
    PromotionIsWhole(s, step);
  }

  // ---------------------------------------------------------------- accepted sources

  /** The receiver's expectations of an accepted source: its effective destination below the run. */
  lemma SourceIsServed(run: Name, sources: seq<Resolved>, i: nat)
    requires run.Valid() && RunSources(Snapshot, sources) && i < |sources|
    requires ReceiverMap(Snapshot, run, sources).Ok?
    requires Agreed(Snapshot, run, sources, ReceiverMap(Snapshot, run, sources).value)
    ensures var expected, source := ReceiverMap(Snapshot, run, sources).value, sources[i];
      source.ref in expected && NormalizeTargetSubpath(expected[source.ref]) == Ok(expected[source.ref])
      && Destination(expected[source.ref]) == Some((RunID(run), Segments(source.effective)))
  {
    var expected, source := ReceiverMap(Snapshot, run, sources).value, sources[i];
    SentIsNormal(Snapshot, run, source.ref, source.destinationPath);
    EffectiveSegments(Snapshot, source.ref.ns, source.destinationPath);
    assert Accepts(Snapshot, run, expected, source);
    hide ReceiverMap, RunSources, TransferDestination, NormalizeRelative, EffectiveSnapshot, IsDnsLabel, IsDnsSubdomain;
    var sent := Requested(Snapshot, run, source).value;
    NormalizeIdempotent(sent);
    SubpathIsNormal(sent);
    PlaceOfNormal(expected[source.ref], RunID(run), Segments(source.effective));
  }

  lemma PlaceOfNormal(destination: string, run: string, path: seq<string>)
    requires (destination == "" || Normal(destination)) && Segments(destination) == [PARTIAL, run] + path && path != []
    ensures Destination(destination) == Some((run, path))
  {
    NormalIffFixed(destination);
    assert ([PARTIAL, run] + path)[2..] == path;
    hide NormalizeRelative, Segments;
  }

  /** No source's effective destination lies below another's. */
  ghost predicate SourcesApart(sources: seq<Resolved>) {
    forall i, j :: 0 <= i < |sources| && 0 <= j < |sources| && i != j ==>
      !(Segments(sources[i].effective) <= Segments(sources[j].effective))
  }

  /** The receiver accepts the controller's run id of every run. */
  lemma RunIDIsValid(run: Name)
    requires run.Valid()
    ensures ValidRunID(RunID(run))
  {
    var id := RunID(run);
    RunIDIsNormal(run);
    NormalIffFixed(id);
    SubdomainChars(run.name);
    hide IsDnsSubdomain, NormalizeRelative, Segments, Normal;
    assert id == run.ns + "-" + run.name && forall c :: c in id ==> c in run.ns || c == '-' || c in run.name;
  }

  /** From the accepted sources of a run to what its snapshots hold: the receiver serves exactly these sources, and
      every promoted snapshot holds what each of them left, exactly when no destination lies below another. */
  lemma AcceptedRunsAreWhole(run: Name, sources: seq<Resolved>, t: Timestamp)
    requires run.Valid() && RunSources(Snapshot, sources) && ValidTime(t)
    ensures ReceiverMap(Snapshot, run, sources).Ok?
    ensures var expected := ReceiverMap(Snapshot, run, sources).value;
      Served(RunID(run), expected) && expected.Keys == Refs(sources)
      && ((forall s, step :: PromotionOf(s, step, RunID(run), expected) ==>
           SnapshotIsWhole(s, step, s.server.value.torn))
          <==> SourcesApart(sources))
  {
    hide ReceiverMap, Effective, NormalizeTargetSubpath, Destination, PromotionOf, SnapshotIsWhole, ValidRunID, RunID,
      Segments;
    AcceptedSourcesAreReceived(Snapshot, run, sources);
    var expected := ReceiverMap(Snapshot, run, sources).value;
    forall i | 0 <= i < |sources|
      ensures var ref := sources[i].ref;
        ref in expected && NormalizeTargetSubpath(expected[ref]) == Ok(expected[ref])
        && Destination(expected[ref]) == Some((RunID(run), Segments(sources[i].effective)))
    {
      SourceIsServed(run, sources, i);
    }
    ApartIffSourcesApart(RunID(run), sources, expected);
    RunIDIsValid(run);
    WholeIffApart(RunID(run), expected, t);
  }

  lemma ApartIffSourcesApart(runID: string, sources: seq<Resolved>, expected: map<Name, string>)
    requires expected.Keys == Refs(sources) && forall i, j :: 0 <= i < j < |sources| ==>
      sources[i].ref != sources[j].ref
    requires forall i :: 0 <= i < |sources| ==>
      sources[i].ref in expected && NormalizeTargetSubpath(expected[sources[i].ref]) == Ok(expected[sources[i].ref])
      && Destination(expected[sources[i].ref]) == Some((runID, Segments(sources[i].effective)))
    ensures Served(runID, expected) && (Apart(expected) <==> SourcesApart(sources))
  {
    hide NormalizeTargetSubpath, Destination, Segments;
    forall n | n in expected ensures exists i :: 0 <= i < |sources| && sources[i].ref == n {
      assert n in Refs(sources);
    }
  }

  /** A run set may have such destinations: `a` and `a/b` of one namespace do not conflict, and the run serves both. */
  lemma NestedSourcesAreAccepted(ns: string, outer: Name, inner: Name)
    requires outer.Valid() && inner.Valid() && outer.ns == ns == inner.ns && outer != inner
    ensures EffectiveSnapshot(ns, "a").Ok? && EffectiveSnapshot(ns, "a/b").Ok?
    ensures CleanRelative("a") != CleanRelative("a/b")
    ensures var sources := [Resolved(outer, "a", EffectiveSnapshot(ns, "a").value),
                            Resolved(inner, "a/b", EffectiveSnapshot(ns, "a/b").value)];
      RunSources(Snapshot, sources) && !SourcesApart(sources)
  {
    hide IsDnsLabel, IsDnsSubdomain, CleanRelative, EffectiveSnapshot, Segments;
    PlainSegments(ns);
    var sources := [Resolved(outer, "a", EffectiveSnapshot(ns, "a").value),
                    Resolved(inner, "a/b", EffectiveSnapshot(ns, "a/b").value)];
    assert [ns, "a"] == [ns, "a", "b"][..2];
    assert Segments(sources[0].effective) <= Segments(sources[1].effective);
  }

  lemma PlainSegments(ns: string)
    requires IsDnsLabel(ns)
    ensures EffectiveSnapshot(ns, "a").Ok? && EffectiveSnapshot(ns, "a/b").Ok?
    ensures CleanRelative("a") != CleanRelative("a/b")
    ensures Segments(EffectiveSnapshot(ns, "a").value) == [ns, "a"]
    ensures Segments(EffectiveSnapshot(ns, "a/b").value) == [ns, "a", "b"]
  {
    PlainPaths();
    assert ns != "" && |"a"| == 1 && |"a/b"| == 3;
    hide IsDnsLabel, CleanRelative, Segments, JoinPath;
    EffectiveSegments(Snapshot, ns, "a");
    EffectiveSegments(Snapshot, ns, "a/b");
  }

  lemma PlainPaths()
    ensures CleanRelative("a") == Ok("a") && CleanRelative("a/b") == Ok("a/b")
    ensures Segments("a") == ["a"] && Segments("a/b") == ["a", "b"]
  {
    SplitPlain("a", '/');
    SplitPlain("b", '/');
    assert "a/b" == "a" + ['/'] + "b";
    SplitField("a", "b", '/');
    assert "."[0] == '.' && ".."[0] == '.' && "a"[0] == 'a' && "b"[0] == 'b';
    CleanNormal("a");
    CleanNormal("a/b");
    assert "a/b"[0] == 'a' && '\\' !in "a/b";
  }
}
