/** The controller and the serving process together (internal/controller/reconcilers.go, internal/control/service.go,
    internal/cli/cli.go): the process takes its commands from the log of the run, and what it does is what the
    controller's protocol says a target may do. */
module SystemRuns {
  import opened Wrappers
  import opened Destinations
  import opened SnapshotStore
  import opened StoreCalls
  import Phases = RunPhases
  import Serve = ServeRuns
  import ServeTarget

  /** `received` are the sources of which some process has completed a transfer. */
  datatype State = State(world: Phases.World, serve: Serve.State, received: set<Name>)

  /** A step of the controller and its surroundings, or of the serving process. */
  datatype Step = Control(control: Phases.Step) | Work(work: Serve.Step)

  /** The steps of the protocol that are not the serving process's own. */
  predicate OfController(step: Phases.Step) {
    !step.RestartTarget? && !step.CompleteTransfer? && !step.ConsumeCommand? && !step.Promote? && !step.Report?
  }

  predicate SourceDone(job: Phases.Job) {
    job.role.SourceSender? && job.complete
  }

  /** The job of a source completes only after its sender was told of a completed transfer. */
  predicate Answered(s: State, control: Phases.Step) {
    control.ChangeJob? && control.index < |s.world.jobs|
    && SourceDone(control.job) && !SourceDone(s.world.jobs[control.index]) ==>
      control.job.source in s.received
  }

  predicate Carries(order: Phases.Order, signal: ServeTarget.Signal) {
    if order.FinalizeOrder? then ServeTarget.Finalizes(signal) else ServeTarget.Recovers(signal)
  }

  /** A command comes from the log of the run, in its order; the stream may also break off. */
  predicate FromLog(w: Phases.World, signal: ServeTarget.Signal) {
    signal.Got? ==> w.target.consumed < |w.log| && Carries(w.log[w.target.consumed], signal)
  }

  /** What the protocol sees of a step of the process. */
  ghost function Seen(s: Serve.State, step: Serve.Step): Option<Phases.Step>
    requires Serve.Attached(s) && Serve.Enabled(s, step)
  {
    match step
    case Start(_, expected) => Some(Phases.RestartTarget(expected.Keys))
    case Finish(ok) => if ok then Some(Phases.CompleteTransfer(s.server.value.receiving.value)) else None
    case Consume(signal) => if signal.Got? then Some(Phases.ConsumeCommand) else None
    case Make(call) => if call.Promote? then Some(Phases.Promote) else None
    case Report =>
      var phase := s.server.value.phase;
      if Finalize(phase.start, phase.finalOpts).points.Some? then Some(Phases.Report) else None
    case _ => None
  }

  ghost predicate Enabled(s: State, step: Step) {
    match step
    case Control(control) => OfController(control) && Phases.Enabled(s.world, control) && Answered(s, control)
    case Work(work) =>
      Serve.Attached(s.serve) && Serve.Enabled(s.serve, work) && (work.Consume? ==> FromLog(s.world, work.signal))
  }

  ghost function Next(s: State, step: Step): State
    requires Enabled(s, step)
  {
    match step
    case Control(control) => s.(world := Phases.Next(s.world, control))
    case Work(work) =>
      State(match Seen(s.serve, work) case None => s.world case Some(seen) => Phases.Next(s.world, seen),
            Serve.Next(s.serve, work),
            if work == Serve.Finish(true) then s.received + {s.serve.server.value.receiving.value} else s.received)
  }

  // ---------------------------------------------------------------- agreement

  /** What the protocol knows of a serving process. */
  ghost predicate Shows(v: Serve.Server, p: Phases.Process) {
    p.expected == v.expected.Keys && p.completed == v.completed
    && (p.finalize <==> exists i :: 0 <= i < |v.consumed| && ServeTarget.Finalizes(v.consumed[i]))
  }

  ghost predicate Agree(s: State) {
    Serve.Serving(s.serve) && Serve.KeepsLeft(s.serve) && Phases.Sound(s.world)
    && (s.serve.server.Some? ==> Shows(s.serve.server.value, s.world.target))
  }

  /** Every gate that the protocol puts to the target is kept by the serving process. */
  lemma SeenIsEnabled(s: State, work: Serve.Step)
    requires Agree(s) && Enabled(s, Work(work)) && Seen(s.serve, work).Some?
    ensures Phases.Enabled(s.world, Seen(s.serve, work).value)
  {
    hide Serve.KeepsLeft, Phases.Sound, Finalize, Serve.Served, ServeTarget.Ordered, Serve.ServerSound;
    if work.Make? || work.Report? {
      Serve.FinalizingIsCovered(s.serve);
      hide Serve.Serving, Serve.Enabled;
    }
  }

  lemma WorkShows(s: State, work: Serve.Step)
    requires Agree(s) && Enabled(s, Work(work)) && Next(s, Work(work)).serve.server.Some?
    ensures Shows(Next(s, Work(work)).serve.server.value, Next(s, Work(work)).world.target)
  {
    if work.Consume? { ConsumeShows(s, work.signal); } else { OtherShows(s, work); }
  }

  lemma ConsumeShows(s: State, signal: ServeTarget.Signal)
    requires Agree(s) && Enabled(s, Work(Serve.Consume(signal)))
    ensures var n := Next(s, Work(Serve.Consume(signal)));
      n.serve.server.Some? && Shows(n.serve.server.value, n.world.target)
  {
    hide ServeTarget.Finalizes, ServeTarget.Recovers, ServeTarget.Aborts, ServeTarget.Ordered, Serve.ServerSound,
      Finalize,
      Serve.KeepsLeft, Serve.Serving, Phases.Sound, Carries;
    var before := s.serve.server.value.consumed;
    assert (before + [signal])[|before|] == signal;
    assert forall i :: 0 <= i < |before| ==> (before + [signal])[i] == before[i];
    FromLogFinalizes(s.world, signal);
  }

  /** What the protocol knows changes with a start and with a completed transfer only. */
  lemma OtherChanges(s: Serve.State, work: Serve.Step)
    requires Serve.Attached(s) && Serve.Enabled(s, work) && !work.Consume? && Serve.Next(s, work).server.Some?
    ensures var w := Serve.Next(s, work).server.value;
      if work.Start? then w.expected == work.expected && w.completed == {} && w.consumed == []
      else s.server.Some? && var v := s.server.value;
        w.expected == v.expected && w.consumed == v.consumed
        && (work == Serve.Finish(true) ==> v.receiving.Some?)
        && w.completed == if work == Serve.Finish(true) then v.completed + {v.receiving.value} else v.completed
  {
    hide Finalize, Serve.Served, ServeTarget.Ordered;
  }

  lemma SeenChanges(s: State, work: Serve.Step)
    requires Enabled(s, Work(work)) && !work.Consume?
    ensures var p, q := s.world.target, Next(s, Work(work)).world.target;
      if work.Start? then q.expected == work.expected.Keys && q.completed == {} && !q.finalize
      else
        q.expected == p.expected && q.finalize == p.finalize
        && (work == Serve.Finish(true) ==> s.serve.server.Some? && s.serve.server.value.receiving.Some?)
        && q.completed ==
           if work == Serve.Finish(true) then p.completed + {s.serve.server.value.receiving.value} else p.completed
  {
    hide Finalize, Serve.Served, ServeTarget.Ordered, Serve.Next;
  }

  lemma OtherShows(s: State, work: Serve.Step)
    requires Agree(s) && Enabled(s, Work(work)) && !work.Consume? && Next(s, Work(work)).serve.server.Some?
    ensures Shows(Next(s, Work(work)).serve.server.value, Next(s, Work(work)).world.target)
  {
    OtherChanges(s.serve, work);
    SeenChanges(s, work);
    assert Next(s, Work(work)).serve == Serve.Next(s.serve, work);
    hide ServeTarget.Finalizes, Serve.KeepsLeft, Serve.Serving, Phases.Sound, Enabled, Next, Serve.Next;
  }

  lemma FromLogFinalizes(w: Phases.World, signal: ServeTarget.Signal)
    requires FromLog(w, signal)
    ensures ServeTarget.Finalizes(signal) <==> signal.Got? && w.log[w.target.consumed].FinalizeOrder?
  {
  }

  lemma NextAgrees(s: State, step: Step)
    requires Agree(s) && Enabled(s, step)
    ensures Agree(Next(s, step))
  {
    hide Serve.KeepsLeft, Serve.Serving, Phases.Sound, Shows, Finalize;
    match step
    case Control(control) =>
      Phases.NextIsSound(s.world, control);
      ControlKeepsTarget(s.world, control);
      if s.serve.server.Some? { SameShown(s.serve.server.value, s.world.target, Phases.Next(s.world, control).target); }
    case Work(work) =>
      Serve.StepKeepsServing(s.serve, work);
      Serve.StepKeepsLeft(s.serve, work);
      SeenIsSound(s, work);
      if Next(s, step).serve.server.Some? { WorkShows(s, work); }
  }

  lemma SameShown(v: Serve.Server, p: Phases.Process, q: Phases.Process)
    requires Shows(v, p) && q.expected == p.expected && q.completed == p.completed && q.finalize == p.finalize
    ensures Shows(v, q)
  {
  }

  lemma ControlKeepsTarget(w: Phases.World, step: Phases.Step)
    requires OfController(step) && Phases.Enabled(w, step)
    ensures var p, q := w.target, Phases.Next(w, step).target;
      q.expected == p.expected && q.completed == p.completed && q.finalize == p.finalize
  {
  }

  lemma SeenIsSound(s: State, work: Serve.Step)
    requires Agree(s) && Enabled(s, Work(work))
    ensures Phases.Sound(Next(s, Work(work)).world)
  {
    if Seen(s.serve, work).Some? {
      SeenIsEnabled(s, work);
      hide Serve.KeepsLeft, Serve.Serving, Shows, Finalize, Serve.Enabled, Phases.Sound, Phases.Enabled;
      Phases.NextIsSound(s.world, Seen(s.serve, work).value);
    }
    hide Phases.Sound;
  }

  /** What is known to be complete was received. */
  ghost predicate Receipts(s: State) {
    (s.serve.server.Some? ==> s.serve.server.value.completed <= s.received)
    && forall i :: 0 <= i < |s.world.jobs| && SourceDone(s.world.jobs[i]) ==> s.world.jobs[i].source in s.received
  }

  lemma NextKeepsReceipts(s: State, step: Step)
    requires Receipts(s) && Enabled(s, step)
    ensures Receipts(Next(s, step))
  {
    match step
    case Control(control) => ControlKeepsReceipts(s, control);
    case Work(work) => WorkKeepsReceipts(s, work);
  }

  lemma ControlKeepsReceipts(s: State, control: Phases.Step)
    requires Receipts(s) && Enabled(s, Control(control))
    ensures Receipts(Next(s, Control(control)))
  {
  }

  lemma CompletedAreReceived(s: State, work: Serve.Step)
    requires Receipts(s) && Enabled(s, Work(work))
    ensures var n := Next(s, Work(work));
      s.received <= n.received && (n.serve.server.Some? ==> n.serve.server.value.completed <= n.received)
  {
    hide Finalize, Serve.Served, ServeTarget.Ordered, Phases.Next, Phases.Enabled, Seen, SourceDone;
  }

  lemma JobsStay(s: State, work: Serve.Step)
    requires Enabled(s, Work(work))
    ensures Next(s, Work(work)).world.jobs == s.world.jobs
  {
    hide Finalize, Serve.Served, ServeTarget.Ordered, Serve.Next;
  }

  lemma WorkKeepsReceipts(s: State, work: Serve.Step)
    requires Receipts(s) && Enabled(s, Work(work))
    ensures Receipts(Next(s, Work(work)))
  {
    hide Seen;
    CompletedAreReceived(s, work);
    JobsStay(s, work);
    hide Enabled, Next;
  }

  // ---------------------------------------------------------------- runs

  datatype Run = Run(states: seq<State>, steps: seq<Step>)

  /** A run from a new volume and a new backup run. */
  ghost predicate Valid(run: Run) {
    |run.states| == |run.steps| + 1 && Initial(run.states[0])
    && forall i :: 0 <= i < |run.steps| ==> StepOf(run.states[i], run.steps[i], run.states[i + 1])
  }

  ghost predicate Initial(s: State) {
    s.serve == Serve.NEW && Phases.Initial(s.world) && s.received == {}
    && forall i :: 0 <= i < |s.world.jobs| ==> !SourceDone(s.world.jobs[i])
  }

  ghost predicate StepOf(s: State, step: Step, n: State) {
    Enabled(s, step) && n == Next(s, step)
  }

  lemma InitiallyAgrees(s: State)
    requires Initial(s)
    ensures Agree(s) && Receipts(s)
  {
    Serve.InitiallyServing();
    Serve.NothingLeft();
  }

  lemma {:induction false} RunAgrees(run: Run, i: nat)
    requires Valid(run) && i < |run.states|
    ensures Agree(run.states[i]) && Receipts(run.states[i])
  {
    hide Agree, Receipts, Enabled, Next;
    if i == 0 {
      InitiallyAgrees(run.states[0]);
    } else {
      RunAgrees(run, i - 1);
      assert StepOf(run.states[i - 1], run.steps[i - 1], run.states[i]);
      NextAgrees(run.states[i - 1], run.steps[i - 1]);
      NextKeepsReceipts(run.states[i - 1], run.steps[i - 1]);
    }
  }

  /** The controller sends finalize for the first time, when no generated job has failed and every source job is
      complete. */
  ghost predicate SendsFinalize(s: State, step: Step) {
    step.Control? && Phases.WasDone(s.world, step.control)
  }

  /** Of every source that has a job, a transfer was completed. */
  ghost predicate JobsReceived(s: State) {
    forall i :: 0 <= i < |s.world.jobs| && s.world.jobs[i].role.SourceSender? ==> s.world.jobs[i].source in s.received
  }

  lemma SentAfterTransfers(s: State, step: Step)
    requires Receipts(s) && SendsFinalize(s, step)
    ensures JobsReceived(s)
  {
  }

  lemma {:induction false} EvidenceWasSent(run: Run, i: nat) returns (j: nat)
    requires Valid(run) && i < |run.states| && run.states[i].world.evidence.Some?
    ensures j < i && SendsFinalize(run.states[j], run.steps[j])
  {
    assert i > 0;
    var s, step := run.states[i - 1], run.steps[i - 1];
    assert StepOf(s, step, run.states[i]);
    RunAgrees(run, i - 1);
    if s.world.evidence.Some? {
      j := EvidenceWasSent(run, i - 1);
    } else {
      j := i - 1;
      hide Valid, StepOf;
      EvidenceIsSent(s, step);
    }
  }

  lemma EvidenceIsSent(s: State, step: Step)
    requires Agree(s) && Enabled(s, step) && s.world.evidence.None? && Next(s, step).world.evidence.Some?
    ensures SendsFinalize(s, step)
  {
    hide Serve.KeepsLeft, Serve.Serving, Serve.Enabled, Finalize;
    assert step.Control? && step.control.Reconcile?;
    Phases.FinalizeOnlyWhenDone(s.world, step.control.view, step.control.inputs);
  }

  /** In every run of controller and target together: a promotion, or a reported completion, comes after the controller
      has seen every generated job well and every source job complete, when each of these sources had completed a
      transfer, and has sent finalize; the process has received that from the log, and every source it expects has
      completed its transfer. */
  lemma PromotionsAreEarned(run: Run, i: nat)
    requires Valid(run) && i < |run.steps| && run.steps[i].Work?
    requires (run.steps[i].work.Make? && run.steps[i].work.call.Promote?) || run.steps[i].work.Report?
    ensures run.states[i].serve.server.Some? && Serve.Covered(run.states[i].serve.server.value)
    ensures exists j :: 0 <= j < i && SendsFinalize(run.states[j], run.steps[j]) && JobsReceived(run.states[j])
  {
    RunAgrees(run, i);
    var s := run.states[i];
    assert StepOf(s, run.steps[i], run.states[i + 1]);
    FinalizingWasSent(s, run.steps[i].work);
    hide Agree, Receipts, StepOf, Enabled, Serve.Covered, SendsFinalize, JobsReceived;
    var j := EvidenceWasSent(run, i);
    RunAgrees(run, j);
    SentAfterTransfers(run.states[j], run.steps[j]);
  }

  lemma FinalizingWasSent(s: State, work: Serve.Step)
    requires Agree(s) && Enabled(s, Work(work)) && (work.Make? || work.Report?)
    ensures s.serve.server.Some? && Serve.Covered(s.serve.server.value) && s.world.evidence.Some?
  {
    hide Serve.KeepsLeft, Finalize, Serve.ServerSound, ServeTarget.Finalizes, ServeTarget.Ordered;
    Serve.FinalizingIsCovered(s.serve);
    hide Serve.Serving;
  }
}
