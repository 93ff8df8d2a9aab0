/** The phases of one backup run under a control service (internal/controller/reconcilers.go, events.go): the controller
    watches the generated jobs, sends the finalize command, and the target promotes and reports. */
module RunPhases {
  import opened Wrappers
  import opened Destinations
  import opened Admission

  datatype Role = TargetServer | SourceSender | OtherRole

  datatype Job = Job(role: Role, source: Name, complete: bool, failed: bool)

  // ---------------------------------------------------------------- the job scan

  /** What the scan of the generated jobs finds: the first failed one, or the progress of all. */
  datatype JobsView = FirstFailed(index: nat) | Healthy(targetComplete: bool, sourceJobs: nat, sourcesComplete: bool)

  function SourceJobs(jobs: seq<Job>): nat {
    if jobs == [] then 0 else SourceJobs(jobs[..|jobs| - 1]) + if jobs[|jobs| - 1].role.SourceSender? then 1 else 0
  }

  /** The view is that of these jobs. */
  ghost predicate Views(jobs: seq<Job>, view: JobsView) {
    match view
    case FirstFailed(index) => index < |jobs| && jobs[index].failed && forall i :: 0 <= i < index ==> !jobs[i].failed
    case Healthy(targetComplete, sourceJobs, sourcesComplete) =>
      (forall i :: 0 <= i < |jobs| ==> !jobs[i].failed) && sourceJobs == SourceJobs(jobs)
      && (targetComplete <==> exists i :: 0 <= i < |jobs| && jobs[i].role.TargetServer? && jobs[i].complete)
      && (sourcesComplete <==> forall i :: 0 <= i < |jobs| && jobs[i].role.SourceSender? ==> jobs[i].complete)
  }

  method ScanJobs(jobs: seq<Job>) returns (view: JobsView)
    ensures Views(jobs, view)
  {
    var targetComplete, sourceJobs, sourcesComplete := false, 0, true;
    for i := 0 to |jobs|
      invariant forall k :: 0 <= k < i ==> !jobs[k].failed
      invariant sourceJobs == SourceJobs(jobs[..i])
      invariant targetComplete <==> exists k :: 0 <= k < i && jobs[k].role.TargetServer? && jobs[k].complete
      invariant sourcesComplete <==> forall k :: 0 <= k < i && jobs[k].role.SourceSender? ==> jobs[k].complete
    {
      assert jobs[..i + 1][..i] == jobs[..i];
      if jobs[i].failed {
        return FirstFailed(i);
      }
      match jobs[i].role
      case TargetServer => targetComplete := targetComplete || jobs[i].complete;
      case SourceSender =>
        sourceJobs := sourceJobs + 1;
        sourcesComplete := sourcesComplete && jobs[i].complete;
      case OtherRole =>
    }
    assert jobs[..|jobs|] == jobs;
    return Healthy(targetComplete, sourceJobs, sourcesComplete);
  }

  // ---------------------------------------------------------------- the world of one run

  datatype Order = FinalizeOrder | RecoverOrder(source: Name)

  /** `status.lastCommand`. */
  datatype Last = Last(order: Order, sent: bool)

  /** The jobs, and the sources of the run set, when the finalize command was first sent. */
  datatype Evidence = Evidence(jobs: seq<Job>, sources: set<Name>)

  /** The serving process of the target: the sources that its receiver expects and has completed, how many commands it
      has taken, and whether finalize was among them. Of all the processes there were, `promoted` keeps the transfers
      that were complete at the last promotion, and `reported` whether one has reported completion. */
  datatype Process = Process(expected: set<Name>, completed: set<Name>, consumed: nat, finalize: bool,
                             promoted: Option<set<Name>>, reported: bool)

  datatype World = World(phase: Phase, ready: bool, last: Option<Last>, jobs: seq<Job>, log: seq<Order>,
                         evidence: Option<Evidence>, target: Process)

  /** What `reconcileRecoverableSourceJobFailure` does about a failed source job. */
  datatype Recovery = NotRecoverable | Waiting | Ordered(source: Name) | Retried

  /** What the environment decides in a reconcile: the run set (if it can be calculated), the source jobs that can be
      created now, whether staging asks for a requeue, and the recovery of a failed job. */
  datatype Inputs = Inputs(sources: Option<set<Name>>, created: seq<Job>, requeue: bool, recovery: Recovery,
                           accepted: bool)

  predicate FinalizeSent(w: World) {
    w.last == Some(Last(FinalizeOrder, true))
  }

  /** `EnqueueTargetCommand`: a command with a known id is not added again. */
  function Enqueued(log: seq<Order>, order: Order): seq<Order> {
    if order in log then log else log + [order]
  }

  /** `enqueueFinalizeCommand`. */
  function SendFinalize(w: World, sources: set<Name>): World {
    var marked := if FinalizeOrder in w.log && w.last.Some? && w.last.value.order == FinalizeOrder then w.last
                  else Some(Last(FinalizeOrder, true));
    w.(log := Enqueued(w.log, FinalizeOrder), last := marked,
       evidence := if w.evidence.Some? then w.evidence else Some(Evidence(w.jobs, sources)))
  }

  function Moved(w: World, phase: Phase): World { w.(phase := phase) }

  /** Creating missing source jobs; staging may ask to come back before the phase is set. */
  function Staged(w: World, inputs: Inputs): World {
    var created := w.(jobs := w.jobs + inputs.created);
    if inputs.requeue then created else Moved(created, Running)
  }

  function FailedJob(w: World, index: nat, inputs: Inputs): World
    requires index < |w.jobs|
  {
    if !w.jobs[index].role.SourceSender? then Moved(w, Failed)
    else match inputs.recovery
      case NotRecoverable => Moved(w, Failed)
      case Waiting => w
      case Ordered(source) =>
        w.(log := Enqueued(w.log, RecoverOrder(source)), last := Some(Last(RecoverOrder(source), true)))
      case Retried => Moved(w.(jobs := w.jobs[..index] + w.jobs[index + 1..]), Running)
  }

  /** `reconcileBackupJobJobStatus` with a control service. */
  function Reconciled(w: World, view: JobsView, inputs: Inputs): World
    requires view.FirstFailed? ==> view.index < |w.jobs|
  {
    if Terminal(w.phase) || w.jobs == [] then w
    else match view
      case FirstFailed(index) => FailedJob(w, index, inputs)
      case Healthy(targetComplete, sourceJobs, sourcesComplete) =>
        if sourceJobs > 0 && sourcesComplete then
          if inputs.sources.None? then Moved(w, Failed)
          else if sourceJobs < |inputs.sources.value| then Staged(w, inputs)
          else if targetComplete && FinalizeSent(w) then Moved(w, Succeeded)
          else if !inputs.accepted then Moved(w, Failed)
          else Moved(SendFinalize(w, inputs.sources.value), Finalizing)
        else if sourceJobs > 0 then Moved(w, Running)
        else if targetComplete || w.ready then if inputs.sources.None? then Moved(w, Failed) else Staged(w, inputs)
        else Moved(w, Preparing)
  }

  // ---------------------------------------------------------------- steps

  datatype Step =
    | Reconcile(view: JobsView, inputs: Inputs)
    | ChangeJob(index: nat, job: Job)
    | Resume
    | TargetReady
    | TargetFailed
    | TargetCompleted
    | Acknowledge(order: Order)
    | RestartService
    | RestartTarget(expected: set<Name>)
    | CompleteTransfer(source: Name)
    | ConsumeCommand
    | Promote
    | Report

  predicate TargetDone(job: Job) {
    job.role.TargetServer? && job.complete
  }

  /** Created jobs are new: not complete, not failed. */
  ghost predicate NewJobs(jobs: seq<Job>) {
    forall i :: 0 <= i < |jobs| ==> jobs[i].role.SourceSender? && !jobs[i].complete && !jobs[i].failed
  }

  /** The process has received the finalize command and all expected transfers. */
  predicate ReceivedAll(p: Process) {
    p.finalize && p.expected <= p.completed
  }

  /** The target promotes, and reports completion, only after it has received the finalize command and its receiver is
      done; it need not promote. Its event arrives, and its job completes, after it has reported. */
  ghost predicate Enabled(w: World, step: Step) {
    match step
    case Reconcile(view, inputs) => Views(w.jobs, view) && NewJobs(inputs.created)
    case ChangeJob(index, job) =>
      index < |w.jobs| && job.role == w.jobs[index].role && job.source == w.jobs[index].source
      && (TargetDone(job) ==> TargetDone(w.jobs[index]) || w.target.reported)
    case Resume => w.phase.Failed? && w.last.Some? && w.last.value.order.RecoverOrder?
    case TargetReady => !Terminal(w.phase)
    case TargetFailed => !Terminal(w.phase)
    case TargetCompleted => !Terminal(w.phase) && w.target.reported
    case Acknowledge(order) => true
    case RestartService => true
    case RestartTarget(expected) => true
    case CompleteTransfer(source) => source in w.target.expected
    case ConsumeCommand => w.target.consumed < |w.log|
    case Promote => ReceivedAll(w.target)
    case Report => ReceivedAll(w.target)
  }

  function Next(w: World, step: Step): World
    requires step.Reconcile? && step.view.FirstFailed? ==> step.view.index < |w.jobs|
    requires step.ChangeJob? ==> step.index < |w.jobs|
    requires step.ConsumeCommand? ==> w.target.consumed < |w.log|
  {
    match step
    case Reconcile(view, inputs) => Reconciled(w, view, inputs)
    case ChangeJob(index, job) => w.(jobs := w.jobs[index := job])
    case Resume => Moved(w, Running)
    case TargetReady => Moved(w.(ready := true), if w.phase.Preparing? || w.phase.Unset? then Running else w.phase)
    case TargetFailed => Moved(w.(ready := false), Failed)
    case TargetCompleted => Moved(w.(ready := false), Succeeded)
    case Acknowledge(order) => if w.last.Some? then w else w.(last := Some(Last(order, false)))
    case RestartService => w.(log := [], target := w.target.(consumed := 0))
    case RestartTarget(expected) => w.(target := Process(expected, {}, 0, false, w.target.promoted, w.target.reported))
    case CompleteTransfer(source) => w.(target := w.target.(completed := w.target.completed + {source}))
    case ConsumeCommand =>
      w.(target := w.target.(consumed := w.target.consumed + 1,
                             finalize := w.target.finalize || w.log[w.target.consumed].FinalizeOrder?))
    case Promote => w.(target := w.target.(promoted := Some(w.target.completed)))
    case Report => w.(target := w.target.(reported := true))
  }

  // ---------------------------------------------------------------- invariants

  /** All generated jobs are well, and there is a complete source job for (at least) each source. */
  ghost predicate AllDone(e: Evidence) {
    (forall i :: 0 <= i < |e.jobs| ==> !e.jobs[i].failed)
    && (forall i :: 0 <= i < |e.jobs| && e.jobs[i].role.SourceSender? ==> e.jobs[i].complete)
    && SourceJobs(e.jobs) >= |e.sources| && SourceJobs(e.jobs) > 0
  }

  predicate Once(log: seq<Order>) {
    forall i, j :: 0 <= i < j < |log| ==> log[i] != log[j]
  }

  ghost predicate Sound(w: World) {
    Once(w.log)
    && (w.evidence.Some? ==> AllDone(w.evidence.value))
    && (FinalizeOrder in w.log || FinalizeSent(w) || w.phase.Succeeded? ==> w.evidence.Some?)
    && (w.target.finalize || w.target.promoted.Some? || w.target.reported ==> w.evidence.Some?)
    && (w.phase.Succeeded? || (exists i :: 0 <= i < |w.jobs| && TargetDone(w.jobs[i])) ==> w.target.reported)
  }

  ghost predicate Initial(w: World) {
    w.last.None? && w.log == [] && w.evidence.None? && !w.phase.Succeeded? && !w.target.finalize
    && w.target.promoted.None?
    && !w.target.reported && forall i :: 0 <= i < |w.jobs| ==> !TargetDone(w.jobs[i])
  }

  /** Only a reconcile that sees every job well and every source job complete sends the finalize command. */
  lemma FinalizeOnlyWhenDone(w: World, view: JobsView, inputs: Inputs)
    requires Enabled(w, Reconcile(view, inputs))
    ensures FinalizeOrder !in w.log && FinalizeOrder in Reconciled(w, view, inputs).log ==>
      inputs.sources.Some? && AllDone(Evidence(w.jobs, inputs.sources.value))
        && Reconciled(w, view, inputs).phase == Finalizing
    ensures !w.phase.Succeeded? && Reconciled(w, view, inputs).phase.Succeeded? ==> FinalizeSent(w)
  {
  }

  lemma ReconcileIsSound(w: World, view: JobsView, inputs: Inputs)
    requires Sound(w) && Enabled(w, Reconcile(view, inputs))
    ensures Sound(Reconciled(w, view, inputs))
  {
    hide SourceJobs;
    if view.Healthy? && inputs.sources.Some? && view.sourceJobs > 0 && view.sourcesComplete
      && view.sourceJobs >= |inputs.sources.value| {
      assert AllDone(Evidence(w.jobs, inputs.sources.value));
    }
    hide AllDone;
  }

  lemma NextIsSound(w: World, step: Step)
    requires Sound(w) && Enabled(w, step)
    ensures Sound(Next(w, step))
  {
    if step.Reconcile? {
      ReconcileIsSound(w, step.view, step.inputs);
    } else {
      hide AllDone;
      if step.ConsumeCommand? {
        assert w.log[w.target.consumed] in w.log;
      }
    }
  }

  datatype Run = Run(states: seq<World>, steps: seq<Step>)

  ghost predicate Valid(run: Run) {
    |run.states| == |run.steps| + 1 && Initial(run.states[0])
    && forall i :: 0 <= i < |run.steps| ==>
         Enabled(run.states[i], run.steps[i]) && run.states[i + 1] == Next(run.states[i], run.steps[i])
  }

  lemma {:induction false} ReachableIsSound(run: Run, i: nat)
    requires Valid(run) && i < |run.states|
    ensures Sound(run.states[i])
  {
    if i > 0 {
      ReachableIsSound(run, i - 1);
      NextIsSound(run.states[i - 1], run.steps[i - 1]);
    }
  }

  /** No early success: whenever a run has succeeded, its target has reported completion when it had received the
      finalize command and every expected transfer; and before that, or before any promotion, there was a moment at
      which no generated job had failed and every source job, one for each source at least, was complete. In one
      lifetime of the service finalize is in its log at most once. */
  lemma NoEarlySuccess(run: Run, i: nat)
    requires Valid(run) && i < |run.states|
    ensures Once(run.states[i].log)
    ensures run.states[i].phase.Succeeded? ==>
      exists j, k :: 0 <= j < k < i && WasDone(run.states[j], run.steps[j]) && Reports(run.states[k], run.steps[k])
    ensures run.states[i].target.promoted.Some? ==> exists j :: 0 <= j < i && WasDone(run.states[j], run.steps[j])
  {
    ReachableIsSound(run, i);
    if run.states[i].target.promoted.Some? {
      EvidenceWasSeen(run, i);
    }
    if run.states[i].target.reported {
      var k := ReportWasMade(run, i);
      ReachableIsSound(run, k);
      EvidenceWasSeen(run, k);
    }
  }

  /** The step reports completion, of all that was expected. */
  ghost predicate Reports(w: World, step: Step) {
    step.Report? && ReceivedAll(w.target)
  }

  lemma {:induction false} ReportWasMade(run: Run, i: nat) returns (k: nat)
    requires Valid(run) && i < |run.states| && run.states[i].target.reported
    ensures k < i && Reports(run.states[k], run.steps[k])
  {
    assert i > 0;
    if run.states[i - 1].target.reported {
      k := ReportWasMade(run, i - 1);
    } else {
      k := i - 1;
      assert run.steps[k].Report?;
    }
  }

  /** The step sends the finalize command for the first time, and all jobs are done. */
  ghost predicate WasDone(w: World, step: Step) {
    step.Reconcile? && step.inputs.sources.Some? && AllDone(Evidence(w.jobs, step.inputs.sources.value))
    && w.evidence.None? && !FinalizeSent(w)
  }

  lemma {:induction false} EvidenceWasSeen(run: Run, i: nat)
    requires Valid(run) && i < |run.states| && run.states[i].evidence.Some?
    ensures exists k :: 0 <= k < i && WasDone(run.states[k], run.steps[k])
  {
    assert i > 0;
    var w, step := run.states[i - 1], run.steps[i - 1];
    if w.evidence.Some? {
      EvidenceWasSeen(run, i - 1);
    } else {
      ReachableIsSound(run, i - 1);
      assert step.Reconcile?;
      FinalizeOnlyWhenDone(w, step.view, step.inputs);
      assert WasDone(w, step);
    }
  }
}
