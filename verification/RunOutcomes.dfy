/** The phase that a reconcile of the generated jobs leads to (internal/controller/reconcilers.go), as conditions on the
    jobs themselves; and that a finished run succeeds. */
module RunOutcomes {
  import opened Wrappers
  import opened Destinations
  import opened Admission
  import Phases = RunPhases

  // ---------------------------------------------------------------- the jobs

  /** The jobs of the sources, by their place in the list. */
  function Senders(jobs: seq<Phases.Job>): set<int> {
    set i | 0 <= i < |jobs| && jobs[i].role == Phases.SourceSender
  }

  lemma {:induction false} SendersAreCounted(jobs: seq<Phases.Job>)
    ensures Phases.SourceJobs(jobs) == |Senders(jobs)|
  {
    if jobs == [] {
      assert Senders(jobs) == {};
    } else {
      var n := |jobs| - 1;
      SendersAreCounted(jobs[..n]);
      assert Senders(jobs) == Senders(jobs[..n]) + if jobs[n].role == Phases.SourceSender then {n} else {};
    }
  }

  ghost predicate SomeFailed(jobs: seq<Phases.Job>) {
    exists i :: 0 <= i < |jobs| && jobs[i].failed
  }

  /** The first failed job is that of a source whose failure is being recovered from, or the job is tried again. */
  ghost predicate Recovers(jobs: seq<Phases.Job>, recovery: Phases.Recovery) {
    exists k :: 0 <= k < |jobs| && jobs[k].failed && (forall i :: 0 <= i < k ==> !jobs[i].failed)
      && jobs[k].role == Phases.SourceSender && recovery != Phases.NotRecoverable
  }

  /** There are jobs of sources, and all of them are complete. */
  ghost predicate SendersComplete(jobs: seq<Phases.Job>) {
    Senders(jobs) != {} && forall i :: i in Senders(jobs) ==> jobs[i].complete
  }

  ghost predicate TargetComplete(jobs: seq<Phases.Job>) {
    exists i :: 0 <= i < |jobs| && jobs[i].role == Phases.TargetServer && jobs[i].complete
  }

  /** The step reconciles a run that goes on and has jobs. */
  ghost predicate Reconciles(w: Phases.World, step: Phases.Step) {
    step.Reconcile? && Phases.Enabled(w, step) && w.phase !in {Succeeded, Failed, Canceled} && w.jobs != []
  }

  /** The reconcile asks for the run set: all jobs of sources are complete, or there is none yet and the target is
      ready. */
  ghost predicate AsksForRunSet(w: Phases.World) {
    SendersComplete(w.jobs) || (Senders(w.jobs) == {} && (TargetComplete(w.jobs) || w.ready))
  }

  /** Every source of the run set has its job, and all these jobs are complete. */
  ghost predicate AllSent(w: Phases.World, inputs: Phases.Inputs) {
    SendersComplete(w.jobs) && inputs.sources.Some? && |Senders(w.jobs)| >= |inputs.sources.value|
  }

  /** Finalize was sent, and the target has completed. */
  ghost predicate Finished(w: Phases.World) {
    TargetComplete(w.jobs) && w.last.Some? && w.last.value.order == Phases.FinalizeOrder && w.last.value.sent
  }

  /** The run gets its missing source jobs; staging may ask to come back before the phase is set. */
  ghost predicate Stages(w: Phases.World, inputs: Phases.Inputs) {
    AsksForRunSet(w) && inputs.sources.Some? && !AllSent(w, inputs)
  }

  // ---------------------------------------------------------------- the phase afterwards

  lemma ViewIsOfJobs(w: Phases.World, view: Phases.JobsView)
    requires Phases.Views(w.jobs, view)
    ensures view.FirstFailed? <==> SomeFailed(w.jobs)
    ensures view.FirstFailed? ==> forall recovery ::
      Recovers(w.jobs, recovery) <==> w.jobs[view.index].role.SourceSender? && recovery != Phases.NotRecoverable
    ensures view.Healthy? ==>
      (view.targetComplete <==> TargetComplete(w.jobs)) && view.sourceJobs == |Senders(w.jobs)|
      && (view.sourceJobs > 0 <==> Senders(w.jobs) != {})
      && (view.sourceJobs > 0 && view.sourcesComplete <==> SendersComplete(w.jobs))
  {
    SendersAreCounted(w.jobs);
    if view.Healthy? && SendersComplete(w.jobs) {
      forall i | 0 <= i < |w.jobs| && w.jobs[i].role.SourceSender? ensures w.jobs[i].complete {
        assert i in Senders(w.jobs);
      }
    }
    if view.FirstFailed? {
      forall recovery
        ensures Recovers(w.jobs, recovery)
           <==> w.jobs[view.index].role.SourceSender? && recovery != Phases.NotRecoverable
      {
        if Recovers(w.jobs, recovery) {
          var k :| 0 <= k < |w.jobs| && w.jobs[k].failed && (forall i :: 0 <= i < k ==> !w.jobs[i].failed)
            && w.jobs[k].role == Phases.SourceSender && recovery != Phases.NotRecoverable;
          assert k == view.index;
        }
      }
    }
  }

  /** A reconcile ends a run well iff no job has failed, every source has its job, all these and the target's are
      complete, and finalize was sent. It ends the run as failed iff a job has failed that is not recovered from, or the
      run set is needed and cannot be calculated, or finalize is to be sent and is refused. */
  lemma PhaseOfRun(w: Phases.World, step: Phases.Step)
    requires Reconciles(w, step)
    ensures var inputs, p := step.inputs, Phases.Next(w, step).phase;
      var healthy := !SomeFailed(w.jobs);
      (p == Succeeded <==> healthy && AllSent(w, inputs) && Finished(w))
      && (p == Failed <==>
            (!healthy && !Recovers(w.jobs, inputs.recovery))
            || (healthy && AsksForRunSet(w) && inputs.sources == None)
            || (healthy && AllSent(w, inputs) && !Finished(w) && !inputs.accepted))
      && (healthy && AllSent(w, inputs) && !Finished(w) && inputs.accepted ==> p == Finalizing)
      && (healthy && Stages(w, inputs) ==> p == if inputs.requeue then w.phase else Running)
      && (healthy && !AsksForRunSet(w) ==> p == if Senders(w.jobs) == {} then Preparing else Running)
      && (!healthy && Recovers(w.jobs, inputs.recovery) ==>
            p == if inputs.recovery == Phases.Retried then Running else w.phase)
  {
    ViewIsOfJobs(w, step.view);
    hide SomeFailed, Recovers, SendersComplete, TargetComplete, Senders, Phases.Views, Phases.NewJobs;
  }

  // ---------------------------------------------------------------- what else it does

  /** The reconcile sends finalize. */
  ghost predicate Sends(w: Phases.World, inputs: Phases.Inputs) {
    !SomeFailed(w.jobs) && AllSent(w, inputs) && !Finished(w) && inputs.accepted
  }

  /** A recovery is ordered from the target. */
  ghost predicate Orders(w: Phases.World, inputs: Phases.Inputs) {
    SomeFailed(w.jobs) && Recovers(w.jobs, inputs.recovery) && inputs.recovery.Ordered?
  }

  /** The log grows by finalize when it is sent, and by the order of a recovery, each unless it is there; nothing else
      is enqueued. Jobs are created when the run is staged, and the first failed job goes when it is tried again. The
      state of the target is not touched. */
  lemma EffectsOfReconcile(w: Phases.World, step: Phases.Step)
    requires Reconciles(w, step)
    ensures var inputs, n := step.inputs, Phases.Next(w, step);
      n.log == (if Sends(w, inputs) && Phases.FinalizeOrder !in w.log then w.log + [Phases.FinalizeOrder]
                else if Orders(w, inputs) && Phases.RecoverOrder(inputs.recovery.source) !in w.log
                then w.log + [Phases.RecoverOrder(inputs.recovery.source)] else w.log)
      && (!Sends(w, inputs) ==>
            n.last == if Orders(w, inputs) then Some(Phases.Last(Phases.RecoverOrder(inputs.recovery.source), true))
                      else w.last)
      && n.target == w.target && n.ready == w.ready
      && (!SomeFailed(w.jobs) ==> n.jobs == if Stages(w, inputs) then w.jobs + inputs.created else w.jobs)
      && (SomeFailed(w.jobs) ==>
            if Recovers(w.jobs, inputs.recovery) && inputs.recovery == Phases.Retried
            then FirstIsGone(w.jobs, n.jobs) else n.jobs == w.jobs)
  {
    ViewIsOfJobs(w, step.view);
    if step.view.FirstFailed? { assert w.jobs[step.view.index].failed; FirstFailedIsGone(w.jobs, step.view.index); }
    hide SomeFailed, Recovers, SendersComplete, TargetComplete, Senders, Phases.Views, Phases.NewJobs, FirstIsGone;
  }

  /** `after` is `jobs` without its first failed job. */
  ghost predicate FirstIsGone(jobs: seq<Phases.Job>, after: seq<Phases.Job>) {
    exists k :: 0 <= k < |jobs| && jobs[k].failed && (forall i :: 0 <= i < k ==> !jobs[i].failed)
      && after == jobs[..k] + jobs[k + 1..]
  }

  lemma FirstFailedIsGone(jobs: seq<Phases.Job>, k: nat)
    requires k < |jobs| && jobs[k].failed
    ensures (forall i :: 0 <= i < k ==> !jobs[i].failed) ==> FirstIsGone(jobs, jobs[..k] + jobs[k + 1..])
  {
  }

  // ---------------------------------------------------------------- a finished run succeeds

  /** A finalize command in the log was marked as sent, unless a recovery was ordered after it. */
  ghost predicate MarksSent(w: Phases.World) {
    Phases.FinalizeOrder in w.log ==> w.last.Some? && (w.last.value.order == Phases.FinalizeOrder ==> w.last.value.sent)
  }

  lemma NextMarksSent(w: Phases.World, step: Phases.Step)
    requires MarksSent(w) && Phases.Enabled(w, step)
    ensures MarksSent(Phases.Next(w, step))
  {
    hide Phases.Views, Phases.NewJobs;
  }

  lemma {:induction false} ReachableMarksSent(run: Phases.Run, i: nat)
    requires Phases.Valid(run) && i < |run.states|
    ensures MarksSent(run.states[i])
  {
    hide MarksSent, Phases.Enabled, Phases.Next;
    if i > 0 {
      ReachableMarksSent(run, i - 1);
      NextMarksSent(run.states[i - 1], run.steps[i - 1]);
    } else {
      NothingSentYet(run.states[0]);
    }
  }

  lemma NothingSentYet(w: Phases.World)
    requires Phases.Initial(w)
    ensures MarksSent(w)
  {
  }

  lemma SendingMarks(w: Phases.World, step: Phases.Step)
    requires Reconciles(w, step) && MarksSent(w) && Sends(w, step.inputs)
    ensures var n := Phases.Next(w, step);
      n.phase == Finalizing && n.last == Some(Phases.Last(Phases.FinalizeOrder, true))
  {
    ViewIsOfJobs(w, step.view);
    hide SomeFailed, Recovers, SendersComplete, TargetComplete, Senders, Phases.Views, Phases.NewJobs;
  }

  /** The step leaves the mark of the last command alone. */
  lemma MarkStays(w: Phases.World, step: Phases.Step)
    requires Phases.Enabled(w, step) && w.last == Some(Phases.Last(Phases.FinalizeOrder, true))
    requires step.Reconcile? ==> !SomeFailed(w.jobs)
    ensures Phases.Next(w, step).last == w.last
  {
    if step.Reconcile? { ViewIsOfJobs(w, step.view); }
    hide SomeFailed, Phases.Views, Phases.NewJobs;
  }

  lemma {:induction false} SentStaysSent(run: Phases.Run, i: nat, j: nat)
    requires Phases.Valid(run) && i <= j < |run.states|
    requires run.states[i].last == Some(Phases.Last(Phases.FinalizeOrder, true))
    requires forall k :: i <= k < j && run.steps[k].Reconcile? ==> !SomeFailed(run.states[k].jobs)
    ensures run.states[j].last == Some(Phases.Last(Phases.FinalizeOrder, true))
    decreases j - i
  {
    if i < j {
      SentStaysSent(run, i, j - 1);
      MarkStays(run.states[j - 1], run.steps[j - 1]);
    }
  }

  /** A run is not left hanging: after a reconcile has seen the jobs of all sources complete and has sent finalize, the
      first reconcile that sees the target's job complete too ends it well, whatever events, restarts and other
      reconciles lie between, as long as no reconcile sees a failed job. */
  lemma FinishedRunSucceeds(run: Phases.Run, i: nat, j: nat)
    requires Phases.Valid(run) && i < j < |run.steps| && Reconciles(run.states[i], run.steps[i])
    requires Sends(run.states[i], run.steps[i].inputs)
    requires forall k :: i < k <= j && run.steps[k].Reconcile? ==> !SomeFailed(run.states[k].jobs)
    requires Reconciles(run.states[j], run.steps[j]) && AllSent(run.states[j], run.steps[j].inputs)
    requires TargetComplete(run.states[j].jobs)
    ensures run.states[i + 1].phase == Finalizing && run.states[j + 1].phase == Succeeded
  {
    ReachableMarksSent(run, i);
    SendingMarks(run.states[i], run.steps[i]);
    SentStaysSent(run, i + 1, j);
    PhaseOfRun(run.states[j], run.steps[j]);
  }

  // ---------------------------------------------------------------- events

  /** Apart from reconciles only events of the target and a resume change the phase: readiness starts the transfers of a
      run that is being prepared, a failure and a completion end it, and only a failed run that waits for a recovery
      goes on again. */
  lemma EventsThatMove(w: Phases.World, step: Phases.Step)
    requires Phases.Enabled(w, step) && !step.Reconcile?
    ensures step.Resume? ==> w.phase == Failed
    ensures Phases.Next(w, step).phase
         == if step.TargetFailed? then Failed
            else if step.TargetCompleted? then Succeeded
            else if step.Resume? || (step.TargetReady? && w.phase in {Unset, Preparing}) then Running
            else w.phase
  {
  }

  /** The end of a run is final: nothing but a resume changes the phase of a run that has ended. */
  lemma EndIsFinal(w: Phases.World, step: Phases.Step)
    requires Phases.Enabled(w, step) && w.phase in {Succeeded, Failed, Canceled} && !step.Resume?
    ensures Phases.Next(w, step).phase == w.phase
  {
    if !step.Reconcile? { EventsThatMove(w, step); }
  }
}
