/** The controller's gate and the failing runs of the serving process: what the process does when it takes one finalize
    command after its receiver has returned, it does under the controller too. The exact conditions of its snapshots are
    the same. */
module GatedRuns {
  import opened Wrappers
  import opened Calendar
  import opened Destinations
  import opened SnapshotStore
  import opened SystemRuns
  import Admission
  import Phases = RunPhases
  import Serve = ServeRuns
  import ServeTarget
  import Completion

  // ---------------------------------------------------------------- reachable states

  ghost predicate Reachable(s: State) {
    exists run :: Valid(run) && run.states[|run.steps|] == s
  }

  lemma StepReaches(s: State, step: Step)
    requires Reachable(s) && Enabled(s, step)
    ensures Reachable(Next(s, step))
  {
    hide Next, Enabled;
    var run :| Valid(run) && run.states[|run.steps|] == s;
    var longer := Run(run.states + [Next(s, step)], run.steps + [step]);
    forall i | 0 <= i < |longer.steps| ensures StepOf(longer.states[i], longer.steps[i], longer.states[i + 1]) {
      if i < |run.steps| { assert StepOf(run.states[i], run.steps[i], run.states[i + 1]); }
    }
    assert Valid(longer) && longer.states[|longer.steps|] == Next(s, step);
  }

  lemma InitialIsReachable(s: State)
    requires Initial(s)
    ensures Reachable(s)
  {
    var run := Run([s], []);
    assert Valid(run) && run.states[|run.steps|] == s;
  }

  lemma ReachedAgrees(s: State)
    requires Reachable(s)
    ensures Agree(s) && Receipts(s)
  {
    hide Agree, Receipts;
    var run :| Valid(run) && run.states[|run.steps|] == s;
    RunAgrees(run, |run.steps|);
  }

  /** The process of a reachable state is a reachable process. */
  lemma {:induction false} RunIsServed(run: Run, i: nat)
    requires Valid(run) && i < |run.states|
    ensures Serve.Reachable(run.states[i].serve)
  {
    hide Serve.Reachable, Serve.Enabled, Serve.Attached, Serve.Next, Phases.Enabled, Phases.Next, Seen;
    if i == 0 {
      Serve.NewIsReachable();
    } else {
      RunIsServed(run, i - 1);
      var s, step := run.states[i - 1], run.steps[i - 1];
      assert StepOf(s, step, run.states[i]);
      if step.Work? { Serve.StepReaches(s.serve, step.work); }
    }
  }

  lemma ReachedIsServed(s: State)
    requires Reachable(s)
    ensures Serve.Reachable(s.serve)
  {
    hide Serve.Reachable;
    var run :| Valid(run) && run.states[|run.steps|] == s;
    RunIsServed(run, |run.steps|);
  }

  // ---------------------------------------------------------------- the controller follows the process

  /** A new run: only the job of the target is there. */
  const FRESH := Phases.World(Admission.Preparing, false, None, [TARGET], [], None,
                              Phases.Process({}, {}, 0, false, None, false))

  const TARGET := Phases.Job(Phases.TargetServer, Name("", ""), false, false)

  predicate SourceJob(job: Phases.Job, names: set<Name>) {
    job.role.SourceSender? && !job.failed && job.source in names
  }

  /** The jobs of the target and of all sources. */
  ghost predicate JobsOf(jobs: seq<Phases.Job>, names: set<Name>) {
    |jobs| == 1 + |names| && jobs[0] == TARGET && forall i :: 1 <= i < |jobs| ==> SourceJob(jobs[i], names)
  }

  /** How far the controller is: nothing done yet, or all jobs created, or finalize sent. */
  ghost predicate Follows(w: Phases.World, serve: Serve.State, names: set<Name>) {
    (w.jobs == [TARGET] && w.log == [] && w.phase.Preparing? && serve.server.None?)
    || (JobsOf(w.jobs, names) && (w.log == [Phases.FinalizeOrder] || (w.log == [] && !Admission.Terminal(w.phase))))
  }

  /** The state of both when the process has reached `serve` by plain steps. */
  ghost predicate Mirrors(s: State, serve: Serve.State, expected: map<Name, string>) {
    Reachable(s) && s.serve == serve && Follows(s.world, serve, expected.Keys)
    && (serve.server.Some? ==>
          serve.server.value.expected == expected
            && (serve.server.value.consumed == [] ==> s.world.target.consumed == 0))
  }

  lemma {:induction false} CountSenders(jobs: seq<Phases.Job>, names: set<Name>)
    requires |jobs| > 0 && jobs[0] == TARGET && forall i :: 1 <= i < |jobs| ==> SourceJob(jobs[i], names)
    ensures Phases.SourceJobs(jobs) == |jobs| - 1
  {
    if |jobs| > 1 {
      CountSenders(jobs[..|jobs| - 1], names);
    } else {
      assert jobs == [TARGET];
    }
  }

  lemma {:induction false} NewJobsOf(names: set<Name>) returns (jobs: seq<Phases.Job>)
    ensures |jobs| == |names| && Phases.NewJobs(jobs) && forall i :: 0 <= i < |jobs| ==> SourceJob(jobs[i], names)
    decreases names
  {
    if names == {} {
      jobs := [];
    } else {
      var n :| n in names;
      jobs := NewJobsOf(names - {n});
      jobs := jobs + [Phases.Job(Phases.SourceSender, n, false, false)];
    }
  }

  function Sources(names: set<Name>, created: seq<Phases.Job>): Phases.Inputs {
    Phases.Inputs(Some(names), created, false, Phases.NotRecoverable, true)
  }

  /** The target is ready, and the controller creates the jobs of the sources. */
  lemma CreateJobs(s: State, names: set<Name>) returns (n: State)
    requires Reachable(s) && s.world.jobs == [TARGET] && s.world.log == [] && s.world.phase.Preparing?
    ensures Reachable(n) && n == s.(world := n.world) && n.world.target == s.world.target
    ensures JobsOf(n.world.jobs, names) && n.world.log == [] && n.world.phase.Running?
  {
    hide Reachable;
    StepReaches(s, Control(Phases.TargetReady));
    var ready := Next(s, Control(Phases.TargetReady));
    var created := NewJobsOf(names);
    CountSenders([TARGET], names);
    var view := Phases.Healthy(false, 0, true);
    assert Phases.Views(ready.world.jobs, view);
    StepReaches(ready, Control(Phases.Reconcile(view, Sources(names, created))));
    n := Next(ready, Control(Phases.Reconcile(view, Sources(names, created))));
  }

  /** The jobs of received sources complete, one after the other. */
  lemma {:induction false} CompleteJobs(s: State, names: set<Name>, k: nat) returns (n: State)
    requires Reachable(s) && JobsOf(s.world.jobs, names) && names <= s.received && 1 <= k <= |s.world.jobs|
    requires forall i :: 1 <= i < k ==> s.world.jobs[i].complete
    ensures Reachable(n) && n == s.(world := s.world.(jobs := n.world.jobs))
    ensures JobsOf(n.world.jobs, names) && forall i :: 1 <= i < |n.world.jobs| ==> n.world.jobs[i].complete
    decreases |s.world.jobs| - k
  {
    hide Reachable;
    if k == |s.world.jobs| {
      n := s;
    } else {
      assert SourceJob(s.world.jobs[k], names);
      var step := Control(Phases.ChangeJob(k, s.world.jobs[k].(complete := true)));
      StepReaches(s, step);
      n := CompleteJobs(Next(s, step), names, k + 1);
    }
  }

  /** The controller sees all jobs complete, and sends finalize. */
  lemma SendFinalize(s: State, names: set<Name>) returns (n: State)
    requires Reachable(s) && JobsOf(s.world.jobs, names) && names != {} && s.world.log == []
    requires forall i :: 1 <= i < |s.world.jobs| ==> s.world.jobs[i].complete
    requires !Admission.Terminal(s.world.phase)
    ensures Reachable(n) && n == s.(world := n.world) && n.world.target == s.world.target
    ensures n.world.jobs == s.world.jobs && n.world.log == [Phases.FinalizeOrder]
  {
    hide Reachable;
    var jobs := s.world.jobs;
    CountSenders(jobs, names);
    assert jobs[1].role.SourceSender?;
    var view := Phases.Healthy(false, |names|, true);
    assert Phases.Views(jobs, view);
    StepReaches(s, Control(Phases.Reconcile(view, Sources(names, []))));
    n := Next(s, Control(Phases.Reconcile(view, Sources(names, []))));
  }

  // ---------------------------------------------------------------- plain runs

  /** The process's own part of the invariant. */
  lemma PlainStepExpects(s: Serve.State, work: Serve.Step, expected: map<Name, string>)
    requires Serve.Attached(s) && Serve.Enabled(s, work) && Serve.PlainStep(s, work, expected)
    requires s.server.Some? ==> s.server.value.expected == expected
    ensures Serve.Next(s, work).server.Some? ==> Serve.Next(s, work).server.value.expected == expected
  {
    hide Finalize, Serve.Served, ServeTarget.Ordered;
  }

  /** A step of the process that takes no command changes neither the jobs nor the log. */
  lemma OtherStepChanges(s: State, work: Serve.Step)
    requires Enabled(s, Work(work)) && !work.Consume?
    ensures var w, n := s.world, Next(s, Work(work)).world;
      n.jobs == w.jobs && n.log == w.log && n.phase == w.phase
        && n.target.consumed == if work.Start? then 0 else w.target.consumed
  {
    hide Finalize, Serve.Served, ServeTarget.Ordered, Serve.Next;
  }

  lemma OtherStepConsumes(s: Serve.State, work: Serve.Step)
    requires Serve.Attached(s) && Serve.Enabled(s, work) && !work.Consume?
    ensures var n := Serve.Next(s, work);
      if work.Start? || work.Exit? then n.server.Some? <==> work.Start?
      else s.server.Some? && n.server.Some? && n.server.value.consumed == s.server.value.consumed
  {
    hide Finalize, Serve.Served, ServeTarget.Ordered;
  }

  lemma OtherStepFollows(s: State, work: Serve.Step, expected: map<Name, string>) returns (n: State)
    requires Mirrors(s, s.serve, expected) && Serve.Attached(s.serve) && Serve.Enabled(s.serve, work)
    requires Serve.PlainStep(s.serve, work, expected) && !work.Consume?
    ensures Mirrors(n, Serve.Next(s.serve, work), expected)
  {
    PlainStepExpects(s.serve, work, expected);
    OtherStepConsumes(s.serve, work);
    OtherStepChanges(s, work);
    StepReaches(s, Work(work));
    n := Next(s, Work(work));
    assert n.serve == Serve.Next(s.serve, work);
    assert work.Start? ==> s.serve.server.None?;
    assert s.serve.server.None? ==> work.Start?;
    hide Reachable, Serve.Next, Serve.Enabled, Serve.Attached, JobsOf, Seen, Next, Enabled;
    if work.Start? && s.world.jobs == [TARGET] && s.world.log == [] && s.world.phase.Preparing? {
      n := CreateJobs(n, expected.Keys);
    }
  }

  /** Before a process takes its first command, the controller has sent it: all that is expected was received. */
  lemma FinalizeIsSent(s: State, expected: map<Name, string>) returns (n: State)
    requires Mirrors(s, s.serve, expected) && expected.Keys != {}
    requires s.serve.server.Some? && s.serve.server.value.consumed == [] && s.serve.server.value.receiver.Returned?
    ensures Mirrors(n, s.serve, expected) && n.world.log == [Phases.FinalizeOrder]
  {
    hide Reachable;
    n := s;
    if s.world.log == [] {
      ReturnedHasReceived(s);
      var complete := CompleteJobs(s, expected.Keys, 1);
      n := SendFinalize(complete, expected.Keys);
    }
  }

  lemma ReturnedHasReceived(s: State)
    requires Reachable(s) && s.serve.server.Some? && s.serve.server.value.receiver.Returned?
    ensures s.serve.server.value.expected.Keys <= s.received
  {
    ReachedAgrees(s);
    hide Reachable, Finalize, Serve.Served, ServeTarget.Ordered, Serve.KeepsLeft, Phases.Sound, Shows;
  }

  lemma CommandFollows(s: State, work: Serve.Step, expected: map<Name, string>) returns (n: State)
    requires Mirrors(s, s.serve, expected) && expected.Keys != {} && Serve.Attached(s.serve)
    requires Serve.Enabled(s.serve, work)
    requires Serve.PlainStep(s.serve, work, expected) && work.Consume?
    ensures Mirrors(n, Serve.Next(s.serve, work), expected)
  {
    hide Reachable, JobsOf, Serve.Served, Serve.Attached;
    PlainStepExpects(s.serve, work, expected);
    var sent := FinalizeIsSent(s, expected);
    StepReaches(sent, Work(work));
    n := Next(sent, Work(work));
  }

  lemma NewMirrors(expected: map<Name, string>) returns (s: State)
    ensures Mirrors(s, Serve.NEW, expected)
  {
    hide Reachable;
    s := State(FRESH, Serve.NEW, {});
    InitialIsReachable(s);
  }

  /** Whatever a process reaches by plain steps, it reaches under the controller. */
  lemma {:induction false} PlainRunFollows(run: Serve.Run, expected: map<Name, string>, i: nat) returns (s: State)
    requires Serve.Valid(run) && Serve.Plain(run, expected) && expected.Keys != {} && i < |run.states|
    ensures Mirrors(s, run.states[i], expected)
  {
    hide Mirrors, Serve.Attached, Serve.Enabled, Serve.PlainStep, Serve.Next;
    if i == 0 {
      s := NewMirrors(expected);
    } else {
      var before := PlainRunFollows(run, expected, i - 1);
      assert before.serve == run.states[i - 1] by { MirrorsIsReachable(before, run.states[i - 1], expected); }
      var work := run.steps[i - 1];
      assert Serve.StepOf(run.states[i - 1], work, run.states[i]) && Serve.PlainStep(run.states[i - 1], work, expected);
      if work.Consume? {
        s := CommandFollows(before, work, expected);
      } else {
        s := OtherStepFollows(before, work, expected);
      }
    }
  }

  lemma MirrorsIsReachable(s: State, serve: Serve.State, expected: map<Name, string>)
    requires Mirrors(s, serve, expected)
    ensures Reachable(s) && s.serve == serve
  {
  }

  lemma PlainIsReachable(serve: Serve.State, expected: map<Name, string>) returns (s: State)
    requires Serve.PlainlyReached(serve, expected) && expected.Keys != {}
    ensures Reachable(s) && s.serve == serve
  {
    hide Serve.Valid, Mirrors, Reachable;
    var run :| Serve.Valid(run) && Serve.Plain(run, expected) && run.states[|run.steps|] == serve;
    hide Serve.Plain;
    s := PlainRunFollows(run, expected, |run.steps|);
    MirrorsIsReachable(s, serve, expected);
  }

  // ---------------------------------------------------------------- what promoted snapshots hold

  /** A promotion under the controller of a run with these expectations. */
  ghost predicate PromotionOf(s: State, work: Serve.Step, runID: string, expected: map<Name, string>) {
    Reachable(s) && Enabled(s, Work(work)) && work.Make? && work.call.Promote?
    && s.serve.server.Some? && s.serve.server.value.opts.runID == runID && s.serve.server.value.expected == expected
  }

  lemma PromotionIsServed(s: State, work: Serve.Step, runID: string, expected: map<Name, string>)
    requires PromotionOf(s, work, runID, expected)
    ensures Serve.PromotionOf(s.serve, work, runID, expected)
  {
    ReachedIsServed(s);
    hide Reachable, Serve.Reachable;
  }

  lemma PromotionIsGated(s: State, work: Serve.Step, runID: string, expected: map<Name, string>)
    requires Reachable(s) && Serve.PromotionOf(s.serve, work, runID, expected)
    ensures PromotionOf(s, work, runID, expected)
  {
    hide Reachable, Serve.Reachable, Serve.Attached, Serve.Enabled;
  }

  /** The controller's gate changes nothing: snapshots promoted under it are whole, but for sources that began again,
      exactly when no destination lies below another, */
  lemma WholeIffApart(runID: string, expected: map<Name, string>, t: Timestamp)
    requires Serve.Served(runID, expected) && ValidRunID(runID) && ValidTime(t)
    ensures (forall s, work :: PromotionOf(s, work, runID, expected) ==>
                                 Serve.SnapshotIsWhole(s.serve, work, s.serve.server.value.torn))
       <==> Serve.Apart(expected)
  {
    hide Serve.Served, ValidRunID, ValidTime, Serve.Promotes, Serve.SnapshotIsWhole, Serve.PathOf, Serve.Reachable,
      Reachable, Enabled, Serve.PlainlyReached;
    forall s, work | PromotionOf(s, work, runID, expected) ensures Serve.PromotionOf(s.serve, work, runID, expected) {
      PromotionIsServed(s, work, runID, expected);
    }
    if Serve.Apart(expected) {
      Serve.WholeIffApart(runID, expected, t);
    } else {
      var outer, inner :| outer in expected && inner in expected && outer != inner
        && Serve.PathOf(expected, outer) <= Serve.PathOf(expected, inner);
      var serve, work := Serve.InnerIsLost(runID, expected, inner, outer, t);
      var s := PlainIsReachable(serve, expected);
      PromotionIsGated(s, work, runID, expected);
    }
  }

  /** and without that exception exactly when there is no second source. */
  lemma StrictlyWholeIffAlone(runID: string, expected: map<Name, string>, t: Timestamp)
    requires Serve.Served(runID, expected) && ValidRunID(runID) && ValidTime(t)
    ensures (forall s, work :: PromotionOf(s, work, runID, expected) ==> Serve.SnapshotIsWhole(s.serve, work, {}))
       <==> |expected.Keys| <= 1
  {
    hide Serve.Served, ValidRunID, ValidTime, Serve.Promotes, Serve.SnapshotIsWhole, Serve.PathOf, Serve.Reachable,
      Reachable, Enabled, Serve.PlainlyReached;
    forall s, work | PromotionOf(s, work, runID, expected) ensures Serve.PromotionOf(s.serve, work, runID, expected) {
      PromotionIsServed(s, work, runID, expected);
    }
    if |expected.Keys| <= 1 {
      Serve.StrictlyWholeIffAlone(runID, expected, t);
    } else {
      var m :| m in expected.Keys;
      var serve, work := Serve.TornIsLost(runID, expected, m, t);
      var s := PlainIsReachable(serve, expected);
      PromotionIsGated(s, work, runID, expected);
    }
  }

  /** Under the controller, too, a process may report completion of a run that it has not promoted. */
  lemma CompletionWithoutPromotion(runID: string, expected: map<Name, string>, m: Name, t: Timestamp)
    requires Serve.Served(runID, expected) && expected.Keys == {m} && ValidRunID(runID) && ValidTime(t)
    ensures exists s :: Reachable(s) && Completion.CompletesWithout(s.serve, m)
  {
    hide Serve.Served, ValidRunID, ValidTime, Serve.PlainlyReached, Reachable, Completion.CompletesWithout;
    Completion.CompletionWithoutPromotion(runID, expected, m, t);
    var serve :| Serve.PlainlyReached(serve, expected) && Completion.CompletesWithout(serve, m);
    var s := PlainIsReachable(serve, expected);
    assert Completion.CompletesWithout(s.serve, m);
  }
}
