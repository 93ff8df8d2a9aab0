/** Admission of backups and restores to a target (internal/controller/reconcilers.go, events.go): which reconcile may
    start a run, which runs it cancels, and what the guard lease does. Each reconcile is one atomic step. */
module Admission {
  import opened Wrappers
  import opened Text
  import opened Destinations
  import opened Attachment

  datatype Phase = Unset | Pending | Preparing | Running | Finalizing | Succeeded | Failed | Canceled

  /** `isTerminalPhase`. */
  predicate Terminal(p: Phase) { p.Succeeded? || p.Failed? || p.Canceled? }

  /** `ActiveRunBlocksTargetMutation`. */
  predicate Active(p: Phase) { p.Preparing? || p.Running? || p.Finalizing? }

  /** What admission needs to know of a machine: whether it is ready, whether its policy is Replace, and whether a run
      set can be calculated for it. */
  datatype Target = Target(ready: bool, replace: bool, runnable: bool)

  datatype Backup = Backup(machine: Name, created: nat, phase: Phase, mergedInto: Option<Name>, finalizer: bool)

  /** Whether a restore's references lead to its machine: they do, the namespaces do not permit it, or an object is
      gone. */
  datatype Access = Granted | Denied | Lost

  datatype Restore = Restore(machine: Name, phase: Phase, finalizer: bool, access: Access)

  /** `born` records the creation time of every backup there ever was. */
  datatype State = State(machines: map<Name, Target>, backups: map<Name, Backup>, restores: map<Name, Restore>,
                         leases: map<Name, Name>, born: map<Name, nat>)

  /** How building and creating the objects of an admitted run ends. */
  datatype Outcome = Created | Rejected | NotCreated

  datatype Step =
    | CreateBackup(name: Name, machine: Name, created: nat)
    | CreateRestore(name: Name, machine: Name, access: Access)
    | DeleteBackup(name: Name)
    | DeleteRestore(name: Name)
    | SetMachine(name: Name, target: Target)
    | ChangeAccess(name: Name, access: Access)
    | BackupEvent(name: Name, phase: Phase)
    | RestoreEvent(name: Name, phase: Phase)
    | ReconcileBackup(name: Name, canonical: Name, blocking: Option<Name>, outcome: Outcome)
    | ReconcileRestore(name: Name, outcome: Outcome)

  // ---------------------------------------------------------------- looking

  predicate IsPending(p: Phase) { p.Unset? || p.Pending? }

  function PendingFor(s: State, machine: Name): set<Name> {
    set n | n in s.backups && s.backups[n].machine == machine && IsPending(s.backups[n].phase)
  }

  predicate ActiveOn(s: State, n: Name, machine: Name) {
    n in s.backups && s.backups[n].machine == machine && Active(s.backups[n].phase)
  }

  /** The order of creation, ties broken by name. */
  predicate Before(born: map<Name, nat>, a: Name, b: Name)
    requires a in born && b in born
  {
    born[a] < born[b] || (born[a] == born[b] && NameLess(a, b))
  }

  /** The backup that pending backups of a machine are merged into. */
  ghost predicate IsCanonical(s: State, machine: Name, c: Name)
    requires s.backups.Keys <= s.born.Keys
  {
    c in PendingFor(s, machine) && forall n :: n in PendingFor(s, machine) && n != c ==> Before(s.born, c, n)
  }

  /** A restore that has no access to its machine is not found. */
  predicate Blocks(r: Restore, machine: Name) {
    r.machine == machine && !Terminal(r.phase) && r.access.Granted?
  }

  predicate BlockingRestore(s: State, machine: Name) {
    exists n :: n in s.restores && Blocks(s.restores[n], machine)
  }

  /** The restore side also asks the holder of the guard lease. */
  predicate BlockingBackup(s: State, machine: Name) {
    (machine in s.leases && ActiveOn(s, s.leases[machine], machine))
    || exists n :: n in s.backups && ActiveOn(s, n, machine)
  }

  // ---------------------------------------------------------------- changing

  function WithPhase(s: State, n: Name, p: Phase): State
    requires n in s.backups
  {
    s.(backups := s.backups[n := s.backups[n].(phase := p)])
  }

  function Merged(s: State, n: Name, canonical: Name): State
    requires n in s.backups
  {
    s.(backups := s.backups[n := s.backups[n].(phase := Canceled, mergedInto := Some(canonical))])
  }

  /** The canonical run takes the other pending runs of its machine over. */
  function MergedOthers(s: State, machine: Name, canonical: Name): State {
    s.(backups := map n | n in s.backups ::
      if n in PendingFor(s, machine) && n != canonical
      then s.backups[n].(phase := Canceled, mergedInto := Some(canonical)) else s.backups[n])
  }

  function Claimed(s: State, machine: Name, n: Name): State {
    s.(leases := s.leases[machine := n])
  }

  /** `releaseTargetGuardsForRun`. */
  function Released(s: State, n: Name): State {
    s.(leases := map m | m in s.leases && s.leases[m] != n :: s.leases[m])
  }

  /** The guard is taken by `n` unless another active run holds it and may not be replaced. */
  function Guarded(s: State, machine: Name, n: Name, replace: bool): Option<State> {
    if machine in s.leases && s.leases[machine] != n && ActiveOn(s, s.leases[machine], machine) then
      if replace then Some(Claimed(WithPhase(s, s.leases[machine], Canceled), machine, n)) else None
    else Some(Claimed(s, machine, n))
  }

  function Finished(s: State, n: Name, outcome: Outcome): State
    requires n in s.backups
  {
    match outcome
    case Created => WithPhase(s, n, Preparing)
    case Rejected => WithPhase(s, n, Failed)
    case NotCreated => s
  }

  /** Admission of the canonical pending run, once the other pending runs are merged into it. */
  function Admitted(s: State, n: Name, blocking: Option<Name>, outcome: Outcome): State
    requires n in s.backups && s.backups[n].machine in s.machines && (blocking.Some? ==> blocking.value in s.backups)
  {
    var machine := s.backups[n].machine;
    var target := s.machines[machine];
    if !target.ready || (blocking.Some? && !target.replace) then WithPhase(s, n, Pending)
    else
      var replaced := if blocking.Some? then WithPhase(s, blocking.value, Canceled) else s;
      if BlockingRestore(replaced, machine) then WithPhase(replaced, n, Pending)
      else match Guarded(replaced, machine, n, target.replace)
        case None => WithPhase(replaced, n, Pending)
        case Some(guarded) => Finished(guarded, n, outcome)
  }

  /** `BackupJobReconciler.Reconcile`; the status of the jobs of an active run is reconciled by `BackupEvent`. */
  function BackupReconciled(s: State, n: Name, canonical: Name, blocking: Option<Name>, outcome: Outcome): State
    requires n in s.backups && s.backups[n].machine in s.machines && (blocking.Some? ==> blocking.value in s.backups)
  {
    var b := s.backups[n];
    if Terminal(b.phase) then Released(s, n)
    else if !b.finalizer then s.(backups := s.backups[n := b.(finalizer := true)])
    else if Active(b.phase) then s
    else if !s.machines[b.machine].runnable then WithPhase(s, n, Failed)
    else if canonical != n then Merged(s, n, canonical)
    else Admitted(MergedOthers(s, b.machine, n), n, blocking, outcome)
  }

  function RestoreWithPhase(s: State, n: Name, p: Phase): State
    requires n in s.restores
  {
    s.(restores := s.restores[n := s.restores[n].(phase := p)])
  }

  /** `RestoreJobReconciler.Reconcile`. */
  function RestoreReconciled(s: State, n: Name, outcome: Outcome): State
    requires n in s.restores && s.restores[n].machine in s.machines
  {
    var r := s.restores[n];
    if !Terminal(r.phase) && !r.finalizer then s.(restores := s.restores[n := r.(finalizer := true)])
    else if !IsPending(r.phase) || r.access.Lost? then s
    else if r.access.Denied? then RestoreWithPhase(s, n, Failed)
    else if !s.machines[r.machine].ready || BlockingBackup(s, r.machine) then RestoreWithPhase(s, n, Pending)
    else match outcome
      case Created => RestoreWithPhase(s, n, Preparing)
      case Rejected => RestoreWithPhase(s, n, Failed)
      case NotCreated => s
  }

  /** `blocking` is what `findActiveBackupJobForTarget` may find: another active run of the machine, if there is one. */
  ghost predicate FoundBlocking(s: State, n: Name, machine: Name, blocking: Option<Name>) {
    match blocking
    case Some(other) => other != n && ActiveOn(s, other, machine)
    case None => forall other :: other != n ==> !ActiveOn(s, other, machine)
  }

  /** Events of a run come from its own jobs: they exist once the run was started, and they are applied only to a run
      that is not terminal. Names of backups are not used twice. */
  ghost predicate Enabled(s: State, step: Step) {
    match step
    case CreateBackup(name, machine, created) => name !in s.born
    case CreateRestore(name, machine, access) => name !in s.restores
    case DeleteBackup(name) => name in s.backups
    case DeleteRestore(name) => name in s.restores
    case SetMachine(name, target) => true
    case ChangeAccess(name, access) => name in s.restores
    case BackupEvent(name, phase) =>
      name in s.backups && Active(s.backups[name].phase) && (Active(phase) || Terminal(phase))
    case RestoreEvent(name, phase) =>
      name in s.restores && Active(s.restores[name].phase) && (Active(phase) || Terminal(phase))
    case ReconcileBackup(name, canonical, blocking, outcome) =>
      s.backups.Keys <= s.born.Keys && name in s.backups && s.backups[name].machine in s.machines
      && (IsPending(s.backups[name].phase) ==> IsCanonical(s, s.backups[name].machine, canonical))
      && FoundBlocking(s, name, s.backups[name].machine, blocking)
    case ReconcileRestore(name, outcome) => name in s.restores && s.restores[name].machine in s.machines
  }

  ghost function Next(s: State, step: Step): State
    requires Enabled(s, step)
  {
    match step
    case CreateBackup(name, machine, created) =>
      s.(backups := s.backups[name := Backup(machine, created, Unset, None, false)], born := s.born[name := created])
    case CreateRestore(name, machine, access) =>
      s.(restores := s.restores[name := Restore(machine, Unset, false, access)])
    case DeleteBackup(name) => Released(s.(backups := s.backups - {name}), name)
    case DeleteRestore(name) => s.(restores := s.restores - {name})
    case SetMachine(name, target) => s.(machines := s.machines[name := target])
    case ChangeAccess(name, access) => s.(restores := s.restores[name := s.restores[name].(access := access)])
    case BackupEvent(name, phase) => WithPhase(s, name, phase)
    case RestoreEvent(name, phase) => RestoreWithPhase(s, name, phase)
    case ReconcileBackup(name, canonical, blocking, outcome) => BackupReconciled(s, name, canonical, blocking, outcome)
    case ReconcileRestore(name, outcome) => RestoreReconciled(s, name, outcome)
  }

  // ---------------------------------------------------------------- exclusion

  predicate RestoringOn(s: State, r: Name, machine: Name) {
    r in s.restores && s.restores[r].machine == machine && Active(s.restores[r].phase)
  }

  /** At most one active backup for each machine, and none beside an active restore. */
  ghost predicate Exclusive(s: State) {
    (forall m, a, b | ActiveOn(s, a, m) && ActiveOn(s, b, m) :: a == b)
    && forall m, a, r | ActiveOn(s, a, m) && RestoringOn(s, r, m) :: false
  }

  /** Every active restore has access to its machine, so that admission sees it. */
  ghost predicate Seen(s: State) {
    forall r :: r in s.restores && Active(s.restores[r].phase) ==> s.restores[r].access.Granted?
  }

  /** No active restore loses its access. */
  ghost predicate AccessLasts(s: State, step: Step) {
    step.ChangeAccess? && step.name in s.restores && Active(s.restores[step.name].phase) ==> step.access.Granted?
  }

  lemma NextIsSeen(s: State, step: Step)
    requires Seen(s) && Enabled(s, step) && AccessLasts(s, step)
    ensures Seen(Next(s, step))
  {
    if step.ReconcileBackup? {
      BackupKeepsRestores(s, step.name, step.canonical, step.blocking, step.outcome);
      hide BackupReconciled;
    }
  }

  lemma BackupKeepsRestores(s: State, n: Name, canonical: Name, blocking: Option<Name>, outcome: Outcome)
    requires n in s.backups && s.backups[n].machine in s.machines && (blocking.Some? ==> blocking.value in s.backups)
    ensures BackupReconciled(s, n, canonical, blocking, outcome).restores == s.restores
  {
    AdmittedKeepsRestores(MergedOthers(s, s.backups[n].machine, n), n, blocking, outcome);
    hide Admitted;
  }

  lemma AdmittedKeepsRestores(s: State, n: Name, blocking: Option<Name>, outcome: Outcome)
    requires n in s.backups && s.backups[n].machine in s.machines && (blocking.Some? ==> blocking.value in s.backups)
    ensures Admitted(s, n, blocking, outcome).restores == s.restores
  {
    hide BlockingRestore;
    var machine := s.backups[n].machine;
    var replaced := if blocking.Some? then WithPhase(s, blocking.value, Canceled) else s;
    assert Guarded(replaced, machine, n, s.machines[machine].replace).Some? ==>
      Guarded(replaced, machine, n, s.machines[machine].replace).value.restores == s.restores;
    hide Guarded;
  }

  /** The active backups of `t` are among those of `s`, apart from `n`. */
  ghost predicate NoNewActive(s: State, t: State, n: Name) {
    t.restores == s.restores && s.machines == t.machines
    && n in s.backups && n in t.backups && t.backups[n].machine == s.backups[n].machine
    && forall a, m | a != n && ActiveOn(t, a, m) :: ActiveOn(s, a, m)
  }

  lemma NoNewActiveIsExclusive(s: State, t: State, n: Name)
    requires Exclusive(s) && NoNewActive(s, t, n) && !Active(t.backups[n].phase)
    ensures Exclusive(t)
  {
    forall r, m ensures RestoringOn(t, r, m) <==> RestoringOn(s, r, m) {
    }
    forall m, a | ActiveOn(t, a, m) ensures a != n {
    }
  }

  lemma StartedIsExclusive(s: State, t: State, n: Name)
    requires Exclusive(s) && NoNewActive(s, t, n) && forall r :: !RestoringOn(s, r, t.backups[n].machine)
    requires forall a | a != n :: !ActiveOn(t, a, t.backups[n].machine)
    ensures Exclusive(t)
  {
    forall r, m ensures RestoringOn(t, r, m) <==> RestoringOn(s, r, m) {
    }
    forall m, a, b | ActiveOn(t, a, m) && ActiveOn(t, b, m) ensures a == b {
    }
  }

  lemma WithPhaseActives(s: State, n: Name, p: Phase)
    requires n in s.backups
    ensures forall a, m | a != n :: ActiveOn(WithPhase(s, n, p), a, m) <==> ActiveOn(s, a, m)
    ensures forall m :: ActiveOn(WithPhase(s, n, p), n, m) <==> s.backups[n].machine == m && Active(p)
  {
  }

  lemma GuardedActives(s: State, machine: Name, n: Name, replace: bool)
    requires Guarded(s, machine, n, replace).Some?
    ensures var t := Guarded(s, machine, n, replace).value;
      t.restores == s.restores && t.machines == s.machines && t.backups.Keys == s.backups.Keys
      && (n in s.backups ==> t.backups[n] == s.backups[n])
      && forall a, m | ActiveOn(t, a, m) :: ActiveOn(s, a, m)
  {
  }

  /** Once an admission passes the checks, no other run of the machine is active, unless a restore is overlooked. */
  lemma AdmittedIsExclusive(s: State, n: Name, blocking: Option<Name>, outcome: Outcome)
    requires Exclusive(s) && n in s.backups && s.backups[n].machine in s.machines && !Active(s.backups[n].phase)
    requires FoundBlocking(s, n, s.backups[n].machine, blocking)
    requires ActiveOn(Admitted(s, n, blocking, outcome), n, s.backups[n].machine) ==>
      forall r :: !RestoringOn(s, r, s.backups[n].machine)
    ensures Exclusive(Admitted(s, n, blocking, outcome))
  {
    var machine := s.backups[n].machine;
    var target := s.machines[machine];
    var t := Admitted(s, n, blocking, outcome);
    if !target.ready || (blocking.Some? && !target.replace) {
      HeldIsExclusive(s, s, n);
    } else {
      var replaced := if blocking.Some? then WithPhase(s, blocking.value, Canceled) else s;
      ReplacedActives(s, n, machine, blocking);
      if BlockingRestore(replaced, machine) || Guarded(replaced, machine, n, target.replace).None? {
        HeldIsExclusive(s, replaced, n);
      } else {
        var guarded := Guarded(replaced, machine, n, target.replace).value;
        GuardedActives(replaced, machine, n, target.replace);
        assert t == Finished(guarded, n, outcome);
        hide Guarded, WithPhase, Admitted;
        FinishedIsExclusive(s, guarded, n, outcome);
      }
    }
  }

  lemma ReplacedActives(s: State, n: Name, machine: Name, blocking: Option<Name>)
    requires Exclusive(s) && n in s.backups && s.backups[n].machine == machine && !Active(s.backups[n].phase)
    requires FoundBlocking(s, n, machine, blocking)
    ensures var replaced := if blocking.Some? then WithPhase(s, blocking.value, Canceled) else s;
      NoNewActive(s, replaced, n) && replaced.backups[n] == s.backups[n] && forall a :: !ActiveOn(replaced, a, machine)
  {
    if blocking.Some? {
      WithPhaseActives(s, blocking.value, Canceled);
    }
  }

  lemma HeldIsExclusive(s: State, t: State, n: Name)
    requires Exclusive(s) && NoNewActive(s, t, n)
    ensures Exclusive(WithPhase(t, n, Pending))
  {
    WithPhaseActives(t, n, Pending);
    NoNewActiveIsExclusive(s, WithPhase(t, n, Pending), n);
  }

  lemma FinishedIsExclusive(s: State, t: State, n: Name, outcome: Outcome)
    requires Exclusive(s) && NoNewActive(s, t, n)
    requires ActiveOn(Finished(t, n, outcome), n, t.backups[n].machine) ==>
      forall r :: !RestoringOn(s, r, t.backups[n].machine)
    requires !Active(t.backups[n].phase) && forall a :: !ActiveOn(t, a, t.backups[n].machine)
    ensures Exclusive(Finished(t, n, outcome))
  {
    match outcome
    case Created =>
      WithPhaseActives(t, n, Preparing);
      StartedIsExclusive(s, WithPhase(t, n, Preparing), n);
    case Rejected =>
      WithPhaseActives(t, n, Failed);
      NoNewActiveIsExclusive(s, WithPhase(t, n, Failed), n);
    case NotCreated =>
      NoNewActiveIsExclusive(s, t, n);
  }

  /** The reconcile will start its backup: it is the canonical pending run of a ready machine, no other run is in the
      way, no restore with access waits for the machine or reads it, and the objects of the run can be created. */
  ghost predicate Admits(s: State, step: Step)
    requires Enabled(s, step)
  {
    step.ReconcileBackup? && var b := s.backups[step.name]; var target := s.machines[b.machine];
      IsPending(b.phase) && b.finalizer && target.runnable && target.ready && step.canonical == step.name
      && (step.blocking.Some? ==> target.replace) && !BlockingRestore(s, b.machine) && step.outcome.Created?
  }

  /** It will do so although a restore is active on the machine. */
  ghost predicate Overlooks(s: State, step: Step)
    requires Enabled(s, step)
  {
    Admits(s, step) && exists r :: RestoringOn(s, r, s.backups[step.name].machine)
  }

  /** The guard is exact: a reconcile starts its backup iff it passes these checks. */
  lemma StartsIffAdmits(s: State, step: Step)
    requires Enabled(s, step) && step.ReconcileBackup?
    ensures var m := s.backups[step.name].machine;
      !ActiveOn(s, step.name, m) && ActiveOn(Next(s, step), step.name, m) <==> Admits(s, step)
  {
    var n, b := step.name, s.backups[step.name];
    hide IsCanonical;
    if IsPending(b.phase) && b.finalizer && s.machines[b.machine].runnable && step.canonical == n {
      var merged := MergedOthers(s, b.machine, n);
      MergedOthersActives(s, b.machine, n);
      assert Next(s, step) == Admitted(merged, n, step.blocking, step.outcome);
      SameRestores(s, merged, b.machine);
      hide MergedOthers, BackupReconciled, BlockingRestore;
      AdmittedStarts(merged, n, step.blocking, step.outcome);
    }
  }

  lemma AdmittedStarts(s: State, n: Name, blocking: Option<Name>, outcome: Outcome)
    requires n in s.backups && s.backups[n].machine in s.machines && !Active(s.backups[n].phase)
    requires FoundBlocking(s, n, s.backups[n].machine, blocking)
    ensures var m := s.backups[n].machine;
      ActiveOn(Admitted(s, n, blocking, outcome), n, m) <==>
        s.machines[m].ready && (blocking.Some? ==> s.machines[m].replace) && !BlockingRestore(s, m) && outcome.Created?
  {
    var m := s.backups[n].machine;
    var replaced := if blocking.Some? then WithPhase(s, blocking.value, Canceled) else s;
    SameRestores(s, replaced, m);
    hide BlockingRestore;
  }

  /** A restore that a reconcile overlooks has no access. */
  lemma OverlookedHasNoAccess(s: State, step: Step)
    requires Enabled(s, step) && Overlooks(s, step)
    ensures exists r :: RestoringOn(s, r, s.backups[step.name].machine) && !s.restores[r].access.Granted?
  {
    var m := s.backups[step.name].machine;
    var r :| RestoringOn(s, r, m);
    hide Enabled;
    assert !Blocks(s.restores[r], m);
  }

  lemma SameRestores(s: State, t: State, machine: Name)
    requires t.restores == s.restores
    ensures BlockingRestore(t, machine) == BlockingRestore(s, machine)
  {
  }

  lemma BackupReconciledIsExclusive(s: State, n: Name, canonical: Name, blocking: Option<Name>, outcome: Outcome)
    requires Exclusive(s) && Enabled(s, ReconcileBackup(n, canonical, blocking, outcome))
    requires var t, m := BackupReconciled(s, n, canonical, blocking, outcome), s.backups[n].machine;
      !ActiveOn(s, n, m) && ActiveOn(t, n, m) ==> forall r :: !RestoringOn(s, r, m)
    ensures Exclusive(BackupReconciled(s, n, canonical, blocking, outcome))
  {
    var b := s.backups[n];
    var t := BackupReconciled(s, n, canonical, blocking, outcome);
    if IsPending(b.phase) && b.finalizer && s.machines[b.machine].runnable && canonical == n {
      hide Admitted;
      MergedOthersActives(s, b.machine, n);
      var merged := MergedOthers(s, b.machine, n);
      NoNewActiveIsExclusive(s, merged, n);
      assert forall r, m :: RestoringOn(merged, r, m) <==> RestoringOn(s, r, m);
      AdmittedIsExclusive(merged, n, blocking, outcome);
    } else {
      assert NoNewActive(s, t, n);
      assert forall m :: ActiveOn(t, n, m) ==> ActiveOn(s, n, m);
      SameActives(s, t, n);
    }
  }

  lemma SameActives(s: State, t: State, n: Name)
    requires Exclusive(s) && NoNewActive(s, t, n) && forall m :: ActiveOn(t, n, m) ==> ActiveOn(s, n, m)
    ensures Exclusive(t)
  {
    forall r, m ensures RestoringOn(t, r, m) <==> RestoringOn(s, r, m) {
    }
    forall a, m | ActiveOn(t, a, m) ensures ActiveOn(s, a, m) {
    }
  }

  lemma MergedOthersActives(s: State, machine: Name, n: Name)
    requires n in s.backups && !Active(s.backups[n].phase)
    ensures var t := MergedOthers(s, machine, n);
      NoNewActive(s, t, n) && t.backups[n] == s.backups[n] && forall a, m :: ActiveOn(t, a, m) <==> ActiveOn(s, a, m)
  {
  }

  lemma RestoreReconciledIsExclusive(s: State, n: Name, outcome: Outcome)
    requires Exclusive(s) && Enabled(s, ReconcileRestore(n, outcome))
    ensures Exclusive(RestoreReconciled(s, n, outcome))
  {
    var t := RestoreReconciled(s, n, outcome);
    forall a, m ensures ActiveOn(t, a, m) <==> ActiveOn(s, a, m) {
    }
    forall r, m | RestoringOn(t, r, m) ensures RestoringOn(s, r, m) || (r == n && !BlockingBackup(s, m)) {
    }
    forall a, m | ActiveOn(s, a, m) ensures BlockingBackup(s, m) {
    }
  }

  /** Reader/writer exclusion, under both policies, is broken by exactly those steps that overlook a restore. */
  lemma ExclusionIsKeptIffSeen(s: State, step: Step)
    requires Exclusive(s) && Enabled(s, step)
    ensures Exclusive(Next(s, step)) <==> !Overlooks(s, step)
  {
    hide BackupReconciled, RestoreReconciled;
    match step
    case ReconcileBackup(name, canonical, blocking, outcome) =>
      BackupKeepsRestores(s, name, canonical, blocking, outcome);
      StartsIffAdmits(s, step);
      hide Admits;
      if Overlooks(s, step) {
        var m := s.backups[name].machine;
        var r :| RestoringOn(s, r, m);
        assert RestoringOn(Next(s, step), r, m) && ActiveOn(Next(s, step), name, m);
      } else {
        BackupReconciledIsExclusive(s, name, canonical, blocking, outcome);
      }
    case ReconcileRestore(name, outcome) =>
      RestoreReconciledIsExclusive(s, name, outcome);
    case _ =>
      OtherStepsAreExclusive(s, step);
  }

  /** As long as active restores have access, that is every step. */
  lemma NextIsExclusive(s: State, step: Step)
    requires Exclusive(s) && Seen(s) && Enabled(s, step)
    ensures Exclusive(Next(s, step))
  {
    ExclusionIsKeptIffSeen(s, step);
    hide Next, Exclusive;
    if Overlooks(s, step) {
      OverlookedHasNoAccess(s, step);
    }
  }

  lemma OtherStepsAreExclusive(s: State, step: Step)
    requires Exclusive(s) && Enabled(s, step) && !step.ReconcileBackup? && !step.ReconcileRestore?
    ensures Exclusive(Next(s, step))
  {
    var t := Next(s, step);
    forall a, m | ActiveOn(t, a, m) ensures ActiveOn(s, a, m) {
    }
    forall r, m | RestoringOn(t, r, m) ensures RestoringOn(s, r, m) {
    }
  }

  // ---------------------------------------------------------------- merges

  /** Creation times are recorded, and a run was merged into one created before it. */
  ghost predicate Sound(s: State) {
    (forall n :: n in s.backups ==> n in s.born && s.born[n] == s.backups[n].created)
    && forall n | n in s.backups && s.backups[n].mergedInto.Some? ::
         n in s.born && s.backups[n].mergedInto.value in s.born && Before(s.born, s.backups[n].mergedInto.value, n)
  }

  lemma BeforeStays(s: State, t: State)
    requires forall n :: n in s.born ==> n in t.born && t.born[n] == s.born[n]
    ensures forall a, b | a in s.born && b in s.born :: Before(t.born, a, b) == Before(s.born, a, b)
  {
    hide NameLess;
  }

  /** What a step may do to one backup: nothing to its identity; and a new merge is into the canonical run. */
  ghost predicate KeepsIdentity(s: State, t: State, canonical: Name) {
    t.born == s.born && t.backups.Keys == s.backups.Keys
    && forall n :: n in s.backups ==>
         t.backups[n].created == s.backups[n].created
         && (t.backups[n].mergedInto == s.backups[n].mergedInto
             || (t.backups[n].mergedInto == Some(canonical) && canonical in s.born && n in s.born
                 && Before(s.born, canonical, n)))
  }

  lemma KeptIdentityIsSound(s: State, t: State, canonical: Name)
    requires Sound(s) && KeepsIdentity(s, t, canonical)
    ensures Sound(t)
  {
    hide Before;
  }

  ghost predicate SameIdentity(s: State, t: State) {
    t.born == s.born && t.backups.Keys == s.backups.Keys
    && forall a :: a in s.backups ==>
       t.backups[a].created == s.backups[a].created && t.backups[a].mergedInto == s.backups[a].mergedInto
  }

  lemma WithPhaseIdentity(s: State, n: Name, p: Phase)
    requires n in s.backups
    ensures SameIdentity(s, WithPhase(s, n, p))
  {
  }

  lemma GuardedIdentity(s: State, machine: Name, n: Name, replace: bool)
    requires Guarded(s, machine, n, replace).Some?
    ensures SameIdentity(s, Guarded(s, machine, n, replace).value)
  {
  }

  lemma AdmittedKeepsIdentity(s: State, n: Name, blocking: Option<Name>, outcome: Outcome)
    requires n in s.backups && s.backups[n].machine in s.machines && (blocking.Some? ==> blocking.value in s.backups)
    ensures SameIdentity(s, Admitted(s, n, blocking, outcome))
  {
    hide WithPhase, Guarded, BlockingRestore, SameIdentity;
    var machine := s.backups[n].machine;
    var target := s.machines[machine];
    WithPhaseIdentity(s, n, Pending);
    if target.ready && (blocking.Some? ==> target.replace) {
      var replaced := if blocking.Some? then WithPhase(s, blocking.value, Canceled) else s;
      if blocking.Some? { WithPhaseIdentity(s, blocking.value, Canceled); } else { IdentityItself(s); }
      IdentityKeepsKeys(s, replaced);
      WithPhaseIdentity(replaced, n, Pending);
      IdentityChains(s, replaced, WithPhase(replaced, n, Pending));
      if Guarded(replaced, machine, n, target.replace).Some? {
        var guarded := Guarded(replaced, machine, n, target.replace).value;
        GuardedIdentity(replaced, machine, n, target.replace);
        IdentityKeepsKeys(replaced, guarded);
        WithPhaseIdentity(guarded, n, Preparing);
        WithPhaseIdentity(guarded, n, Failed);
        IdentityItself(guarded);
        IdentityChains(s, replaced, guarded);
        IdentityChains(s, guarded, Finished(guarded, n, outcome));
      }
    }
  }

  lemma IdentityItself(s: State)
    ensures SameIdentity(s, s)
  {
  }

  lemma IdentityKeepsKeys(s: State, t: State)
    requires SameIdentity(s, t)
    ensures s.backups.Keys == t.backups.Keys
  {
  }

  lemma IdentityChains(s: State, t: State, u: State)
    requires SameIdentity(s, t) && SameIdentity(t, u)
    ensures SameIdentity(s, u)
  {
  }

  lemma BackupReconciledKeepsIdentity(s: State, n: Name, canonical: Name, blocking: Option<Name>, outcome: Outcome)
    requires Sound(s) && Enabled(s, ReconcileBackup(n, canonical, blocking, outcome))
    ensures KeepsIdentity(s, BackupReconciled(s, n, canonical, blocking, outcome), canonical)
  {
    hide Before, Admitted;
    var b := s.backups[n];
    if IsPending(b.phase) && b.finalizer && s.machines[b.machine].runnable && canonical == n {
      var merged := MergedOthers(s, b.machine, n);
      ReconciledIsAdmitted(s, n, blocking, outcome);
      MergedOthersIdentity(s, b.machine, n);
      AdmittedKeepsIdentity(merged, n, blocking, outcome);
      hide BackupReconciled, IsCanonical, FoundBlocking, MergedOthers, Sound;
      MergedThenSame(s, merged, Admitted(merged, n, blocking, outcome), n);
    } else {
      assert IsPending(b.phase) ==> n in PendingFor(s, b.machine);
      MergedKeepsIdentity(s, n, canonical, blocking, outcome);
    }
  }

  lemma MergedKeepsIdentity(s: State, n: Name, canonical: Name, blocking: Option<Name>, outcome: Outcome)
    requires n in s.backups && s.backups[n].machine in s.machines && (blocking.Some? ==> blocking.value in s.backups)
    requires s.backups.Keys <= s.born.Keys && var b := s.backups[n];
      (IsPending(b.phase) ==> IsCanonical(s, b.machine, canonical) && n in PendingFor(s, b.machine))
      && !(IsPending(b.phase) && b.finalizer && s.machines[b.machine].runnable && canonical == n)
    ensures KeepsIdentity(s, BackupReconciled(s, n, canonical, blocking, outcome), canonical)
  {
    hide Before, Admitted, MergedOthers;
  }

  lemma MergedThenSame(s: State, t: State, u: State, canonical: Name)
    requires KeepsIdentity(s, t, canonical) && SameIdentity(t, u)
    ensures KeepsIdentity(s, u, canonical)
  {
    hide Before;
  }

  lemma ReconciledIsAdmitted(s: State, n: Name, blocking: Option<Name>, outcome: Outcome)
    requires Enabled(s, ReconcileBackup(n, n, blocking, outcome)) && IsPending(s.backups[n].phase)
    requires s.backups[n].finalizer
    requires s.machines[s.backups[n].machine].runnable
    ensures BackupReconciled(s, n, n, blocking, outcome) ==
      Admitted(MergedOthers(s, s.backups[n].machine, n), n, blocking, outcome)
  {
    hide Admitted;
  }

  lemma MergedOthersIdentity(s: State, machine: Name, n: Name)
    requires Sound(s) && s.backups.Keys <= s.born.Keys && IsCanonical(s, machine, n)
    ensures KeepsIdentity(s, MergedOthers(s, machine, n), n)
  {
    hide Before;
  }

  lemma NextIsSound(s: State, step: Step)
    requires Sound(s) && Enabled(s, step)
    ensures Sound(Next(s, step))
  {
    if step.ReconcileBackup? {
      hide BackupReconciled, Before, IsCanonical, FoundBlocking;
      BackupReconciledKeepsIdentity(s, step.name, step.canonical, step.blocking, step.outcome);
      KeptIdentityIsSound(s, Next(s, step), step.canonical);
    } else {
      OtherIsSound(s, step);
    }
  }

  lemma OtherIsSound(s: State, step: Step)
    requires Sound(s) && Enabled(s, step) && !step.ReconcileBackup?
    ensures Sound(Next(s, step))
  {
    hide Before;
    BeforeStays(s, Next(s, step));
    hide RestoreReconciled;
  }

  /** A chain of merges: each run was merged into the next one. */
  ghost predicate MergeChain(s: State, chain: seq<Name>) {
    forall i :: 0 <= i < |chain| - 1 ==> chain[i] in s.backups && s.backups[chain[i]].mergedInto == Some(chain[i + 1])
  }

  /** Merge chains go strictly back in (creation time, name), so they are finite and have no cycle. */
  lemma {:induction false} MergeChainsGoBack(s: State, chain: seq<Name>, i: nat, j: nat)
    requires Sound(s) && MergeChain(s, chain) && i < j < |chain|
    ensures chain[i] in s.born && chain[j] in s.born && chain[j] != chain[i]
    ensures s.born[chain[j]] < s.born[chain[i]]
      || (s.born[chain[j]] == s.born[chain[i]] && Less(chain[j].ToText(), chain[i].ToText()))
    decreases j - i
  {
    assert s.backups[chain[j - 1]].mergedInto == Some(chain[j - 1 + 1]);
    if i < j - 1 {
      MergeChainsGoBack(s, chain, i, j - 1);
      BeforeTransitive(s.born, chain[j], chain[j - 1], chain[i]);
    }
    LessTrichotomy(chain[j].ToText(), chain[i].ToText());
  }

  // ---------------------------------------------------------------- runs

  datatype Run = Run(states: seq<State>, steps: seq<Step>)

  ghost predicate Valid(run: Run) {
    |run.states| == |run.steps| + 1
    && run.states[0].backups == map[] && run.states[0].restores == map[] && run.states[0].born == map[]
    && forall i :: 0 <= i < |run.steps| ==>
         Enabled(run.states[i], run.steps[i]) && run.states[i + 1] == Next(run.states[i], run.steps[i])
  }

  /** In every reachable state, if no active restore has lost its access on the way: at most one active backup for each
      machine, never an active backup beside an active restore, and merges only into runs created before. */
  lemma {:induction false} ReachableIsExclusive(run: Run, i: nat)
    requires Valid(run) && i < |run.states| && forall k :: 0 <= k < i ==> AccessLasts(run.states[k], run.steps[k])
    ensures Exclusive(run.states[i]) && Seen(run.states[i]) && Sound(run.states[i])
  {
    if i > 0 {
      ReachableIsExclusive(run, i - 1);
      NextIsSeen(run.states[i - 1], run.steps[i - 1]);
      NextIsExclusive(run.states[i - 1], run.steps[i - 1]);
      NextIsSound(run.states[i - 1], run.steps[i - 1]);
    }
  }

  /** A restore that loses its access while it is active: its namespace is no longer permitted, or its source is
      deleted. */
  function Overlooking(machine: Name, restore: Name, backup: Name): seq<Step> {
    [CreateRestore(restore, machine, Granted), Step.ReconcileRestore(restore, Created),
     Step.ReconcileRestore(restore, Created),
     ChangeAccess(restore, Denied), CreateBackup(backup, machine, 0),
     Step.ReconcileBackup(backup, backup, None, Created), Step.ReconcileBackup(backup, backup, None, Created)]
  }

  /** Then a backup can be started beside it. */
  lemma OverlookedRestoreRuns(machine: Name, restore: Name, backup: Name) returns (run: Run)
    ensures Valid(run) && run.steps == Overlooking(machine, restore, backup)
    ensures ActiveOn(run.states[7], backup, machine) && RestoringOn(run.states[7], restore, machine)
    ensures !Exclusive(run.states[7])
  {
    hide Next, Enabled, BlockingRestore;
    var s0 := State(map[machine := Target(true, false, true)], map[], map[], map[], map[]);
    var s1, s2, s3, s4 := RestoreStarts(s0, machine, restore);
    var s5 := s4.(backups := map[backup := Backup(machine, 0, Unset, None, false)], born := map[backup := 0]);
    BackupIsCreated(s4, machine, backup);
    var s6 := s5.(backups := map[backup := Backup(machine, 0, Unset, None, true)]);
    var s7 := s6.(backups := map[backup := Backup(machine, 0, Preparing, None, true)],
                  leases := map[machine := backup]);
    AdmitsAlone(s5, s6, s7, machine, backup);
    run := Run([s0, s1, s2, s3, s4, s5, s6, s7], Overlooking(machine, restore, backup));
    assert ActiveOn(s7, backup, machine) && RestoringOn(s7, restore, machine);
  }

  lemma RestoreStarts(s: State, machine: Name, restore: Name) returns (s1: State, s2: State, s3: State, s4: State)
    requires machine in s.machines && s.machines[machine].ready && s.backups == map[] && s.restores == map[]
    ensures var steps := Overlooking(machine, restore, restore);
      Enabled(s, steps[0]) && s1 == Next(s, steps[0]) && Enabled(s1, steps[1]) && s2 == Next(s1, steps[1])
      && Enabled(s2, steps[2]) && s3 == Next(s2, steps[2]) && Enabled(s3, steps[3]) && s4 == Next(s3, steps[3])
    ensures s4 == s.(restores := map[restore := Restore(machine, Preparing, true, Denied)])
    ensures !BlockingRestore(s4, machine)
  {
    s1 := Next(s, CreateRestore(restore, machine, Granted));
    assert s1 == s.(restores := map[restore := Restore(machine, Unset, false, Granted)]);
    s2 := Next(s1, Step.ReconcileRestore(restore, Created));
    assert s2 == s.(restores := map[restore := Restore(machine, Unset, true, Granted)]);
    assert !BlockingBackup(s2, machine);
    s3 := Next(s2, Step.ReconcileRestore(restore, Created));
    assert s3 == s.(restores := map[restore := Restore(machine, Preparing, true, Granted)]);
    hide RestoreReconciled;
    s4 := Next(s3, ChangeAccess(restore, Denied));
  }

  lemma BackupIsCreated(s: State, machine: Name, backup: Name)
    requires s.backups == map[] && s.born == map[]
    ensures Enabled(s, CreateBackup(backup, machine, 0))
    ensures Next(s, CreateBackup(backup, machine, 0))
         == s.(backups := map[backup := Backup(machine, 0, Unset, None, false)], born := map[backup := 0])
    ensures var t := Next(s, CreateBackup(backup, machine, 0));
      BlockingRestore(t, machine) == BlockingRestore(s, machine)
  {
  }

  lemma AdmitsAlone(s: State, t: State, u: State, machine: Name, backup: Name)
    requires machine in s.machines && s.machines[machine] == Target(true, false, true) && s.leases == map[]
    requires s.backups == map[backup := Backup(machine, 0, Unset, None, false)] && s.born == map[backup := 0]
    requires !BlockingRestore(s, machine)
    requires t == s.(backups := map[backup := Backup(machine, 0, Unset, None, true)])
    requires u == t.(backups := map[backup := Backup(machine, 0, Preparing, None, true)],
                     leases := map[machine := backup])
    ensures var step := Step.ReconcileBackup(backup, backup, None, Created);
      Enabled(s, step) && Next(s, step) == t && Enabled(t, step) && Next(t, step) == u
  {
    hide BlockingRestore, Before;
    assert PendingFor(s, machine) == {backup} && PendingFor(t, machine) == {backup};
    assert MergedOthers(t, machine, backup) == t;
    SameRestores(s, t, machine);
  }

  // ---------------------------------------------------------------- progress

  lemma {:induction false} Earliest(born: map<Name, nat>, names: set<Name>) returns (c: Name)
    requires names != {} && names <= born.Keys && forall n :: n in names ==> n.Valid()
    ensures c in names && forall n :: n in names && n != c ==> Before(born, c, n)
  {
    var x :| x in names;
    if names == {x} {
      c := x;
    } else {
      var rest := names - {x};
      var y := Earliest(born, rest);
      TextInjective(x, y);
      LessTrichotomy(x.ToText(), y.ToText());
      c := if Before(born, x, y) then x else y;
      forall n | n in names && n != c ensures Before(born, c, n) {
        if c == x && n != y {
          BeforeTransitive(born, x, y, n);
        }
      }
    }
  }

  lemma BeforeTransitive(born: map<Name, nat>, a: Name, b: Name, c: Name)
    requires a in born && b in born && c in born && Before(born, a, b) && Before(born, b, c)
    ensures Before(born, a, c)
  {
    if born[a] == born[b] == born[c] {
      LessTransitive(a.ToText(), b.ToText(), c.ToText());
    }
  }

  /** A reconcile that starts a run or makes it terminal. */
  ghost predicate Advances(s: State, step: Step) {
    Enabled(s, step) &&
    match step
    case ReconcileBackup(name, _, _, _) =>
      IsPending(s.backups[name].phase) && name in Next(s, step).backups
      && (Next(s, step).backups[name].phase == Preparing || Terminal(Next(s, step).backups[name].phase))
    case ReconcileRestore(name, _) =>
      IsPending(s.restores[name].phase) && name in Next(s, step).restores
      && (Next(s, step).restores[name].phase == Preparing || Terminal(Next(s, step).restores[name].phase))
    case _ => false
  }

  /** The machine is ready and idle. */
  ghost predicate Idle(s: State, machine: Name) {
    machine in s.machines && s.machines[machine].ready
    && (forall a :: !ActiveOn(s, a, machine)) && (forall r :: !RestoringOn(s, r, machine))
  }

  lemma RestoreAdvances(s: State, r: Name, machine: Name, outcome: Outcome)
    requires Idle(s, machine) && r in s.restores && Blocks(s.restores[r], machine)
    requires s.restores[r].finalizer && outcome != NotCreated
    ensures Advances(s, ReconcileRestore(r, outcome))
  {
    assert !RestoringOn(s, r, machine);
    assert !BlockingBackup(s, machine);
  }

  lemma BackupAdvances(s: State, c: Name, machine: Name, outcome: Outcome)
    requires Sound(s) && Idle(s, machine) && !BlockingRestore(s, machine) && IsCanonical(s, machine, c)
    requires s.backups[c].finalizer && outcome != NotCreated
    ensures Advances(s, ReconcileBackup(c, c, None, outcome))
  {
    hide Before, NameLess;
    var merged := MergedOthers(s, machine, c);
    MergedOthersActives(s, machine, c);
    assert !BlockingRestore(merged, machine);
    assert machine in merged.leases ==> !ActiveOn(merged, merged.leases[machine], machine);
  }

  /** Admission never wedges: if a machine is ready, nothing is active on it and some backup or restore waits for it,
      then some reconcile, after at most one that adds a finalizer, starts a run or makes it terminal. */
  lemma AdmissionProgresses(s: State, machine: Name, outcome: Outcome) returns (first: Step, second: Step)
    requires Sound(s) && Idle(s, machine) && outcome != NotCreated && forall n :: n in s.backups ==> n.Valid()
    requires BlockingRestore(s, machine) || PendingFor(s, machine) != {}
    ensures Enabled(s, first) && (Advances(s, first) || Advances(Next(s, first), second))
  {
    hide Before, NameLess, Admitted, Idle, Advances;
    if BlockingRestore(s, machine) {
      var r :| r in s.restores && Blocks(s.restores[r], machine);
      first := ReconcileRestore(r, outcome);
      second := first;
      RestoreProgresses(s, r, machine, outcome);
    } else {
      var c := Earliest(s.born, PendingFor(s, machine));
      first := ReconcileBackup(c, c, None, outcome);
      second := first;
      BackupProgresses(s, c, machine, outcome);
    }
  }

  lemma RestoreProgresses(s: State, r: Name, machine: Name, outcome: Outcome)
    requires Idle(s, machine) && r in s.restores && Blocks(s.restores[r], machine)
    requires outcome != NotCreated
    ensures var step := ReconcileRestore(r, outcome);
      Enabled(s, step) && (Advances(s, step) || Advances(Next(s, step), step))
  {
    if s.restores[r].finalizer {
      RestoreAdvances(s, r, machine, outcome);
    } else {
      var t := s.(restores := s.restores[r := s.restores[r].(finalizer := true)]);
      assert Next(s, ReconcileRestore(r, outcome)) == t;
      hide RestoreReconciled, Advances;
      assert forall q, m :: RestoringOn(t, q, m) <==> RestoringOn(s, q, m);
      assert forall a, m :: ActiveOn(t, a, m) <==> ActiveOn(s, a, m);
      RestoreAdvances(t, r, machine, outcome);
    }
  }

  lemma BackupProgresses(s: State, c: Name, machine: Name, outcome: Outcome)
    requires Sound(s) && Idle(s, machine) && !BlockingRestore(s, machine) && s.backups.Keys <= s.born.Keys
    requires IsCanonical(s, machine, c) && outcome != NotCreated
    ensures var step := ReconcileBackup(c, c, None, outcome);
      Enabled(s, step) && (Advances(s, step) || Advances(Next(s, step), step))
  {
    hide Before, NameLess, BackupReconciled, BlockingRestore;
    if s.backups[c].finalizer {
      BackupAdvances(s, c, machine, outcome);
    } else {
      FinalizerOnly(s, c, machine, outcome);
      NextIsSound(s, ReconcileBackup(c, c, None, outcome));
      BackupAdvances(Next(s, ReconcileBackup(c, c, None, outcome)), c, machine, outcome);
    }
  }

  lemma FinalizerOnly(s: State, c: Name, machine: Name, outcome: Outcome)
    requires Sound(s) && Idle(s, machine) && !BlockingRestore(s, machine) && IsCanonical(s, machine, c)
    requires !s.backups[c].finalizer
    ensures Enabled(s, ReconcileBackup(c, c, None, outcome))
    ensures var t := Next(s, ReconcileBackup(c, c, None, outcome));
      Idle(t, machine) && !BlockingRestore(t, machine) && t.backups.Keys <= t.born.Keys && IsCanonical(t, machine, c)
        && t.backups[c].finalizer
  {
    hide Before, Admitted;
    var t := Next(s, ReconcileBackup(c, c, None, outcome));
    assert t == s.(backups := s.backups[c := s.backups[c].(finalizer := true)]);
    assert forall a, m :: ActiveOn(t, a, m) <==> ActiveOn(s, a, m);
    assert forall q, m :: RestoringOn(t, q, m) <==> RestoringOn(s, q, m);
    assert PendingFor(t, machine) == PendingFor(s, machine);
  }
}
