/** What becomes of a backup or restore that is reconciled (internal/controller/reconcilers.go): the phase that it ends
    in, and what happens to the other runs and to the guard lease, as conditions on the state before. */
module AdmissionPhases {
  import opened Wrappers
  import opened Text
  import opened Destinations
  import opened Admission

  // ---------------------------------------------------------------- the state before

  /** Another backup of the machine is being prepared, running or finalizing. */
  ghost predicate OtherRuns(s: State, n: Name, machine: Name) {
    exists a :: a in s.backups && a != n && s.backups[a].machine == machine
      && s.backups[a].phase in {Preparing, Running, Finalizing}
  }

  /** A restore that may read the machine waits for it or reads it. */
  ghost predicate RestoreWaits(s: State, machine: Name) {
    exists r :: r in s.restores && s.restores[r].machine == machine && s.restores[r].access == Granted
      && s.restores[r].phase !in {Succeeded, Failed, Canceled}
  }

  /** Another pending backup of the machine was created before, or at the same time under a smaller name. */
  ghost predicate EarlierWaits(s: State, n: Name, machine: Name)
    requires s.backups.Keys <= s.born.Keys && n in s.backups
  {
    exists a :: a in s.backups && a != n && s.backups[a].machine == machine && s.backups[a].phase in {Unset, Pending}
      && (s.born[a] < s.born[n] || (s.born[a] == s.born[n] && Less(a.ToText(), n.ToText())))
  }

  /** The machine is ready for the run: no other run is in the way, or it may be replaced, and no restore. */
  ghost predicate Clear(s: State, n: Name, machine: Name)
    requires machine in s.machines
  {
    s.machines[machine].ready && (OtherRuns(s, n, machine) ==> s.machines[machine].replace) && !RestoreWaits(s, machine)
  }

  lemma SameQuestions(s: State, n: Name, machine: Name)
    ensures OtherRuns(s, n, machine) <==> exists a :: a != n && ActiveOn(s, a, machine)
    ensures RestoreWaits(s, machine) <==> BlockingRestore(s, machine)
  {
    if OtherRuns(s, n, machine) {
      var a :| a in s.backups && a != n && s.backups[a].machine == machine
        && s.backups[a].phase in {Preparing, Running, Finalizing};
      assert ActiveOn(s, a, machine);
    }
    if RestoreWaits(s, machine) {
      var r :| r in s.restores && s.restores[r].machine == machine && s.restores[r].access == Granted
        && s.restores[r].phase !in {Succeeded, Failed, Canceled};
      assert Blocks(s.restores[r], machine);
    }
    if BlockingRestore(s, machine) {
      var r :| r in s.restores && Blocks(s.restores[r], machine);
      assert s.restores[r].phase !in {Succeeded, Failed, Canceled};
    }
  }

  lemma CanonicalIsEarliest(s: State, n: Name, machine: Name, canonical: Name)
    requires s.backups.Keys <= s.born.Keys && IsCanonical(s, machine, canonical)
    requires n in s.backups && s.backups[n].machine == machine && IsPending(s.backups[n].phase) && n.Valid()
    requires forall a :: a in s.backups ==> a.Valid()
    ensures canonical == n <==> !EarlierWaits(s, n, machine)
  {
    if canonical != n {
      assert Before(s.born, canonical, n);
    } else if EarlierWaits(s, n, machine) {
      var a :| a in s.backups && a != n && s.backups[a].machine == machine && s.backups[a].phase in {Unset, Pending}
        && (s.born[a] < s.born[n] || (s.born[a] == s.born[n] && Less(a.ToText(), n.ToText())));
      assert a in PendingFor(s, machine);
      LessTrichotomy(a.ToText(), n.ToText());
    }
  }

  // ---------------------------------------------------------------- backups

  /** The step is the reconcile of a pending backup that has its finalizer. */
  ghost predicate ReconcilesPending(s: State, step: Step) {
    Enabled(s, step) && step.ReconcileBackup? && s.backups[step.name].phase in {Unset, Pending}
    && s.backups[step.name].finalizer && forall a :: a in s.backups ==> a.Valid()
  }

  /** It ends in Failed iff no run set can be calculated, or the machine is clear for it and its objects are rejected;
      else in Canceled iff an earlier backup of the machine waits too; in Preparing iff the machine is clear for it and
      its objects are created; and it is held as Pending iff the machine is not clear for it. Only if the API server
      does not take the objects it stays what it was. */
  lemma PhaseOfBackup(s: State, step: Step)
    requires ReconcilesPending(s, step)
    ensures step.name in Next(s, step).backups
    ensures var n, b, m := step.name, s.backups[step.name], s.backups[step.name].machine;
      var first, clear, p := !EarlierWaits(s, n, m), Clear(s, n, m), Next(s, step).backups[n].phase;
      var runnable := s.machines[m].runnable;
      (p == Failed <==> !runnable || (first && clear && step.outcome == Rejected))
      && (p == Canceled <==> runnable && !first)
      && (p == Preparing <==> runnable && first && clear && step.outcome == Created)
      && (runnable && first && !clear ==> p == Pending)
      && (runnable && first && clear && step.outcome == NotCreated ==> p == b.phase)
  {
    var n, b, m := step.name, s.backups[step.name], s.backups[step.name].machine;
    assert s.backups.Keys <= s.born.Keys && IsCanonical(s, m, step.canonical) && FoundBlocking(s, n, m, step.blocking);
    CanonicalIsEarliest(s, n, m, step.canonical);
    ReconciledPhase(s, n, step.canonical, step.blocking, step.outcome);
    assert Next(s, step) == BackupReconciled(s, n, step.canonical, step.blocking, step.outcome);
    hide EarlierWaits, IsCanonical, Clear, BackupReconciled, FoundBlocking, Next, Enabled;
  }

  lemma ReconciledPhase(s: State, n: Name, canonical: Name, blocking: Option<Name>, outcome: Outcome)
    requires n in s.backups && s.backups[n].machine in s.machines && s.backups[n].finalizer
    requires IsPending(s.backups[n].phase) && FoundBlocking(s, n, s.backups[n].machine, blocking)
    ensures n in BackupReconciled(s, n, canonical, blocking, outcome).backups
    ensures var b := s.backups[n];
      BackupReconciled(s, n, canonical, blocking, outcome).backups[n].phase
      == if !s.machines[b.machine].runnable then Failed
         else if canonical != n then Canceled
         else if !Clear(s, n, b.machine) then Pending
         else match outcome case Created => Preparing case Rejected => Failed case NotCreated => b.phase
  {
    hide Clear, Admitted, MergedOthers, FoundBlocking;
    if canonical == n { FirstBackup(s, n, blocking, outcome); }
  }

  lemma FirstBackup(s: State, n: Name, blocking: Option<Name>, outcome: Outcome)
    requires n in s.backups && s.backups[n].machine in s.machines
    requires IsPending(s.backups[n].phase) && FoundBlocking(s, n, s.backups[n].machine, blocking)
    ensures var merged := MergedOthers(s, s.backups[n].machine, n);
      n in merged.backups && merged.backups[n] == s.backups[n] && merged.machines == s.machines
      && (blocking.Some? ==> blocking.value in merged.backups)
      && n in Admitted(merged, n, blocking, outcome).backups
      && Admitted(merged, n, blocking, outcome).backups[n].phase
         == if !Clear(s, n, s.backups[n].machine) then Pending
            else match outcome case Created => Preparing case Rejected => Failed case NotCreated => s.backups[n].phase
  {
    var m := s.backups[n].machine;
    var merged := MergedOthers(s, m, n);
    MergedOthersActives(s, m, n);
    assert merged.restores == s.restores;
    hide MergedOthers, Admitted;
    AdmittedPhase(merged, n, blocking, outcome);
    SameQuestions(s, n, m);
    SameQuestions(merged, n, m);
    hide OtherRuns, RestoreWaits, BlockingRestore;
    SameRestores(s, merged, m);
    assert (exists a :: a != n && ActiveOn(merged, a, m)) <==> (exists a :: a != n && ActiveOn(s, a, m));
  }

  lemma AdmittedPhase(s: State, n: Name, blocking: Option<Name>, outcome: Outcome)
    requires n in s.backups && s.backups[n].machine in s.machines && !Active(s.backups[n].phase)
    requires FoundBlocking(s, n, s.backups[n].machine, blocking)
    ensures n in Admitted(s, n, blocking, outcome).backups
    ensures Admitted(s, n, blocking, outcome).backups[n].phase
         == if !Clear(s, n, s.backups[n].machine) then Pending
            else match outcome case Created => Preparing case Rejected => Failed case NotCreated => s.backups[n].phase
  {
    var m := s.backups[n].machine;
    SameQuestions(s, n, m);
    var replaced := if blocking.Some? then WithPhase(s, blocking.value, Canceled) else s;
    SameRestores(s, replaced, m);
    hide BlockingRestore, OtherRuns, RestoreWaits;
  }

  /** What becomes of another backup `c` when the first pending one of its machine is reconciled. */
  function Displaced(c: Backup, machine: Name, n: Name, replacing: bool): Backup {
    if c.machine == machine && c.phase in {Unset, Pending} then c.(phase := Canceled, mergedInto := Some(n))
    else if replacing && c.machine == machine && c.phase in {Preparing, Running, Finalizing} then c.(phase := Canceled)
    else c
  }

  /** The first pending backup takes the other pending ones over; on a ready machine under Replace it ends the active
      run, even if a restore then holds it; and it takes the guard lease iff the machine is clear for it. Nothing else
      changes. */
  lemma FirstBackupDisplaces(s: State, step: Step)
    requires ReconcilesPending(s, step) && Exclusive(s)
    requires var m := s.backups[step.name].machine; s.machines[m].runnable && !EarlierWaits(s, step.name, m)
    ensures var n, m, t := step.name, s.backups[step.name].machine, Next(s, step);
      t.backups.Keys == s.backups.Keys
      && (forall a :: a in s.backups && a != n ==>
            t.backups[a] == Displaced(s.backups[a], m, n, s.machines[m].ready && s.machines[m].replace))
      && t.backups[n] == s.backups[n].(phase := t.backups[n].phase)
      && t.leases == (if Clear(s, n, m) then s.leases[m := n] else s.leases)
      && t.restores == s.restores && t.machines == s.machines && t.born == s.born
  {
    var n, m := step.name, s.backups[step.name].machine;
    assert s.backups.Keys <= s.born.Keys && IsCanonical(s, m, step.canonical) && FoundBlocking(s, n, m, step.blocking);
    assert !Active(s.backups[n].phase);
    CanonicalIsEarliest(s, n, m, step.canonical);
    ReconciledIsAdmitted(s, n, step.blocking, step.outcome);
    var merged := MergedOthers(s, m, n);
    assert Next(s, step) == Admitted(merged, n, step.blocking, step.outcome);
    hide EarlierWaits, IsCanonical, BackupReconciled, Next, Enabled, Admitted, MergedOthers, Clear;
    MergedFirst(s, m, n, step.blocking);
    AdmittedDisplaces(merged, n, step.blocking, step.outcome);
  }

  lemma MergedFirst(s: State, m: Name, n: Name, blocking: Option<Name>)
    requires Exclusive(s) && n in s.backups && s.backups[n].machine == m && m in s.machines
    requires !Active(s.backups[n].phase)
    requires FoundBlocking(s, n, m, blocking)
    ensures var merged := MergedOthers(s, m, n);
      FoundBlocking(merged, n, m, blocking)
      && merged.backups.Keys == s.backups.Keys && merged.backups[n] == s.backups[n]
      && (forall a, b | ActiveOn(merged, a, m) && ActiveOn(merged, b, m) :: a == b)
      && (Clear(merged, n, m) <==> Clear(s, n, m)) && merged == s.(backups := merged.backups)
      && forall a :: a in s.backups && a != n ==>
           (ActiveOn(merged, a, m)
            <==> s.backups[a].machine == m && s.backups[a].phase in {Preparing, Running, Finalizing})
           && merged.backups[a] == Displaced(s.backups[a], m, n, false)
  {
    MergedOthersActives(s, m, n);
    var merged := MergedOthers(s, m, n);
    SameQuestions(s, n, m);
    SameQuestions(merged, n, m);
    SameRestores(s, merged, m);
    hide OtherRuns, RestoreWaits, BlockingRestore;
    assert (exists a :: a != n && ActiveOn(merged, a, m)) <==> (exists a :: a != n && ActiveOn(s, a, m));
  }

  lemma AdmittedDisplaces(s: State, n: Name, blocking: Option<Name>, outcome: Outcome)
    requires n in s.backups && s.backups[n].machine in s.machines && !Active(s.backups[n].phase)
    requires FoundBlocking(s, n, s.backups[n].machine, blocking)
    requires forall a, b | ActiveOn(s, a, s.backups[n].machine) && ActiveOn(s, b, s.backups[n].machine) :: a == b
    ensures var m, t := s.backups[n].machine, Admitted(s, n, blocking, outcome);
      t.backups.Keys == s.backups.Keys
      && (forall a :: a in s.backups && a != n ==>
            t.backups[a] == if s.machines[m].ready && s.machines[m].replace && ActiveOn(s, a, m)
                            then s.backups[a].(phase := Canceled) else s.backups[a])
      && t.backups[n] == s.backups[n].(phase := t.backups[n].phase)
      && t.leases == (if Clear(s, n, m) then s.leases[m := n] else s.leases)
      && t.restores == s.restores && t.machines == s.machines && t.born == s.born
  {
    hide BlockingRestore, OtherRuns, RestoreWaits, Admitted;
    var m := s.backups[n].machine;
    AdmittedForm(s, n, blocking, outcome);
    SameQuestions(s, n, m);
    assert blocking.Some? <==> exists a :: a != n && ActiveOn(s, a, m);
    var t := Admitted(s, n, blocking, outcome);
    if blocking.Some? {
      assert forall a :: a in s.backups && a != n ==> (ActiveOn(s, a, m) <==> a == blocking.value);
    }
  }

  lemma AdmittedForm(s: State, n: Name, blocking: Option<Name>, outcome: Outcome)
    requires n in s.backups && s.backups[n].machine in s.machines && !Active(s.backups[n].phase)
    requires FoundBlocking(s, n, s.backups[n].machine, blocking)
    requires forall a, b | ActiveOn(s, a, s.backups[n].machine) && ActiveOn(s, b, s.backups[n].machine) :: a == b
    ensures var m := s.backups[n].machine;
      var replaced := if blocking.Some? then WithPhase(s, blocking.value, Canceled) else s;
      Admitted(s, n, blocking, outcome)
      == if !s.machines[m].ready || (blocking.Some? && !s.machines[m].replace) then WithPhase(s, n, Pending)
         else if BlockingRestore(s, m) then WithPhase(replaced, n, Pending)
         else Finished(Claimed(replaced, m, n), n, outcome)
  {
    var m := s.backups[n].machine;
    var replaced := if blocking.Some? then WithPhase(s, blocking.value, Canceled) else s;
    SameRestores(s, replaced, m);
    NoneActive(s, n, m, blocking);
    hide BlockingRestore, WithPhase, Finished, ActiveOn;
  }

  lemma NoneActive(s: State, n: Name, m: Name, blocking: Option<Name>)
    requires n in s.backups && s.backups[n].machine == m && !Active(s.backups[n].phase)
    requires FoundBlocking(s, n, m, blocking)
    requires forall a, b | ActiveOn(s, a, m) && ActiveOn(s, b, m) :: a == b
    ensures var replaced := if blocking.Some? then WithPhase(s, blocking.value, Canceled) else s;
      forall a :: !ActiveOn(replaced, a, m)
  {
    if blocking.Some? { WithPhaseActives(s, blocking.value, Canceled); }
    var replaced := if blocking.Some? then WithPhase(s, blocking.value, Canceled) else s;
    forall a ensures !ActiveOn(replaced, a, m) {
      assert ActiveOn(replaced, a, m) ==> ActiveOn(s, a, m);
    }
  }

  /** A backup that another one waits before is merged into the first of them, and nothing else happens; without a run
      set it just ends. */
  lemma LaterBackupIsMerged(s: State, step: Step)
    requires ReconcilesPending(s, step)
    requires var m := s.backups[step.name].machine; !s.machines[m].runnable || EarlierWaits(s, step.name, m)
    ensures var n, b, m := step.name, s.backups[step.name], s.backups[step.name].machine;
      if s.machines[m].runnable then
        exists c :: c in s.backups && s.backups[c].machine == m && s.backups[c].phase in {Unset, Pending}
          && !EarlierWaits(s, c, m)
          && Next(s, step) == s.(backups := s.backups[n := b.(phase := Canceled, mergedInto := Some(c))])
      else Next(s, step) == s.(backups := s.backups[n := b.(phase := Failed)])
  {
    var n, m, c := step.name, s.backups[step.name].machine, step.canonical;
    assert s.backups.Keys <= s.born.Keys && IsCanonical(s, m, c) && IsPending(s.backups[n].phase);
    CanonicalIsEarliest(s, n, m, c);
    assert c in PendingFor(s, m);
    CanonicalIsEarliest(s, c, m, c);
    assert Next(s, step) == BackupReconciled(s, n, c, step.blocking, step.outcome);
    hide EarlierWaits, IsCanonical, Enabled, Next, FoundBlocking, Admitted, MergedOthers;
  }

  /** Backups that are not pending: a terminal one gives up its guard leases, one without its finalizer gets it, an
      active one is left to the status of its jobs. */
  lemma OtherBackups(s: State, step: Step)
    requires Enabled(s, step) && step.ReconcileBackup?
    ensures var n, b := step.name, s.backups[step.name];
      (b.phase in {Succeeded, Failed, Canceled} ==>
         Next(s, step) == s.(leases := map m | m in s.leases && s.leases[m] != n :: s.leases[m]))
      && (b.phase !in {Succeeded, Failed, Canceled} && !b.finalizer ==>
            Next(s, step) == s.(backups := s.backups[n := b.(finalizer := true)]))
      && (b.phase in {Preparing, Running, Finalizing} && b.finalizer ==> Next(s, step) == s)
  {
    hide IsCanonical, FoundBlocking, Admitted, MergedOthers;
  }

  // ---------------------------------------------------------------- restores

  /** Some backup of the machine is being prepared, running or finalizing. */
  ghost predicate SomeRuns(s: State, machine: Name) {
    exists a :: a in s.backups && s.backups[a].machine == machine
      && s.backups[a].phase in {Preparing, Running, Finalizing}
  }

  /** A pending restore with its finalizer ends in Failed iff the machine does not permit it, or is clear for it and its
      objects are rejected; in Preparing iff the machine is clear for it and its objects are created; it is held as
      Pending iff the machine is not. If its source or machine is gone it stays what it was. */
  lemma PhaseOfRestore(s: State, step: Step)
    requires Enabled(s, step) && step.ReconcileRestore? && s.restores[step.name].phase in {Unset, Pending}
    requires s.restores[step.name].finalizer
    ensures var n, r := step.name, s.restores[step.name];
      var clear := s.machines[r.machine].ready && !SomeRuns(s, r.machine);
      n in Next(s, step).restores
      && var q := Next(s, step).restores[n];
         Next(s, step) == s.(restores := s.restores[n := q]) && q == r.(phase := q.phase)
         && (q.phase == Failed <==> r.access == Denied || (r.access == Granted && clear && step.outcome == Rejected))
         && (q.phase == Preparing <==> r.access == Granted && clear && step.outcome == Created)
         && (r.access == Granted && !clear ==> q.phase == Pending)
         && (r.access == Lost || (r.access == Granted && clear && step.outcome == NotCreated) ==> q.phase == r.phase)
  {
    var m := s.restores[step.name].machine;
    SameRuns(s, m);
    hide BlockingBackup, SomeRuns;
  }

  lemma ActivePhases(p: Phase)
    ensures Active(p) <==> p in {Preparing, Running, Finalizing}
  {
  }

  lemma SameRuns(s: State, machine: Name)
    ensures SomeRuns(s, machine) <==> BlockingBackup(s, machine)
  {
    if BlockingBackup(s, machine) {
      var a :| a in s.backups && ActiveOn(s, a, machine);
      ActivePhases(s.backups[a].phase);
    }
    if SomeRuns(s, machine) {
      var a :| a in s.backups && s.backups[a].machine == machine
        && s.backups[a].phase in {Preparing, Running, Finalizing};
      assert ActiveOn(s, a, machine);
    }
  }

  /** Other restores: one without its finalizer gets it, unless it is terminal; else it is left to the status of its
      jobs. */
  lemma OtherRestores(s: State, step: Step)
    requires Enabled(s, step) && step.ReconcileRestore?
    ensures var n, r := step.name, s.restores[step.name];
      (r.phase !in {Succeeded, Failed, Canceled} && !r.finalizer ==>
         Next(s, step) == s.(restores := s.restores[n := r.(finalizer := true)]))
      && (r.phase in {Succeeded, Failed, Canceled} || (r.finalizer && r.phase !in {Unset, Pending}) ==>
          Next(s, step) == s)
  {
    hide BlockingBackup;
  }
}
