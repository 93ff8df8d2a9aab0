/** The reconcilers of backups and restores as they run against the API server (internal/controller/reconcilers.go):
    each one is a step of the admission protocol. */
module Reconcilers {
  import opened Wrappers
  import opened Ordering
  import opened Destinations
  import opened Attachment
  import opened Admission

  predicate CreatedBefore(backups: map<Name, Backup>, a: Name, b: Name) {
    a in backups && b in backups
    && (backups[a].created < backups[b].created || (backups[a].created == backups[b].created && NameLess(a, b)))
  }

  function ByCreation(backups: map<Name, Backup>): (Name, Name) -> bool {
    (a, b) => CreatedBefore(backups, a, b)
  }

  lemma CreationOrder(backups: map<Name, Backup>, names: seq<Name>)
    requires forall n :: n in names ==> n in backups && n.Valid()
    ensures Transitive(ByCreation(backups)) && Comparable(names, ByCreation(backups))
  {
    NameOrder(names);
    hide NameLess;
    var lt := ByCreation(backups);
    forall a, b, c | lt(a, b) && lt(b, c) ensures lt(a, c) {
    }
  }

  /** The backups of `merged` are cancelled in favour of `canonical`. */
  function WithMerged(backups: map<Name, Backup>, merged: seq<Name>, canonical: Name): map<Name, Backup> {
    map n | n in backups ::
      if n in merged then backups[n].(phase := Canceled, mergedInto := Some(canonical)) else backups[n]
  }

  class ApiServer {
    var machines: map<Name, Target>
    var backups: map<Name, Backup>
    var restores: map<Name, Restore>
    var leases: map<Name, Name>
    ghost var born: map<Name, nat>

    ghost function Model(): State
      reads this
    {
      State(machines, backups, restores, leases, born)
    }

    ghost predicate Valid()
      reads this
    {
      Sound(Model()) && forall n :: n in backups ==> n.Valid()
    }

    method SetPhase(n: Name, p: Phase)
      requires n in backups
      modifies this`backups
      ensures Model() == WithPhase(old(Model()), n, p)
    {
      backups := backups[n := backups[n].(phase := p)];
    }

    /** `cancelBackupJobMergedInto`. */
    method CancelMergedInto(n: Name, canonical: Name)
      requires n in backups
      modifies this`backups
      ensures Model() == Merged(old(Model()), n, canonical)
    {
      backups := backups[n := backups[n].(phase := Canceled, mergedInto := Some(canonical))];
    }

    /** The pending backups of a machine, in order of creation. */
    method ListPending(machine: Name) returns (pending: seq<Name>)
      requires Valid()
      ensures NoDuplicates(pending) && (forall n :: n in pending <==> n in PendingFor(Model(), machine))
      ensures Increasing(pending, ByCreation(backups))
    {
      hide NameLess, CreatedBefore;
      pending := [];
      var todo := backups.Keys;
      while todo != {}
        invariant todo <= backups.Keys && NoDuplicates(pending)
        invariant forall n :: n in pending <==> n in PendingFor(Model(), machine) && n !in todo
        decreases todo
      {
        var n :| n in todo;
        todo := todo - {n};
        if backups[n].machine == machine && IsPending(backups[n].phase) {
          pending := pending + [n];
        }
      }
      CreationOrder(backups, pending);
      SortByIncreasing(pending, ByCreation(backups));
      ghost var listed := pending;
      pending := SortBy(pending, ByCreation(backups));
      SortedKeepsDistinct(listed, pending, ByCreation(backups));
    }

    /** `coalescePendingBackupJobsForTarget`. */
    method CoalescePending(n: Name, machine: Name) returns (canonical: Name)
      requires Valid() && n in PendingFor(Model(), machine)
      modifies this`backups
      ensures old(backups.Keys) <= born.Keys && IsCanonical(old(Model()), machine, canonical)
      ensures Model() == if canonical == n then MergedOthers(old(Model()), machine, n) else old(Model())
    {
      hide NameLess, CreatedBefore, MergedOthers, WithMerged, Before;
      var pending := ListPending(machine);
      canonical := pending[0];
      FirstIsCanonical(Model(), machine, pending);
      if canonical != n {
        return;
      }
      CancelRest(n, pending);
      AllMerged(old(Model()), machine, n, pending);
    }

    method CancelRest(canonical: Name, pending: seq<Name>)
      requires pending != [] && NoDuplicates(pending) && forall n :: n in pending ==> n in backups
      modifies this`backups
      ensures backups == WithMerged(old(backups), pending[1..], canonical)
    {
      NothingMerged(backups, canonical);
      hide WithMerged;
      assert pending[1..1] == [];
      for i := 1 to |pending|
        invariant backups == WithMerged(old(backups), pending[1..i], canonical)
      {
        OneMoreMerged(old(backups), pending, i, canonical);
        CancelMergedInto(pending[i], canonical);
      }
      assert pending[1..|pending|] == pending[1..];
    }

    /** `findActiveBackupJobForTarget` of the backup side: any other active run of the machine. */
    method FindActiveBackup(n: Name, machine: Name) returns (r: Option<Name>)
      ensures FoundBlocking(Model(), n, machine, r)
    {
      var todo := backups.Keys;
      while todo != {}
        invariant todo <= backups.Keys
        invariant forall other :: other != n && other in backups && other !in todo ==>
          !ActiveOn(Model(), other, machine)
        decreases todo
      {
        var other :| other in todo;
        todo := todo - {other};
        if other != n && Active(backups[other].phase) && backups[other].machine == machine {
          return Some(other);
        }
      }
      return None;
    }

    /** `findActiveRestoreJobForTarget`. */
    method FindActiveRestore(machine: Name) returns (found: bool)
      ensures found <==> BlockingRestore(Model(), machine)
    {
      var todo := restores.Keys;
      while todo != {}
        invariant todo <= restores.Keys
        invariant forall r :: r in restores && r !in todo ==> !Blocks(restores[r], machine)
        decreases todo
      {
        var r :| r in todo;
        todo := todo - {r};
        if Terminal(restores[r].phase) {
          continue;
        }
        if restores[r].access.Granted? && restores[r].machine == machine {
          return true;
        }
      }
      return false;
    }

    /** `activeGuardHolder`. */
    method ActiveHolder(machine: Name) returns (active: bool)
      ensures active <==> machine in leases && ActiveOn(Model(), leases[machine], machine)
    {
      if machine !in leases || leases[machine] !in backups {
        return false;
      }
      var holder := backups[leases[machine]];
      return Active(holder.phase) && holder.machine == machine;
    }

    /** `acquireTargetGuard`. */
    method AcquireTargetGuard(n: Name, machine: Name, replace: bool) returns (acquired: bool)
      modifies this`backups, this`leases
      ensures acquired <==> Guarded(old(Model()), machine, n, replace).Some?
      ensures Model() == if acquired then Guarded(old(Model()), machine, n, replace).value else old(Model())
    {
      if machine in leases && leases[machine] != n {
        var active := ActiveHolder(machine);
        if active {
          if !replace {
            return false;
          }
          SetPhase(leases[machine], Canceled);
        }
      }
      leases := leases[machine := n];
      return true;
    }

    /** The part of the backup reconcile after the merges. */
    method Admit(n: Name, outcome: Outcome) returns (ghost blocking: Option<Name>)
      requires n in backups && backups[n].machine in machines
      modifies this`backups, this`leases
      ensures FoundBlocking(old(Model()), n, old(backups[n].machine), blocking)
      ensures blocking.Some? ==> blocking.value in old(backups)
      ensures Model() == Admitted(old(Model()), n, blocking, outcome)
    {
      hide BlockingRestore, Guarded;
      var machine := backups[n].machine;
      var target := machines[machine];
      var found := FindActiveBackup(n, machine);
      blocking := found;
      if !target.ready {
        SetPhase(n, Pending);
        return;
      }
      if found.Some? {
        if !target.replace {
          SetPhase(n, Pending);
          return;
        }
        SetPhase(found.value, Canceled);
      }
      var restoring := FindActiveRestore(machine);
      if restoring {
        SetPhase(n, Pending);
        return;
      }
      ghost var before := Model();
      var acquired := AcquireTargetGuard(n, machine, target.replace);
      if !acquired {
        SetPhase(n, Pending);
        return;
      }
      GuardKeepsBackup(before, machine, n, target.replace);
      match outcome
      case Created => SetPhase(n, Preparing);
      case Rejected => SetPhase(n, Failed);
      case NotCreated =>
    }

    /** The reconcile of a pending backup with its finalizer, whose run set could be calculated. */
    method ReconcilePending(n: Name, outcome: Outcome) returns (ghost step: Step)
      requires Valid() && n in backups && backups[n].machine in machines && IsPending(backups[n].phase)
      requires backups[n].finalizer && machines[backups[n].machine].runnable
      modifies this`backups, this`leases
      ensures step.ReconcileBackup? && step.name == n && step.outcome == outcome
      ensures Enabled(old(Model()), step) && Model() == Next(old(Model()), step)
    {
      hide Admitted, Before, IsCanonical, MergedOthers, Sound, BackupReconciled;
      var machine := backups[n].machine;
      var canonical := CoalescePending(n, machine);
      if canonical != n {
        var found := FindActiveBackup(n, machine);
        step := Step.ReconcileBackup(n, canonical, found, outcome);
        ReconciledIsMerged(old(Model()), n, canonical, found, outcome);
        CancelMergedInto(n, canonical);
      } else {
        MergedOthersActives(old(Model()), machine, n);
        ghost var blocking := Admit(n, outcome);
        step := Step.ReconcileBackup(n, n, blocking, outcome);
        SameBlocking(old(Model()), machine, n, blocking);
        ReconciledIsAdmitted(old(Model()), n, blocking, outcome);
      }
    }

    /** `BackupJobReconciler.Reconcile`, as one step of the protocol. */
    method ReconcileBackup(n: Name, outcome: Outcome) returns (ghost step: Step)
      requires Valid() && n in backups && backups[n].machine in machines
      modifies this`backups, this`leases
      ensures step.ReconcileBackup? && step.name == n && step.outcome == outcome
      ensures Enabled(old(Model()), step) && Model() == Next(old(Model()), step) && Sound(Model())
    {
      hide Admitted, Before, IsCanonical;
      var b := backups[n];
      SoundKeys(Model());
      assert Sound(Model());
      if IsPending(b.phase) && b.finalizer && machines[b.machine].runnable {
        step := ReconcilePending(n, outcome);
      } else {
        var found := FindActiveBackup(n, b.machine);
        assert IsPending(b.phase) ==> n in PendingFor(Model(), b.machine);
        ghost var canonical := SomeCanonical(Model(), b.machine);
        step := Step.ReconcileBackup(n, canonical, found, outcome);
        hide Sound;
        if Terminal(b.phase) {
          leases := map m | m in leases && leases[m] != n :: leases[m];
        } else if !b.finalizer {
          backups := backups[n := b.(finalizer := true)];
        } else if IsPending(b.phase) {
          SetPhase(n, Failed);
        }
      }
      assert Enabled(old(Model()), step);
      NextIsSound(old(Model()), step);
    }

    /** `RestoreJobReconciler.Reconcile`, as one step of the protocol. */
    method ReconcileRestore(n: Name, outcome: Outcome)
      requires n in restores && restores[n].machine in machines
      modifies this`restores
      ensures Model() == Next(old(Model()), Step.ReconcileRestore(n, outcome))
    {
      var r := restores[n];
      if !Terminal(r.phase) && !r.finalizer {
        restores := restores[n := r.(finalizer := true)];
        return;
      }
      if !IsPending(r.phase) || r.access.Lost? {
        return;
      }
      if r.access.Denied? {
        restores := restores[n := r.(phase := Failed)];
        return;
      }
      var held := !machines[r.machine].ready;
      if !held {
        held := ActiveHolder(r.machine);
      }
      if !held {
        var found := FindActiveBackup(n, r.machine);
        var own := n in backups && Active(backups[n].phase) && backups[n].machine == r.machine;
        held := found.Some? || own;
      }
      if held {
        restores := restores[n := r.(phase := Pending)];
        return;
      }
      match outcome
      case Created => restores := restores[n := r.(phase := Preparing)];
      case Rejected => restores := restores[n := r.(phase := Failed)];
      case NotCreated =>
    }
  }

  lemma ReconciledIsMerged(s: State, n: Name, canonical: Name, blocking: Option<Name>, outcome: Outcome)
    requires Enabled(s, Step.ReconcileBackup(n, canonical, blocking, outcome)) && IsPending(s.backups[n].phase)
    requires canonical != n
    requires s.backups[n].finalizer && s.machines[s.backups[n].machine].runnable
    ensures BackupReconciled(s, n, canonical, blocking, outcome) == Merged(s, n, canonical)
  {
  }

  lemma SoundKeys(s: State)
    requires Sound(s)
    ensures s.backups.Keys <= s.born.Keys
  {
  }

  lemma SameBlocking(s: State, machine: Name, n: Name, blocking: Option<Name>)
    requires n in s.backups && !Active(s.backups[n].phase)
    requires FoundBlocking(MergedOthers(s, machine, n), n, machine, blocking)
    ensures FoundBlocking(s, n, machine, blocking)
  {
    MergedOthersActives(s, machine, n);
  }

  lemma SortedKeepsDistinct(listed: seq<Name>, sorted: seq<Name>, lt: (Name, Name) -> bool)
    requires NoDuplicates(listed) && |sorted| == |listed| && forall n :: n in sorted <==> n in listed
    ensures NoDuplicates(sorted)
  {
    DistinctCount(listed);
    assert Elements(listed) == Elements(sorted);
    FullCountIsDistinct(sorted);
  }

  lemma {:induction false} FullCountIsDistinct(s: seq<Name>)
    ensures |Elements(s)| <= |s|
    ensures |Elements(s)| == |s| ==> NoDuplicates(s)
  {
    if s == [] {
      assert Elements(s) == {};
    } else {
      FullCountIsDistinct(s[1..]);
      assert Elements(s) == {s[0]} + Elements(s[1..]);
      if |Elements(s)| == |s| {
        assert s[0] !in s[1..];
        assert forall k :: 0 < k < |s| ==> s[k] == s[1..][k - 1];
      }
    }
  }

  lemma FirstIsCanonical(s: State, machine: Name, pending: seq<Name>)
    requires Sound(s) && pending != [] && Increasing(pending, ByCreation(s.backups))
    requires forall n :: n in pending <==> n in PendingFor(s, machine)
    ensures s.backups.Keys <= s.born.Keys && IsCanonical(s, machine, pending[0])
  {
    hide NameLess;
    forall n | n in PendingFor(s, machine) && n != pending[0] ensures Before(s.born, pending[0], n) {
      HeadIsLeast(pending, n, ByCreation(s.backups));
    }
  }

  lemma SomeCanonical(s: State, machine: Name) returns (c: Name)
    requires Sound(s) && forall n :: n in s.backups ==> n.Valid()
    ensures PendingFor(s, machine) != {} ==> IsCanonical(s, machine, c)
  {
    if PendingFor(s, machine) != {} {
      c := Earliest(s.born, PendingFor(s, machine));
    } else {
      c := machine;
    }
  }

  lemma NothingMerged(backups: map<Name, Backup>, canonical: Name)
    ensures WithMerged(backups, [], canonical) == backups
  {
  }

  lemma OneMoreMerged(backups: map<Name, Backup>, pending: seq<Name>, i: nat, canonical: Name)
    requires 1 <= i < |pending| && pending[i] in backups && NoDuplicates(pending)
    ensures var merged := WithMerged(backups, pending[1..i], canonical);
      pending[i] in merged && merged[pending[i]] == backups[pending[i]]
      && WithMerged(backups, pending[1..i + 1], canonical)
         == merged[pending[i] := backups[pending[i]].(phase := Canceled, mergedInto := Some(canonical))]
  {
    assert pending[1..i + 1] == pending[1..i] + [pending[i]];
    assert pending[i] !in pending[1..i];
  }

  lemma AllMerged(s: State, machine: Name, n: Name, pending: seq<Name>)
    requires pending != [] && pending[0] == n && NoDuplicates(pending) && forall x :: x in pending <==>
      x in PendingFor(s, machine)
    ensures s.(backups := WithMerged(s.backups, pending[1..], n)) == MergedOthers(s, machine, n)
  {
    assert forall x :: x in pending[1..] <==> x in pending && x != n;
  }

  lemma GuardKeepsBackup(s: State, machine: Name, n: Name, replace: bool)
    requires n in s.backups && Guarded(s, machine, n, replace).Some?
    ensures n in Guarded(s, machine, n, replace).value.backups
  {
  }
}
