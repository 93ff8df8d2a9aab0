/** The finalize command on its way from the run set of the controller (internal/controller/reconcilers.go) through the
    checks of the command service (internal/control/service.go) to the options of the target (internal/cli/cli.go). */
module FinalizeCommand {
  import opened Wrappers
  import opened Text
  import opened Destinations
  import opened Labels
  import opened Commands
  import opened SnapshotStore
  import opened ServeTarget

  /** One expected source of the command; in Mirror mode `.` stands for the root. */
  function SourceOf(strategy: Strategy, source: Resolved): ExpectedSource {
    ExpectedSource(source.ref.ns, source.ref.name,
                   if strategy.Mirror? && source.effective == "" then "." else source.effective)
  }

  /** `enqueueFinalizeCommand`: the command for a run and its sources. */
  ghost function FinalizeFor(hash: string -> string, run: Name, strategy: Strategy, sources: seq<Resolved>,
                             timestamp: string, bytes: nat): Command
    requires Digests(hash)
  {
    var expected := seq(|sources|, i requires 0 <= i < |sources| => SourceOf(strategy, sources[i]));
    Command("finalize-" + Label(hash, run.name, 63), FinalizeBackupJob,
            Some(FinalizePayload(timestamp, expected, bytes)),
            None, None)
  }

  /** The service takes the finalize command of every run with accepted sources, and a target that gets it leaves its
      wait with it. */
  lemma FinalizeIsAccepted(hash: string -> string, run: Name, strategy: Strategy, sources: seq<Resolved>,
                           timestamp: string,
                           bytes: nat)
    requires Digests(hash) && run.Valid() && RunSources(strategy, sources) && timestamp != ""
    ensures var command := FinalizeFor(hash, run, strategy, sources, timestamp, bytes);
      ValidKey(RunKey(run.ns, run.name, Backup)) && ValidCommand(command) && Finalizes(Got(command))
  {
    hide Label, IsDnsLabel, IsDnsSubdomain, Effective, Neat, Digests;
    LabelIsNeat(hash, run.name, 63);
    FinalizeIsName();
    PrefixedLabel("finalize-", Label(hash, run.name, 63));
    forall i | 0 <= i < |sources| ensures ValidSource(SourceOf(strategy, sources[i])) {
      AcceptedSourceIsValid(strategy, sources[i]);
    }
    SourcesAreValid(FinalizeFor(hash, run, strategy, sources, timestamp, bytes).finalize.value, strategy, sources);
  }

  lemma SourcesAreValid(payload: FinalizePayload, strategy: Strategy, sources: seq<Resolved>)
    requires payload.timestamp != "" && |payload.sources| == |sources|
    requires forall i :: 0 <= i < |sources| ==>
      payload.sources[i] == SourceOf(strategy, sources[i]) && ValidSource(SourceOf(strategy, sources[i]))
    ensures ValidFinalize(payload)
  {
    hide SourceOf, IsDnsLabel, IsDnsSubdomain;
  }

  lemma AcceptedSourceIsValid(strategy: Strategy, source: Resolved)
    requires source.ref.Valid() && Effective(strategy, source.ref.ns, source.destinationPath) == Ok(source.effective)
    ensures ValidSource(SourceOf(strategy, source))
    ensures strategy.Snapshot? ==> source.effective != ""
  {
    hide Effective, IsDnsSubdomain, IsDnsLabel;
    EffectiveSegments(strategy, source.ref.ns, source.destinationPath);
  }

  predicate ValidSource(s: ExpectedSource) {
    IsDnsLabel(s.ns) && IsDnsSubdomain(s.name) && s.destinationPath != ""
  }

  predicate NameStart(prefix: string) {
    0 < |prefix| < 100 && prefix[0] != '-' && forall c :: c in prefix ==> LabelChar(c)
  }

  lemma FinalizeIsName()
    ensures NameStart("finalize-")
  {
  }

  lemma PrefixedLabel(prefix: string, made: string)
    requires NameStart(prefix) && Neat(made) && |made| <= 63
    ensures IsDnsSubdomain(prefix + made)
  {
    hide Split;
    var id := prefix + made;
    assert forall c :: c in id ==> c in prefix || c in made;
    SplitPlain(id, '.');
    OnePart(id, Split(id, '.'));
  }

  lemma OnePart(id: string, parts: seq<string>)
    requires 0 < |id| <= 253 && Split(id, '.') == parts && forall p :: p in parts ==> p == id
    requires (forall c :: c in id ==> LabelChar(c)) && id[0] != '-' && id[|id| - 1] != '-'
    ensures IsDnsSubdomain(id)
  {
    hide Split, LabelChar;
  }

  /** What such a target then finalizes: its own run, under the time of the command, with exactly the effective
      destinations of the run's sources. */
  lemma FinalizeIsAsOrdered(hash: string -> string, run: Name, sources: seq<Resolved>, timestamp: string, bytes: nat,
                            opts: Options, finalOpts: Options)
    requires Digests(hash) && RunSources(Snapshot, sources) && timestamp != "" && sources != []
    requires Ordered(opts, FinalizeFor(hash, run, Snapshot, sources, timestamp, bytes).finalize.value, finalOpts)
    ensures finalOpts.runID == opts.runID && finalOpts.timestamp == timestamp && finalOpts.retention == opts.retention
    ensures forall p :: p in finalOpts.sources <==> exists i :: 0 <= i < |sources| && sources[i].effective == p
  {
    hide Effective, IsDnsLabel, IsDnsSubdomain, Label, Digests;
    var expected := FinalizeFor(hash, run, Snapshot, sources, timestamp, bytes).finalize.value.sources;
    assert expected[0] == SourceOf(Snapshot, sources[0]);
    forall i | 0 <= i < |sources|
      ensures expected[i] in expected && expected[i].destinationPath == sources[i].effective != ""
    {
      AcceptedSourceIsValid(Snapshot, sources[i]);
    }
    hide RunSources, FinalizeFor;
    forall p ensures p in finalOpts.sources <==> exists i :: 0 <= i < |sources| && sources[i].effective == p {
      if p in finalOpts.sources {
        var s :| s in expected && s.destinationPath == p;
        var i :| 0 <= i < |expected| && expected[i] == s;
        assert sources[i].effective == p;
      }
    }
  }

  /** The service takes a command iff its id is a Kubernetes name, it carries the payload of its type and no other, and
      that is complete: a finalize command with a time and well-named sources with destinations, a recovery with a
      well-named source, a reason, an amount and named snapshots. Keys name a backup or a restore. */
  lemma TakenIff(c: Command, key: RunKey)
    ensures ValidKey(key) <==> IsDnsLabel(key.ns) && IsDnsSubdomain(key.name) && key.kind in {Backup, Restore}
    ensures ValidCommand(c) && c.kind == FinalizeBackupJob <==>
      c == Command(c.id, FinalizeBackupJob, c.finalize, None, None) && IsDnsSubdomain(c.id)
      && c.finalize.Some? && c.finalize.value.timestamp != ""
      && forall s :: s in c.finalize.value.sources ==>
         IsDnsLabel(s.ns) && IsDnsSubdomain(s.name) && s.destinationPath != ""
    ensures ValidCommand(c) && c.kind == RecoverSpace <==>
      c == Command(c.id, RecoverSpace, None, c.recover, None) && IsDnsSubdomain(c.id)
      && c.recover.Some? && IsDnsLabel(c.recover.value.ns) && IsDnsSubdomain(c.recover.value.name)
      && c.recover.value.reason != "" && c.recover.value.minAvailableBytes > 0
         && "" !in c.recover.value.protectedSnapshots
    ensures ValidCommand(c) && c.kind == AbortRun <==>
      c == Command(c.id, AbortRun, None, None, c.abort) && IsDnsSubdomain(c.id) && c.abort.Some?
  {
    hide IsDnsSubdomain, IsDnsLabel;
  }

  /** So a target never ends its wait for want of a payload. */
  lemma TakenCommands(c: Command)
    requires ValidCommand(c)
    ensures !(c.kind.OtherType?) && IsDnsSubdomain(c.id)
    ensures c.kind.FinalizeBackupJob? <==> Finalizes(Got(c))
    ensures c.kind.RecoverSpace? <==> Recovers(Got(c))
    ensures c.kind.AbortRun? <==> Aborts(Got(c))
  {
    hide IsDnsSubdomain;
  }
}
