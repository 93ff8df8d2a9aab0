/** The loops of the serving process of a target (internal/cli/cli.go, internal/dataplane/transport.go,
    controlclient.go): the completion loop of the receiver, the wait for the finalize command, and the options that it
    orders. */
module ServeTarget {
  import opened Wrappers
  import opened Text
  import opened Paths
  import opened Calendar
  import opened Destinations
  import opened Commands
  import opened Volume
  import opened SnapshotStore
  import opened FinalizeRestart
  import Retention

  // ---------------------------------------------------------------- receiving

  /** The end of one accepted connection: the sender's identity, and whether its transfer succeeded. */
  datatype Arrival = Arrival(identity: Name, ok: bool)

  /** The identities whose transfers succeeded. */
  function Succeeded(arrivals: seq<Arrival>): set<Name> {
    set a | a in arrivals && a.ok :: a.identity
  }

  datatype Received = Complete(used: nat) | Aborted(used: nat) | StillWaiting

  /** What the completion loop may answer: it is complete after the shortest part of the arrivals that covers all
      expected identities; a failed transfer before that ends it, unless failures are tolerated. */
  ghost predicate ReceiverEnds(expected: set<Name>, arrivals: seq<Arrival>, tolerant: bool, r: Received) {
    match r
    case Complete(used) =>
      used <= |arrivals| && expected <= Succeeded(arrivals[..used])
      && (forall n :: 0 <= n < used ==> !(expected <= Succeeded(arrivals[..n])))
      && (tolerant || forall i :: 0 <= i < used ==> arrivals[i].ok)
    case Aborted(used) =>
      !tolerant && 0 < used <= |arrivals| && !arrivals[used - 1].ok
        && (forall n :: 0 <= n < used ==> !(expected <= Succeeded(arrivals[..n])))
    case StillWaiting =>
      (forall n :: 0 <= n <= |arrivals| ==> !(expected <= Succeeded(arrivals[..n])))
      && (tolerant || forall i :: 0 <= i < |arrivals| ==> arrivals[i].ok)
  }

  /** The completion loop of `ServeTargetReceiver`. It counts: a successful transfer is always that of an expected
      identity, so as many completed identities as expected ones are all of them. */
  method ServeReceiver(expected: set<Name>, arrivals: seq<Arrival>, tolerant: bool) returns (r: Received)
    requires forall a :: a in arrivals && a.ok ==> a.identity in expected
    ensures ReceiverEnds(expected, arrivals, tolerant, r)
  {
    var completed: set<Name> := {};
    var i := 0;
    assert Succeeded(arrivals[..0]) == {};
    while |completed| < |expected|
      invariant i <= |arrivals| && completed == Succeeded(arrivals[..i]) && completed <= expected
      invariant forall n :: 0 <= n < i ==> !(expected <= Succeeded(arrivals[..n]))
      invariant tolerant || forall k :: 0 <= k < i ==> arrivals[k].ok
      decreases |arrivals| - i
    {
      Covering(expected, completed);
      if i == |arrivals| {
        return StillWaiting;
      }
      var arrival := arrivals[i];
      assert arrivals[..i + 1] == arrivals[..i] + [arrival];
      assert arrival in arrivals;
      i := i + 1;
      if !arrival.ok {
        if tolerant {
          assert Succeeded(arrivals[..i]) == completed;
          continue;
        }
        return Aborted(i);
      }
      completed := completed + {arrival.identity};
      assert completed == Succeeded(arrivals[..i]);
    }
    Covering(expected, completed);
    return Complete(i);
  }

  lemma Covering(expected: set<Name>, completed: set<Name>)
    requires completed <= expected
    ensures expected <= completed <==> |completed| >= |expected|
  {
    Retention.Smaller(completed, expected);
    assert expected <= completed ==> expected == completed;
  }

  // ---------------------------------------------------------------- waiting for finalize

  /** What the wait may see next: a command, the end of the command stream, an error of the stream or none, or the end
      of the context. */
  datatype Signal = Got(command: Command) | StreamClosed | StreamError | NoError | ContextEnded

  predicate Finalizes(s: Signal) {
    s.Got? && s.command.kind.FinalizeBackupJob? && s.command.finalize.Some?
  }

  predicate Recovers(s: Signal) {
    s.Got? && s.command.kind.RecoverSpace? && s.command.recover.Some?
  }

  /** A signal that ends the wait with an error. */
  predicate Aborts(s: Signal) {
    match s
    case Got(c) =>
      c.kind.AbortRun? || (c.kind.FinalizeBackupJob? && c.finalize.None?) || (c.kind.RecoverSpace? && c.recover.None?)
    case NoError => false
    case _ => true
  }

  /** A signal that ends the wait, where `recovers` tells whether the recovery for a command succeeds. */
  predicate Ends(s: Signal, recovers: Command -> bool) {
    Finalizes(s) || Aborts(s) || (Recovers(s) && !recovers(s.command))
  }

  /** The end of the wait: the finalize command, an error, or no more signals so far. */
  datatype Waited = Finalizing(index: nat, command: Command) | Stopped(index: nat) | NotYet

  /** How the wait ends on these signals. */
  ghost predicate WaitEnds(signals: seq<Signal>, recovers: Command -> bool, r: Waited) {
    match r
    case Finalizing(index, command) =>
      index < |signals| && signals[index] == Got(command) && Finalizes(signals[index])
      && forall i :: 0 <= i < index ==> !Ends(signals[i], recovers)
    case Stopped(index) =>
      index < |signals| && Ends(signals[index], recovers) && !Finalizes(signals[index])
      && forall i :: 0 <= i < index ==> !Ends(signals[i], recovers)
    case NotYet => forall i :: 0 <= i < |signals| ==> !Ends(signals[i], recovers)
  }

  /** The command loop of `WaitForFinalizeBackupJobWithRecovery`. */
  method WaitForFinalize(signals: seq<Signal>, recovers: Command -> bool) returns (r: Waited)
    ensures WaitEnds(signals, recovers, r)
  {
    for i := 0 to |signals|
      invariant forall k :: 0 <= k < i ==> !Ends(signals[k], recovers)
    {
      match signals[i]
      case Got(command) =>
        match command.kind {
          case FinalizeBackupJob =>
            if command.finalize.None? {
              return Stopped(i);
            }
            return Finalizing(i, command);
          case RecoverSpace =>
            if command.recover.None? || !recovers(command) {
              return Stopped(i);
            }
          case AbortRun =>
            return Stopped(i);
          case OtherType =>
        }
      case NoError =>
      case _ =>
        return Stopped(i);
    }
    return NotYet;
  }

  // ---------------------------------------------------------------- finalizing as ordered

  /** `finalizeCommandSources`: the non-empty destinations of the command, sorted. */
  method FinalizeCommandSources(sources: seq<ExpectedSource>) returns (out: seq<string>)
    ensures forall p :: p in out <==> p != "" && exists s :: s in sources && s.destinationPath == p
  {
    out := [];
    for i := 0 to |sources|
      invariant forall p :: p in out <==> p != "" && exists k :: 0 <= k < i && sources[k].destinationPath == p
    {
      if sources[i].destinationPath != "" {
        out := out + [sources[i].destinationPath];
      }
    }
    forall p ensures p in out <==> p != "" && exists s :: s in sources && s.destinationPath == p {
      if p in out {
        var k :| 0 <= k < |sources| && sources[k].destinationPath == p;
        assert sources[k] in sources;
      }
    }
    out := SortStrings(out);
  }

  /** The options of the promotion that the finalize command asks for; its empty fields fall back to the command
      line. */
  ghost predicate Ordered(opts: Options, command: FinalizePayload, finalOpts: Options) {
    finalOpts.targetRoot == opts.targetRoot && finalOpts.runID == opts.runID && finalOpts.retention == opts.retention
    && finalOpts.timestamp == (if command.timestamp != "" then command.timestamp else opts.timestamp)
    && (command.sources == [] ==> finalOpts.sources == opts.sources)
    && (command.sources != [] ==>
          forall p :: p in finalOpts.sources <==> p != "" && exists s :: s in command.sources && s.destinationPath == p)
  }

  /** The options that `serveTarget` passes on, once the finalize command is there. */
  method FinalizeOptions(opts: Options, command: FinalizePayload) returns (finalOpts: Options)
    ensures Ordered(opts, command, finalOpts)
  {
    finalOpts := opts;
    if command.timestamp != "" {
      finalOpts := finalOpts.(timestamp := command.timestamp);
    }
    if command.sources != [] {
      var sources := FinalizeCommandSources(command.sources);
      finalOpts := finalOpts.(sources := sources);
    }
  }

  /** The tree has a node at the source, which is a good relative path. */
  predicate Has(tree: Tree, source: string) {
    NormalizeRelative(source).Ok? && Named(Split(source, '/')) in tree
  }

  /** A promoted snapshot contains every source it was finalized with: right after the promotion, and, if retention
      keeps the snapshot, when the run is reported complete. */
  lemma PromotedTreeIsWhole(d: Disk, opts: Options, source: string)
    requires InFolders(d) && Finalize(d, opts).points.Some? && source in opts.sources
    ensures var base, hourly := Base(d, opts), Root("hourly", opts.timestamp);
      hourly in base.trees && Has(base.trees[hourly], source)
    ensures var e, hourly := Finalized(d, opts), Root("hourly", opts.timestamp);
      HourlyKept(d, opts) ==> hourly in e.trees && Has(e.trees[hourly], source)
  {
    hide ParseTime, ValidRunID, Final, HourlyKept, Named, Finalize, Finalized, NormalizeRelative, Segments;
    FinalizeIffStartable(d, opts);
    KeptIffSurvives(d, opts);
    BaseInFolders(d, opts);
    if HourlyKept(d, opts) { KeptTree(Base(d, opts), opts); }
    PresentIsThere(Base(d, opts), HourlyRoot(opts), source);
  }

  lemma PresentIsThere(d: Disk, r: Root, source: string)
    requires StatRoot(d, r).Present?
    ensures SourcePresent(d, r, source) ==> Has(d.trees[r], source)
  {
    hide NormalizeRelative, Segments, Named;
    if NormalizeRelative(source).Ok? {
      NormalizeYieldsNormal(source);
      var path := Segments(NormalizeRelative(source).value);
      assert ([r.dir, r.name] + path)[2..] == path;
    }
  }

  /** A run whose staged tree lacks a source is not promoted, and nothing is changed. */
  lemma LackingSourceFails(d: Disk, opts: Options, source: string)
    requires StatRoot(d, PartialRoot(opts)).Present? && source in opts.sources
    requires !Has(d.trees[PartialRoot(opts)], source)
    ensures Finalize(d, opts) == Outcome(None, [])
  {
    hide ParseTime, ValidRunID, Promoted, PromotedPartial, Has, SourcePresent;
    PresentIsThere(d, PartialRoot(opts), source);
  }

  lemma KeptTree(d: Disk, opts: Options)
    requires ValidArguments(opts) && InFolders(d) && Ready(d, opts) && HourlySurvives(d, opts)
    ensures var e := Final(d, opts);
      HourlyRoot(opts) in e.trees && e.trees[HourlyRoot(opts)] == d.trees[HourlyRoot(opts)]
        && StatRoot(e, HourlyRoot(opts)).Present?
  {
    hide ParseTime, ValidRunID, Assembled, SourcesPresent;
    DirsDiffer();
    AssembledUsable(d, opts);
    AssembledKeeps(d, opts);
  }
}
