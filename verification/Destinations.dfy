/** Where a source's files go: computed by the controller (internal/controller/helpers.go, builders.go), passed
    through two command lines, and checked by the target receiver (internal/dataplane/transport.go). */
module Destinations {
  import opened Wrappers
  import opened Text
  import opened Paths

  datatype Strategy = Snapshot | Mirror

  /** A `types.NamespacedName`. */
  datatype Name = Name(ns: string, name: string) {
    function ToText(): string { ns + "/" + name }
    predicate Valid() { IsDnsLabel(ns) && IsDnsSubdomain(name) }
  }

  // ---------------------------------------------------------------- controller side

  function EffectiveSnapshot(ns: string, destinationPath: string): Result<string> {
    if ns == "" then Err(NamespaceRequired)
    else if destinationPath == "" || destinationPath == "/" then Ok(ns)
    else match CleanRelative(destinationPath)
      case Err(e) => Err(e)
      case Ok(cleaned) => Ok(JoinPath([ns, cleaned]))
  }

  function EffectiveMirror(destinationPath: string): Result<string> {
    if destinationPath == "" || destinationPath == "/" then Ok("") else CleanRelative(destinationPath)
  }

  function Effective(strategy: Strategy, ns: string, destinationPath: string): Result<string> {
    match strategy
    case Mirror => EffectiveMirror(destinationPath)
    case Snapshot => EffectiveSnapshot(ns, destinationPath)
  }

  /** The sender's `--target` argument. */
  function TransferDestination(strategy: Strategy, runID: string, ns: string, destinationPath: string): Result<string> {
    match Effective(strategy, ns, destinationPath)
    case Err(e) => Err(e)
    case Ok(effective) =>
      match strategy
      case Mirror => Ok(if effective == "" then "." else effective)
      case Snapshot => if runID == "" then Err(RunIDRequired) else Ok(JoinPath([PARTIAL, runID, effective]))
  }

  /** One `--source` argument of the target job. */
  function SourceArgument(strategy: Strategy, source: Name, effective: string): string {
    source.ToText() + "=" + (if strategy.Mirror? && effective == "" then "." else effective)
  }

  function RunID(run: Name): string {
    if run.ns == "" then run.name else run.ns + "-" + run.name
  }

  datatype Resolved = Resolved(ref: Name, destinationPath: string, effective: string)

  function SourceArguments(strategy: Strategy, sources: seq<Resolved>): seq<string> {
    seq(|sources|, i requires 0 <= i < |sources| => SourceArgument(strategy, sources[i].ref, sources[i].effective))
  }

  // ---------------------------------------------------------------- data plane side

  /** `namespace/name=destination`, or a bare destination. */
  function ParseSourceSpec(value: string): Result<(string, string, string)> {
    match Cut(value, '=')
    case None => Ok(("", "", value))
    case Some((left, right)) =>
      match Cut(left, '/')
      case None => Err(SpecIdentity)
      case Some((ns, name)) =>
        if ns == "" || name == "" then Err(SpecIdentity)
        else if right == "" then Err(SpecDestination)
        else Ok((ns, name, right))
  }

  datatype Expectation = Expectation(identity: Name, destination: string)

  /** What one `--source` argument makes the receiver expect; a bare destination expects no sender. */
  function ExpectedOf(strategy: Strategy, runID: string, value: string): Result<Option<Expectation>> {
    match ParseSourceSpec(value)
    case Err(e) => Err(e)
    case Ok((ns, name, destination)) =>
      match NormalizeTargetSubpath(destination)
      case Err(e) => Err(e)
      case Ok(final) =>
        if ns == "" || name == "" then Ok(None)
        else Ok(Some(Expectation(Name(ns, name),
                                 if strategy.Snapshot? then JoinPath([PARTIAL, runID, final])
                                 else if final == "" then "." else final)))
  }

  function ExpectedSources(strategy: Strategy, runID: string, values: seq<string>): Result<seq<Expectation>> {
    if values == [] then Ok([])
    else match ExpectedSources(strategy, runID, values[..|values| - 1])
      case Err(e) => Err(e)
      case Ok(out) =>
        match ExpectedOf(strategy, runID, values[|values| - 1])
        case Err(e) => Err(e)
        case Ok(None) => Ok(out)
        case Ok(Some(x)) => Ok(out + [x])
  }

  /** One more argument, when the earlier ones parsed. */
  lemma ExpectedStep(strategy: Strategy, runID: string, values: seq<string>, i: nat, out: seq<Expectation>)
    requires i < |values| && ExpectedSources(strategy, runID, values[..i]) == Ok(out)
    ensures ExpectedSources(strategy, runID, values[..i + 1])
      == match ExpectedOf(strategy, runID, values[i])
         case Err(e) => Err(e)
         case Ok(None) => Ok(out)
         case Ok(Some(x)) => Ok(out + [x])
  {
    assert values[..i + 1][..i] == values[..i];
  }

  /** The first argument that does not parse decides. */
  lemma {:induction false} ExpectedFails(strategy: Strategy, runID: string, values: seq<string>, i: nat)
    requires i <= |values| && ExpectedSources(strategy, runID, values[..i]).Err?
    ensures ExpectedSources(strategy, runID, values) == ExpectedSources(strategy, runID, values[..i])
    decreases |values|
  {
    if i == |values| {
      assert values[..i] == values;
    } else {
      assert values[..|values| - 1][..i] == values[..i];
      ExpectedFails(strategy, runID, values[..|values| - 1], i);
    }
  }

  /** The destination one argument stands for, whoever sends it. */
  function FinalDestination(value: string): string {
    match ParseSourceSpec(value)
    case Err(_) => ""
    case Ok((_, _, destination)) =>
      if NormalizeTargetSubpath(destination).Ok? then NormalizeTargetSubpath(destination).value else ""
  }

  function FinalDestinations(values: seq<string>): seq<string> {
    if values == [] then []
    else FinalDestinations(values[..|values| - 1]) + [FinalDestination(values[|values| - 1])]
  }

  lemma FinalStep(values: seq<string>, i: nat)
    requires i < |values|
    ensures FinalDestinations(values[..i + 1]) == FinalDestinations(values[..i]) + [FinalDestination(values[i])]
  {
    assert values[..i + 1][..i] == values[..i];
  }

  /** The receiver's expectations, and the sorted destinations the finalize step later insists on. */
  method ParseExpectedTransferSources(strategy: Strategy, runID: string, values: seq<string>)
    returns (r: Result<seq<Expectation>>, finalizeSources: seq<string>)
    ensures r == ExpectedSources(strategy, runID, values)
    ensures r.Ok? ==> finalizeSources == SortStrings(FinalDestinations(values))
    ensures r.Ok? ==> forall d :: d in finalizeSources ==> d == "" || Normal(d)
  {
    var out: seq<Expectation> := [];
    finalizeSources := [];
    for i := 0 to |values|
      invariant ExpectedSources(strategy, runID, values[..i]) == Ok(out)
      invariant finalizeSources == FinalDestinations(values[..i])
      invariant forall d :: d in finalizeSources ==> d == "" || Normal(d)
    {
      ExpectedStep(strategy, runID, values, i, out);
      FinalStep(values, i);
      var parsed := ParseSourceSpec(values[i]);
      if parsed.Err? {
        ExpectedFails(strategy, runID, values, i + 1);
        return Err(parsed.problem), [];
      }
      var (ns, name, destination) := parsed.value;
      var normalized := NormalizeTargetSubpath(destination);
      if normalized.Err? {
        ExpectedFails(strategy, runID, values, i + 1);
        return Err(normalized.problem), [];
      }
      SubpathIsNormal(destination);
      finalizeSources := finalizeSources + [normalized.value];
      if ns == "" || name == "" {
        continue;
      }
      var transferDestination := JoinPath([PARTIAL, runID, normalized.value]);
      if strategy.Mirror? {
        transferDestination := normalized.value;
        if transferDestination == "" {
          transferDestination := ".";
        }
      }
      out := out + [Expectation(Name(ns, name), transferDestination)];
    }
    assert values[..|values|] == values;
    finalizeSources := SortStrings(finalizeSources);
    return Ok(out), finalizeSources;
  }

  /** The map from sender identity to destination that `ServeTargetReceiver` builds. */
  function ExpectedMap(sources: seq<Expectation>): Result<map<Name, string>> {
    if sources == [] then Ok(map[])
    else match ExpectedMap(sources[..|sources| - 1])
      case Err(e) => Err(e)
      case Ok(m) =>
        var last := sources[|sources| - 1];
        match NormalizeTargetSubpath(last.destination)
        case Err(e) => Err(e)
        case Ok(d) => Ok(m[last.identity := d])
  }

  /** The checks of `receiveTransfer` before it touches the disk. */
  function ReceiveCheck(expected: map<Name, string>, sender: Name, requested: string): Result<string> {
    if sender !in expected then Err(UnexpectedSender)
    else match NormalizeTargetSubpath(requested)
      case Err(e) => Err(e)
      case Ok(d) => if d != expected[sender] then Err(UnexpectedDestination) else Ok(d)
  }

  // ---------------------------------------------------------------- agreement

  lemma LabelIsNormal(ns: string)
    requires IsDnsLabel(ns)
    ensures Normal(ns) && Segments(ns) == [ns]
  {
    SplitPlain(ns, '/');
    assert ns[0] in ns;
  }

  lemma RunIDIsNormal(run: Name)
    requires run.Valid()
    ensures Normal(RunID(run)) && Segments(RunID(run)) == [RunID(run)]
  {
    var id := RunID(run);
    SubdomainChars(run.name);
    assert run.ns != "" && '/' !in run.ns && '\\' !in run.ns;
    hide IsDnsSubdomain, IsDnsLabel, LabelChar;
    assert id == run.ns + "-" + run.name && id[|run.ns|] == '-';
    assert '/' !in id && '\\' !in id;
    DashedIsPlain(id, |run.ns|);
    SplitPlain(id, '/');
  }

  lemma DashedIsPlain(s: string, i: nat)
    requires i < |s| && s[i] == '-'
    ensures Plain(s)
  {
    assert "."[0] == '.' && ".."[0] == '.' && ".."[1] == '.';
  }

  lemma PartialIsNormal()
    ensures Normal(PARTIAL) && Segments(PARTIAL) == [PARTIAL]
  {
    SplitPlain(PARTIAL, '/');
  }

  lemma PartialPath(runID: string, path: string)
    requires Normal(runID) && Segments(runID) == [runID] && (path == "" || Normal(path))
    ensures Normal(JoinPath([PARTIAL, runID, path]))
    ensures Segments(JoinPath([PARTIAL, runID, path])) == [PARTIAL, runID] + Segments(path)
  {
    PartialIsNormal();
    JoinThree(PARTIAL, runID, path);
  }

  /** An effective destination is normal; in Snapshot mode its first segment is the source namespace, followed by
      the segments of the cleaned destination path. */
  lemma EffectiveSegments(strategy: Strategy, ns: string, destinationPath: string)
    requires IsDnsLabel(ns) && Effective(strategy, ns, destinationPath).Ok?
    ensures CleanRelative(destinationPath).Ok?
    ensures var effective := Effective(strategy, ns, destinationPath).value;
            var own := Segments(CleanRelative(destinationPath).value);
      (effective == "" || Normal(effective)) && (effective == "" ==> strategy.Mirror?) &&
      Segments(effective) == if strategy.Mirror? then own else [ns] + own
  {
    LabelIsNormal(ns);
    CleanersAgree(destinationPath);
    var own := CleanRelative(destinationPath).value;
    if strategy.Snapshot? && destinationPath != "" && destinationPath != "/" {
      JoinTwo(ns, own);
    }
  }

  lemma SpecRoundTrip(source: Name, written: string)
    requires source.Valid() && written != ""
    ensures ParseSourceSpec(source.ToText() + "=" + written) == Ok((source.ns, source.name, written))
  {
    SubdomainChars(source.name);
    CutField(source.ToText(), written, '=');
    CutField(source.ns, source.name, '/');
  }

  /** How a destination is written on a command line, `.` standing for the root. */
  function Written(effective: string): string {
    if effective == "" then "." else effective
  }

  lemma WrittenNormalizes(effective: string)
    requires effective == "" || Normal(effective)
    ensures Written(effective) != "" && NormalizeTargetSubpath(Written(effective)) == Ok(effective)
  {
    if effective != "" {
      NormalIffFixed(effective);
      NormalBasics(effective);
    }
  }

  /** The sender's destination is the written form of a normal path: under `.partial/<run>` in Snapshot mode. */
  lemma SentIsNormal(strategy: Strategy, run: Name, source: Name, destinationPath: string)
    requires run.Valid() && source.Valid() && Effective(strategy, source.ns, destinationPath).Ok?
    ensures var effective := Effective(strategy, source.ns, destinationPath).value;
            var sent := TransferDestination(strategy, RunID(run), source.ns, destinationPath);
      sent.Ok? && sent.value != "" && NormalizeTargetSubpath(sent.value).Ok? &&
      sent.value == Written(NormalizeTargetSubpath(sent.value).value) &&
      Segments(NormalizeTargetSubpath(sent.value).value)
        == if strategy.Mirror? then Segments(effective) else [PARTIAL, RunID(run)] + Segments(effective)
  {
    var effective := Effective(strategy, source.ns, destinationPath).value;
    EffectiveSegments(strategy, source.ns, destinationPath);
    if strategy.Mirror? {
      WrittenNormalizes(effective);
    } else {
      RunIDIsNormal(run);
      NormalBasics(RunID(run));
      PartialPath(RunID(run), effective);
      NormalBasics(JoinPath([PARTIAL, RunID(run), effective]));
      WrittenNormalizes(JoinPath([PARTIAL, RunID(run), effective]));
    }
  }

  /** The receiver's expectation, parsed back from the target job's command line, is the sender's destination. */
  lemma ArgumentRoundTrip(strategy: Strategy, run: Name, source: Name, destinationPath: string)
    requires run.Valid() && source.Valid() && Effective(strategy, source.ns, destinationPath).Ok?
    ensures var effective := Effective(strategy, source.ns, destinationPath).value;
            var sent := TransferDestination(strategy, RunID(run), source.ns, destinationPath);
      sent.Ok? && ExpectedOf(strategy, RunID(run), SourceArgument(strategy, source, effective))
        == Ok(Some(Expectation(source, sent.value)))
  {
    var effective := Effective(strategy, source.ns, destinationPath).value;
    EffectiveSegments(strategy, source.ns, destinationPath);
    SentIsNormal(strategy, run, source, destinationPath);
    WrittenNormalizes(effective);
    SpecRoundTrip(source, Written(effective));
  }

  /** The accepted sources of a run: valid names, each source once, each with its effective destination. */
  ghost predicate RunSources(strategy: Strategy, sources: seq<Resolved>) {
    && (forall i :: 0 <= i < |sources| ==>
          sources[i].ref.Valid() &&
          Effective(strategy, sources[i].ref.ns, sources[i].destinationPath) == Ok(sources[i].effective))
    && forall i, j :: 0 <= i < j < |sources| ==> sources[i].ref != sources[j].ref
  }

  /** What the sender of an accepted source asks for. */
  function Requested(strategy: Strategy, run: Name, source: Resolved): Result<string> {
    TransferDestination(strategy, RunID(run), source.ref.ns, source.destinationPath)
  }

  /** The receiver accepts what the sender of `source` asks for. */
  ghost predicate Accepts(strategy: Strategy, run: Name, expected: map<Name, string>, source: Resolved) {
    Requested(strategy, run, source).Ok? &&
    ReceiveCheck(expected, source.ref, Requested(strategy, run, source).value).Ok?
  }

  /** The expectations parsed from the target job's `--source` arguments. */
  function ParsedArguments(strategy: Strategy, run: Name, sources: seq<Resolved>): Result<seq<Expectation>> {
    ExpectedSources(strategy, RunID(run), SourceArguments(strategy, sources))
  }

  lemma ExpectedAppend(strategy: Strategy, runID: string, values: seq<string>, value: string, x: Expectation)
    requires ExpectedSources(strategy, runID, values).Ok? && ExpectedOf(strategy, runID, value) == Ok(Some(x))
    ensures ExpectedSources(strategy, runID, values + [value])
      == Ok(ExpectedSources(strategy, runID, values).value + [x])
  {
    assert (values + [value])[..|values|] == values;
  }

  lemma MapAppend(sources: seq<Expectation>, x: Expectation)
    requires ExpectedMap(sources).Ok? && NormalizeTargetSubpath(x.destination).Ok?
    ensures ExpectedMap(sources + [x])
      == Ok(ExpectedMap(sources).value[x.identity := NormalizeTargetSubpath(x.destination).value])
  {
    assert (sources + [x])[..|sources|] == sources;
  }

  lemma ArgumentsStep(strategy: Strategy, sources: seq<Resolved>)
    requires sources != []
    ensures var last := sources[|sources| - 1];
      SourceArguments(strategy, sources)
        == SourceArguments(strategy, sources[..|sources| - 1]) + [SourceArgument(strategy, last.ref, last.effective)]
  {
  }

  /** The receiver's map expects exactly the given sources, and accepts what each of their senders asks for. */
  ghost predicate Agreed(strategy: Strategy, run: Name, sources: seq<Resolved>, expected: map<Name, string>) {
    expected.Keys == Refs(sources) && forall i :: 0 <= i < |sources| ==> Accepts(strategy, run, expected, sources[i])
  }

  /** The map the receiver builds from the target job's `--source` arguments. */
  function ReceiverMap(strategy: Strategy, run: Name, sources: seq<Resolved>): Result<map<Name, string>> {
    match ParsedArguments(strategy, run, sources)
    case Err(e) => Err(e)
    case Ok(parsed) => ExpectedMap(parsed)
  }

  /** The whole chain: controller arguments, receiver parsing, receiver map, sender header. The receiver expects
      exactly the accepted sources, and each of them passes its destination check. */
  lemma {:induction false} AcceptedSourcesAreReceived(strategy: Strategy, run: Name, sources: seq<Resolved>)
    requires run.Valid() && RunSources(strategy, sources)
    ensures ReceiverMap(strategy, run, sources).Ok?
    ensures Agreed(strategy, run, sources, ReceiverMap(strategy, run, sources).value)
  {
    if sources == [] {
      EmptyRun(strategy, run);
    } else {
      RunSourcesRest(strategy, sources);
      hide *;
      AcceptedSourcesAreReceived(strategy, run, sources[..|sources| - 1]);
      ReceiverStep(strategy, run, sources);
    }
  }

  lemma EmptyRun(strategy: Strategy, run: Name)
    ensures ReceiverMap(strategy, run, []).Ok? && Agreed(strategy, run, [], ReceiverMap(strategy, run, []).value)
  {
    assert SourceArguments(strategy, []) == [];
  }

  lemma RunSourcesRest(strategy: Strategy, sources: seq<Resolved>)
    requires RunSources(strategy, sources) && sources != []
    ensures RunSources(strategy, sources[..|sources| - 1])
  {
    hide Effective;
  }

  lemma ReceiverStep(strategy: Strategy, run: Name, sources: seq<Resolved>)
    requires run.Valid() && RunSources(strategy, sources) && sources != []
    requires ReceiverMap(strategy, run, sources[..|sources| - 1]).Ok?
    requires Agreed(strategy, run, sources[..|sources| - 1], ReceiverMap(strategy, run, sources[..|sources| - 1]).value)
    ensures ReceiverMap(strategy, run, sources).Ok?
    ensures Agreed(strategy, run, sources, ReceiverMap(strategy, run, sources).value)
  {
    var n := |sources| - 1;
    var rest, last := sources[..n], sources[n];
    ArgumentRoundTrip(strategy, run, last.ref, last.destinationPath);
    SentIsNormal(strategy, run, last.ref, last.destinationPath);
    var sent := Requested(strategy, run, last).value;
    ArgumentsStep(strategy, sources);
    ExpectedAppend(strategy, RunID(run), SourceArguments(strategy, rest),
                   SourceArgument(strategy, last.ref, last.effective), Expectation(last.ref, sent));
    MapAppend(ParsedArguments(strategy, run, rest).value, Expectation(last.ref, sent));
    AgreedStep(strategy, run, sources, ReceiverMap(strategy, run, rest).value, NormalizeTargetSubpath(sent).value);
  }

  lemma AgreedStep(strategy: Strategy, run: Name, sources: seq<Resolved>, m: map<Name, string>, d: string)
    requires sources != [] && forall i, j :: 0 <= i < j < |sources| ==> sources[i].ref != sources[j].ref
    requires Agreed(strategy, run, sources[..|sources| - 1], m)
    requires Requested(strategy, run, sources[|sources| - 1]).Ok?
    requires NormalizeTargetSubpath(Requested(strategy, run, sources[|sources| - 1]).value) == Ok(d)
    ensures Agreed(strategy, run, sources, m[sources[|sources| - 1].ref := d])
  {
    var n := |sources| - 1;
    var rest, last := sources[..n], sources[n];
    RefsStep(sources);
    forall i | 0 <= i < |sources| ensures Accepts(strategy, run, m[last.ref := d], sources[i]) {
      if i < n {
        assert rest[i] == sources[i] && sources[i].ref != sources[n].ref;
        AcceptsKept(strategy, run, m, last.ref, d, rest[i]);
      } else {
        AcceptsNew(strategy, run, m, d, last);
      }
    }
  }

  lemma AcceptsKept(strategy: Strategy, run: Name, m: map<Name, string>, other: Name, d: string, source: Resolved)
    requires Accepts(strategy, run, m, source) && other != source.ref
    ensures Accepts(strategy, run, m[other := d], source)
  {
  }

  lemma AcceptsNew(strategy: Strategy, run: Name, m: map<Name, string>, d: string, source: Resolved)
    requires Requested(strategy, run, source).Ok?
    requires NormalizeTargetSubpath(Requested(strategy, run, source).value) == Ok(d)
    ensures Accepts(strategy, run, m[source.ref := d], source)
  {
  }

  function Refs(sources: seq<Resolved>): set<Name> {
    set s | s in sources :: s.ref
  }

  lemma RefsStep(sources: seq<Resolved>)
    requires sources != []
    ensures Refs(sources) == Refs(sources[..|sources| - 1]) + {sources[|sources| - 1].ref}
  {
    var n := |sources| - 1;
    assert sources == sources[..n] + [sources[n]];
    assert forall s :: s in sources <==> s in sources[..n] || s == sources[n];
  }

  /** In Snapshot mode two destinations are equal only for the same namespace and the same cleaned path. */
  lemma SnapshotDestinationsDiffer(ns: string, destinationPath: string, ns': string, destinationPath': string)
    requires IsDnsLabel(ns) && IsDnsLabel(ns')
    requires EffectiveSnapshot(ns, destinationPath).Ok? && EffectiveSnapshot(ns', destinationPath').Ok?
    ensures EffectiveSnapshot(ns, destinationPath) == EffectiveSnapshot(ns', destinationPath')
      <==> ns == ns' && CleanRelative(destinationPath) == CleanRelative(destinationPath')
  {
    EffectiveSegments(Snapshot, ns, destinationPath);
    EffectiveSegments(Snapshot, ns', destinationPath');
    LabelIsNormal(ns);
    LabelIsNormal(ns');
    CleanersAgree(destinationPath);
    CleanersAgree(destinationPath');
    var own, own' := CleanRelative(destinationPath).value, CleanRelative(destinationPath').value;
    var p, p' := EffectiveSnapshot(ns, destinationPath).value, EffectiveSnapshot(ns', destinationPath').value;
    if p == p' {
      assert ([ns] + Segments(own))[1..] == Segments(own) && ([ns'] + Segments(own'))[1..] == Segments(own');
      assert Segments(p)[0] == ns && Segments(p')[0] == ns';
      SegmentsInjective(own, own');
    } else if ns == ns' && own == own' {
      SegmentsInjective(p, p');
    }
  }

  lemma SegmentsInjective(p: string, p': string)
    requires (p == "" || Normal(p)) && (p' == "" || Normal(p')) && Segments(p) == Segments(p')
    ensures p == p'
  {
    if p != "" { NormalBasics(p); }
    if p' != "" { NormalBasics(p'); }
  }

  // ---------------------------------------------------------------- what is refused

  predicate Spells(value: string, ns: string, name: string, destination: string) {
    value == ns + "/" + name + "=" + destination && ns != "" && name != "" && destination != ""
    && '/' !in ns && '=' !in ns && '=' !in name
  }

  /** An argument is accepted iff it has no `=`, and then it is a destination without a sender, or it is written
      `namespace/name=destination` with no part missing. */
  lemma SpecIffWritten(value: string)
    ensures '=' !in value ==> ParseSourceSpec(value) == Ok(("", "", value))
    ensures '=' in value ==>
      (ParseSourceSpec(value).Ok? <==> exists ns, name, destination :: Spells(value, ns, name, destination))
  {
    if '=' in value {
      var (left, right) := Cut(value, '=').value;
      if ParseSourceSpec(value).Ok? {
        var (ns, name) := Cut(left, '/').value;
        assert '=' !in ns && '=' !in name;
        assert Spells(value, ns, name, right);
      }
      if exists ns, name, destination :: Spells(value, ns, name, destination) {
        var ns, name, written :| Spells(value, ns, name, written);
        CutField(ns + "/" + name, written, '=');
        CutField(ns, name, '/');
        assert value == (ns + "/" + name) + ['='] + written;
      }
    }
  }

  /** The receiver accepts a sender iff it is expected, and asks for the very destination it is expected with, in any
      spelling. */
  lemma OnlyExpectedIsAccepted(expected: map<Name, string>, sender: Name, requested: string)
    ensures ReceiveCheck(expected, sender, requested).Ok? <==>
      sender in expected && NormalizeTargetSubpath(requested) == Ok(expected[sender])
    ensures ReceiveCheck(expected, sender, requested).Ok? ==>
      ReceiveCheck(expected, sender, requested).value == expected[sender]
  {
    hide NormalizeTargetSubpath;
  }

  /** A sender that is named more than once is expected with the destination of its last argument. */
  lemma {:induction false} LastExpectationCounts(sources: seq<Expectation>, i: nat)
    requires ExpectedMap(sources).Ok? && i < |sources|
    requires forall k :: i < k < |sources| ==> sources[k].identity != sources[i].identity
    ensures sources[i].identity in ExpectedMap(sources).value
    ensures NormalizeTargetSubpath(sources[i].destination) == Ok(ExpectedMap(sources).value[sources[i].identity])
  {
    hide NormalizeTargetSubpath;
    if i < |sources| - 1 {
      LastExpectationCounts(sources[..|sources| - 1], i);
    }
  }

  /** Without a finalize command the target looks for the effective destinations of the run's sources. */
  lemma {:induction false} FinalizeSourcesAreEffective(strategy: Strategy, sources: seq<Resolved>)
    requires RunSources(strategy, sources)
    ensures var final := FinalDestinations(SourceArguments(strategy, sources));
      |final| == |sources| && forall i :: 0 <= i < |sources| ==> final[i] == sources[i].effective
  {
    hide Effective, FinalDestination, SourceArgument, IsDnsLabel, IsDnsSubdomain, NormalizeTargetSubpath;
    if sources != [] {
      hide FinalDestinations, SourceArguments;
      var n := |sources| - 1;
      assert forall i :: 0 <= i < n ==> sources[..n][i] == sources[i];
      FinalizeSourcesAreEffective(strategy, sources[..n]);
      FinalOfArgument(strategy, sources[n]);
      FinalStepOf(strategy, sources);
    }
  }

  lemma FinalStepOf(strategy: Strategy, sources: seq<Resolved>)
    requires sources != []
    ensures var n := |sources| - 1;
      FinalDestinations(SourceArguments(strategy, sources))
      == FinalDestinations(SourceArguments(strategy, sources[..n]))
         + [FinalDestination(SourceArgument(strategy, sources[n].ref, sources[n].effective))]
  {
    hide FinalDestination, SourceArgument;
    var n, values := |sources| - 1, SourceArguments(strategy, sources);
    ArgumentsStep(strategy, sources);
    assert values[..n] == SourceArguments(strategy, sources[..n]);
  }

  lemma FinalOfArgument(strategy: Strategy, source: Resolved)
    requires source.ref.Valid()
    requires Effective(strategy, source.ref.ns, source.destinationPath) == Ok(source.effective)
    ensures FinalDestination(SourceArgument(strategy, source.ref, source.effective)) == source.effective
  {
    EffectiveSegments(strategy, source.ref.ns, source.destinationPath);
    hide Effective, NormalizeTargetSubpath, IsDnsLabel, IsDnsSubdomain;
    WrittenNormalizes(source.effective);
    SpecRoundTrip(source.ref, Written(source.effective));
  }

  // ---------------------------------------------------------------- run ids

  /** The longer namespace goes on, behind a dash, with what the other run's name begins with. */
  ghost predicate Shifted(a: Name, b: Name) {
    exists x :: b.ns == a.ns + "-" + x && a.name == x + "-" + b.name
  }

  /** Two runs have the same id iff they are the same, or one's namespace goes on into the other's name: `a` with `b-c`
      and `a-b` with `c`. In one namespace ids are unique. */
  lemma RunIDsCoincide(a: Name, b: Name)
    requires a.ns != "" && b.ns != ""
    ensures RunID(a) == RunID(b) <==> a == b || Shifted(a, b) || Shifted(b, a)
    ensures a.ns == b.ns ==> (RunID(a) == RunID(b) <==> a.name == b.name)
  {
    if RunID(a) == RunID(b) && |a.ns| <= |b.ns| { SameIDShifts(a, b); }
    if RunID(a) == RunID(b) && |b.ns| <= |a.ns| { SameIDShifts(b, a); }
    if Shifted(a, b) { ShiftedSame(a, b); }
    if Shifted(b, a) { ShiftedSame(b, a); }
  }

  lemma SameIDShifts(a: Name, b: Name)
    requires a.ns != "" && b.ns != "" && RunID(a) == RunID(b) && |a.ns| <= |b.ns|
    ensures a == b || (|a.ns| < |b.ns| && Shifted(a, b))
  {
    var s, n := RunID(a), |a.ns|;
    assert s == a.ns + "-" + a.name == b.ns + "-" + b.name;
    assert a.ns == s[..n] && a.name == s[n + 1..] && s[n] == '-';
    assert b.ns == s[..|b.ns|] && b.name == s[|b.ns| + 1..] && s[|b.ns|] == '-';
    if n < |b.ns| {
      var x := s[n + 1..|b.ns|];
      assert b.ns == a.ns + "-" + x && a.name == x + "-" + b.name;
    }
  }

  lemma ShiftedSame(a: Name, b: Name)
    requires a.ns != "" && b.ns != "" && Shifted(a, b)
    ensures RunID(a) == RunID(b) && |a.ns| < |b.ns|
  {
    var x :| b.ns == a.ns + "-" + x && a.name == x + "-" + b.name;
    assert a.ns + "-" + (x + "-" + b.name) == (a.ns + "-" + x) + "-" + b.name;
  }

  /** That occurs among valid names. */
  lemma RunIDsMayCoincide()
    ensures var a, b := Name("a", "b-c"), Name("a-b", "c");
      a.Valid() && b.Valid() && a != b && RunID(a) == RunID(b) == "a-b-c"
  {
    var a, b := Name("a", "b-c"), Name("a-b", "c");
    SmallLabels();
    hide IsDnsLabel, IsDnsSubdomain;
    LabelIsSubdomain("b-c");
    LabelIsSubdomain("c");
    assert "a" + "-" + "b-c" == "a-b-c" && "a-b" + "-" + "c" == "a-b-c";
  }

  lemma SmallLabels()
    ensures IsDnsLabel("a") && IsDnsLabel("c") && IsDnsLabel("a-b") && IsDnsLabel("b-c")
  {
    assert "b-c"[0] == 'b' && "b-c"[2] == 'c' && "a-b"[0] == 'a' && "a-b"[2] == 'b' && "c"[0] == 'c' && "a"[0] == 'a';
  }
}
