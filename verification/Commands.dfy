/** The commands that the controller sends to a target, and their validation (internal/control/service.go, types.go). */
module Commands {
  import opened Wrappers
  import opened Text

  datatype RunKind = Backup | Restore | OtherKind

  datatype RunKey = RunKey(ns: string, name: string, kind: RunKind)

  datatype ExpectedSource = ExpectedSource(ns: string, name: string, destinationPath: string)

  datatype FinalizePayload = FinalizePayload(timestamp: string, sources: seq<ExpectedSource>, bytesTransferred: nat)

  datatype RecoverPayload = RecoverPayload(ns: string, name: string, reason: string, minAvailableBytes: nat,
                                           protectedSnapshots: seq<string>)

  datatype AbortPayload = AbortPayload(reason: string)

  datatype CommandType = FinalizeBackupJob | RecoverSpace | AbortRun | OtherType

  datatype Command =
    Command(id: string, kind: CommandType, finalize: Option<FinalizePayload>, recover: Option<RecoverPayload>,
            abort: Option<AbortPayload>)

  predicate ValidKey(key: RunKey) {
    IsDnsLabel(key.ns) && IsDnsSubdomain(key.name) && !key.kind.OtherKind?
  }

  predicate ValidFinalize(f: FinalizePayload) {
    f.timestamp != "" &&
    forall s :: s in f.sources ==> IsDnsLabel(s.ns) && IsDnsSubdomain(s.name) && s.destinationPath != ""
  }

  predicate ValidRecover(r: RecoverPayload) {
    IsDnsLabel(r.ns) && IsDnsSubdomain(r.name) && r.reason != "" && r.minAvailableBytes != 0
    && forall s :: s in r.protectedSnapshots ==> s != ""
  }

  /** A command carries exactly the payload of its type, and that payload is complete. */
  predicate ValidCommand(c: Command) {
    IsDnsSubdomain(c.id) &&
    match c.kind
    case FinalizeBackupJob => c.finalize.Some? && c.recover.None? && c.abort.None? && ValidFinalize(c.finalize.value)
    case RecoverSpace => c.recover.Some? && c.finalize.None? && c.abort.None? && ValidRecover(c.recover.value)
    case AbortRun => c.abort.Some? && c.finalize.None? && c.recover.None?
    case OtherType => false
  }
}
