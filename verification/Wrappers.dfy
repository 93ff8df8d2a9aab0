/** Values that may be missing, and calls that may fail. */
module Wrappers {

  datatype Option<+T> = None | Some(value: T)

  /** The errors of the modelled functions, by what they complain about. */
  datatype Problem =
    | PathEmpty | PathAbsolute | PathBackslash | PathParent | PathUnnamed
    | NamespaceRequired | RunIDRequired | SpecIdentity | SpecDestination
    | UnexpectedSender | UnexpectedDestination
    | SnapshotUnknown | SnapshotUnresolved | VolumeUnreadable
    | UnsupportedStrategy | RetentionNotEmpty | PathConflict | PathOverlap | NoSources

  /** A Go `(value, error)` pair. */
  datatype Result<+T> = Ok(value: T) | Err(problem: Problem)
}
