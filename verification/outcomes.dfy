/** Failure-carrying results for the engine's operations: the exceptions the
    Python engine raises become `Err` values naming the failure. */
module Outcomes {

  datatype Option<+T> = None | Some(value: T)

  /** The engine's failure modes, one per exception the source can raise. */
  datatype Error =
    | Unsupported        // NotImplementedError: no-memory mode together with averaging
    | MissingData        // ValueError: an update or evaluation given neither side's points
    | BroadcastMismatch  // ValueError from an array assignment whose shapes do not fit
    | IndexOutOfBounds   // IndexError: a write at a column past the buffer's capacity
    | EmptyReduction     // a log-sum-exp or mean over an empty axis (no finite estimate)

  datatype Result<+T> = Ok(value: T) | Err(error: Error)
}
