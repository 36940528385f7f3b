/** Failure-compatible wrappers shared by the history decoder and the protocol model. */
module Wrappers {

  /** A value that may be absent: a missing fragment, an unmatched transition. */
  datatype Option<+T> = None | Some(value: T)

  /** The outcome of an operation that can raise an exception in the download tool. */
  datatype Result<+R, +E> = Success(value: R) | Failure(error: E)
}
