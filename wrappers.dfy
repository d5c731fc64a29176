/** Option and Result, the two failure-compatible wrappers the model uses:
    Option for the fields that may be "not extracted", Result for the lookups
    that raise an error when nothing matches. */
module Wrappers {

  datatype Option<+T> = None | Some(value: T)

  datatype Result<+R, +E> = Success(value: R) | Failure(error: E)
}
