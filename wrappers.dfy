/** Option and Result values for lookups that can miss and calls that can fail. */
module Wrappers {

  datatype Option<+T> = None | Some(value: T)

  /** The outcome of a collaborator that returns a value or a Go `error`. */
  datatype Result<+T> = Success(value: T) | Failure(error: string)
}
