/** Optional values and results with an error message, as the rest of the model uses them. */
module Wrappers {

  /** A value that may be absent: a storage key that was never set, a JSON field that is missing. */
  datatype Option<+T> = None | Some(value: T)

  /** The outcome of a step that may stop early with an error message. */
  datatype Result<+R> = Success(value: R) | Failure(error: string)
}
