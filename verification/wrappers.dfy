/** Optional values and results with an error alternative, used for the
    dictionary lookups and exceptions of the modelled code. */
module Wrappers {

  /** A value that may be absent, like a JSON key that may be missing. */
  datatype Option<+T> = None | Some(value: T)

  /** Either a value or the error that replaced it. */
  datatype Result<+R, +E> = Success(value: R) | Failure(error: E)
}
