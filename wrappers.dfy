/** Optional values and results with a Go-style error message. */
module Wrappers {

  /** A value that may be missing: Go's nil map, nil error or comma-ok miss. */
  datatype Option<+T> = None | Some(value: T)

  /** The outcome of a call that returns a value or a non-nil `error`. */
  datatype Result<+T> = Success(value: T) | Failure(error: string)
}
