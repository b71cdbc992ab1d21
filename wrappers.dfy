/** Optional values and error-carrying results shared by every module. */
module Wrappers {
  /** A value that may be absent: JavaScript's `null`/`undefined`, a Go nil reference. */
  datatype Option<T> = None | Some(value: T)

  /** The outcome of an operation that may fail: Go's `(value, error)` pairs. */
  datatype Result<T, E> = Ok(value: T) | Err(error: E)
}
