/** Optional values (Go's nil references and maps) and results (Go's `(value, error)` pairs). */
module Wrappers {

  /** `None` stands for a nil reference or a nil map. */
  datatype Option<+T> = None | Some(value: T)

  /** A value or an error. */
  datatype Result<+T, +E> = Ok(value: T) | Err(error: E)
}
