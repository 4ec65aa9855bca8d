/**
 * Failure-carrying values used throughout the model: Go's `(T, error)`
 * returns become `Result`, and a bare `error` return becomes an `Option`
 * that is `None` for nil.
 */
module Results {

  /** `None` plays the role of Go's nil. */
  datatype Option<+T> = None | Some(value: T)

  /** Either a value or the error that replaced it. */
  datatype Result<+T, +E> = Success(value: T) | Failure(error: E)
}
