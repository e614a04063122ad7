/** Outcome datatypes shared by the whole model. */
module Results {

  /** A value that may be absent (Go's nil pointer or the `ok == false` of a lookup). */
  datatype Option<+T> = None | Some(value: T)

  /** A value or the error that a Go function returned instead. */
  datatype Result<+T, +E> = Success(value: T) | Failure(error: E)

  /** How a Go call ends: it returns normally, or it panics (a fail-fast programmer error). */
  datatype Completion<+T> = Returned(value: T) | Panicked(reason: string)
}
