/** Failure-carrying result types shared by the model: Go's `(T, bool)`
    lookups become `Option`, `(T, error)` returns become `Result`, and a bare
    `error` return becomes `Status`. */
module Results {

  datatype Option<+T> = None | Some(value: T)

  datatype Result<+T, +E> = Success(value: T) | Failure(error: E)

  /** A Go `error` result: `Ok` is a nil error. */
  datatype Status<+E> = Ok | Fail(error: E)
}
