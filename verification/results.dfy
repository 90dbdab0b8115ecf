/** Failure-carrying values: `Option` stands for a JavaScript value that may be
    `undefined`, `Result` for a computation that returns or throws. */
module Results {

  datatype Option<+T> = None | Some(value: T)

  datatype Result<+R, +E> = Success(value: R) | Failure(error: E)
}
