/** Outcome types shared by the model: a computation either produces a value
    or stops the program (a Rust panic), which the model returns as an error. */
module Results {

  datatype Option<+T> = None | Some(value: T)

  datatype Result<+T, +E> = Success(value: T) | Failure(error: E)
}
