/** Failure-carrying datatypes shared by the whole model: Swift optionals
    become `Option`, throwing functions become `Result` or `Outcome`. */
module Results {

  datatype Option<+T> = None | Some(value: T)

  /** The value of a call that either returns `value` or throws `error`. */
  datatype Result<+R, +E> = Success(value: R) | Failure(error: E)

  /** The value of a `throws` function returning `Void`. */
  datatype Outcome<+E> = Pass | Fail(error: E)
}
