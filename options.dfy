/** Failure-carrying wrappers shared by the whole model. */
module Options {

  /** `None` stands for JavaScript's `undefined`, `Some` for a present value. */
  datatype Option<+T> = None | Some(value: T)

  /** A value, or the error that a `throw` would have carried. */
  datatype Result<+T, +E> = Ok(value: T) | Err(error: E)
}
