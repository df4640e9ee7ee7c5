/** Option and Result, the two failure-carrying wrappers the model uses for nullable
    values and for code paths that throw. */
module Wrappers {

  /** A Kotlin nullable value: `None` stands for `null`. */
  datatype Option<+T> = None | Some(value: T)

  /** The value of an expression that either evaluates or throws `error`. */
  datatype Result<+R, +E> = Ok(value: R) | Err(error: E)
}
