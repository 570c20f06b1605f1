/** Failure-carrying values shared by the whole model: Option stands for Python's
    None-or-value returns and for network calls whose exception was swallowed,
    Result for the `(value, error)` pairs the analyzer returns. */
module Wrappers {

  datatype Option<+T> = None | Some(value: T)

  datatype Result<+R, +E> = Success(value: R) | Failure(error: E)
}
