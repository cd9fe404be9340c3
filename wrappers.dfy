/** Failure-carrying results shared by every module: the Python code signals
    errors by raising ValueError, TypeError or IndexError, which the model
    returns as values instead. */
module Wrappers {

  datatype Option<+T> = None | Some(value: T)

  /** The Python exception classes the core raises, each with its message. */
  datatype Exception =
    | ValueError(message: string)
    | TypeError(message: string)
    | IndexError(message: string)

  datatype Result<+T> = Ok(value: T) | Err(error: Exception)

  /** The outcome of a validator: it either returns normally or raises. */
  datatype Outcome = Pass | Fail(error: Exception)
}
