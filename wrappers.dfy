/** Shared result types: a nullable value and the outcome of a call that can throw. */
module Wrappers {

  datatype Option<T> = None | Some(value: T)

  /** The .NET exceptions the modelled code throws. */
  datatype Exception =
    | FormatException(message: string)
    | InvalidOperationException(message: string)
    | InvalidCastException

  /** A call that either returns a value or throws an exception. */
  datatype Result<T> = Ok(value: T) | Err(error: Exception)
}
