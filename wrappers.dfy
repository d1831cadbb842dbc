/** Option and Result, for values the scripts leave as None and for the
    exceptions that end a run. */
module Wrappers {

  datatype Option<+T> = None | Some(value: T)

  datatype Result<+T, +E> = Success(value: T) | Failure(error: E)
}
