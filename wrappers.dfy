/** Failure-carrying return values for the operations whose Java versions
    throw or return nothing useful. */
module Wrappers {

  datatype Option<T> = None | Some(value: T)

  datatype Result<T, E> = Success(value: T) | Failure(error: E)
}
