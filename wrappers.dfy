/** Option and Result: the error channel that replaces the source's
    print-and-os.Exit(1) failure paths. */
module Wrappers {

  datatype Option<+T> = None | Some(value: T)

  datatype Result<+R, +E> = Success(value: R) | Failure(error: E)
}
