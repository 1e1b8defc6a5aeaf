/** Option and Result, the two failure-carrying datatypes the model uses for
    nil pointers, null values and Go panics / JavaScript exceptions. */
module Wrappers {

  datatype Option<+T> = None | Some(value: T) {
    function GetOr(default: T): T {
      match this
      case Some(v) => v
      case None => default
    }
  }

  /** A run-time failure of the source program (a Go panic or a thrown
      JavaScript exception), named by what goes wrong. */
  datatype Failure = NilDereference | IndexOutOfRange | TypeError

  datatype Result<+R> = Ok(value: R) | Err(error: Failure)
}
