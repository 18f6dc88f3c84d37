/** Option and Result values used where the Python code returns None or raises. */
module Wrappers {
  datatype Option<T> = None | Some(value: T) {
    function GetOr(default: T): T {
      if Some? then value else default
    }
  }

  /** A computation that either produced a value or raised an exception with a message. */
  datatype Result<T, E> = Ok(value: T) | Err(error: E)
}
