/** Option and Result values, standing in for JavaScript's `undefined`/`??`
    and for the exceptions the client throws. */
module Wrappers {

  datatype Option<+T> = None | Some(value: T) {

    /** The value when there is one, `default` otherwise (JavaScript `x ?? default`). */
    function GetOr(default: T): T
    {
      match this
      case Some(v) => v
      case None => default
    }
  }

  /** Either a value or an error; `Err` plays the part of a thrown exception. */
  datatype Result<+T, +E> = Ok(value: T) | Err(error: E)
}
