/** Option and Result, the two failure-carrying shapes the model uses for
    nullable values (`null` / `undefined`) and for thrown errors. */
module Wrappers {

  /** A value that may be absent: JavaScript's `null` or `undefined`. */
  datatype Option<+T> = None | Some(value: T) {

    /** The value, or `default` when absent: JavaScript's `x || default`
        applied to a possibly-null reference. */
    function GetOr(default: T): T {
      match this
      case Some(v) => v
      case None => default
    }
  }

  /** The outcome of an operation that either returns a value or throws an
      error carrying a message. */
  datatype Result<+R> = Ok(value: R) | Err(message: string)
}
