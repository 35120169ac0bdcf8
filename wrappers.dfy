/** Option and Result, the two failure-carrying wrappers the model uses. */
module Wrappers {

  /** An optional value: `None` stands for JavaScript's `undefined`/`null`
      or for a key that an object literal does not carry. */
  datatype Option<+T> = None | Some(value: T) {
    /** The carried value, or `default` when there is none. */
    function GetOr(default: T): T {
      match this
      case Some(v) => v
      case None => default
    }
  }

  /** The outcome of a request handler: a value, or the error it answers with. */
  datatype Result<+T, +E> = Ok(value: T) | Err(error: E)
}
