/** Optional values and call outcomes, shared by the model. */
module Wrappers {

  /** A value that may be absent: a JavaScript `undefined`, or a missing object field. */
  datatype Option<+T> = None | Some(value: T)

  /** The outcome of an awaited promise: it resolves with a value or it rejects (throws). */
  datatype Outcome<+T> = Ok(value: T) | Err(error: string)
}
