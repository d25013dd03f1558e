/** Optional values and the settled outcome of a step that may throw. */
module Wrappers {

  /** A value that may be absent: JavaScript's `undefined`/`null` beside a present value. */
  datatype Option<+T> = None | Some(value: T)

  /** What a promise or a `try` block settles to: a value, or the `message` of the Error it threw. */
  datatype Outcome<+T> = Ok(value: T) | Err(msg: string)
}
