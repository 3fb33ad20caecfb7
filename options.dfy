/** Optional values and the outcome of a JavaScript step that may throw. */
module Options {

  /** A value that may be absent (`undefined` or `null` in the source). */
  datatype Option<+T> = None | Some(value: T)

  /** The outcome of an awaited step: the value it produced, or the message of the error it threw. */
  datatype Outcome<+T> = Done(value: T) | Threw(message: string)
}
