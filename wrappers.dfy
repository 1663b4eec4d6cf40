/** Optional values and the outcome of evaluating a JavaScript expression. */
module Wrappers {

  /** A value that may be absent. */
  datatype Option<+T> = None | Some(value: T)

  /** What evaluating an expression yields: a value, or the TypeError that
      JavaScript throws when a property is read from null or undefined. */
  datatype Outcome<+T> = Returned(value: T) | ThrewTypeError
}
