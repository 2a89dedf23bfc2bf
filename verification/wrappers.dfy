/** Java's nullable references and thrown exceptions, as values. */
module Wrappers {

  /** A reference that may be null: `None` stands for `null`. */
  datatype Option<+T> = None | Some(value: T)

  /** The outcome of a call that returns `value` or throws `error`. */
  datatype Result<+R, +E> = Success(value: R) | Failure(error: E)
}
