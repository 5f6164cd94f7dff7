/** Nullable references and error outcomes used throughout the model. */
module Wrappers {

  /** A value that may be absent; `None` stands for a Java `null`. */
  datatype Option<+T> = None | Some(value: T)

  /** The outcome of a `void` operation that may throw: `Fail` carries the exception. */
  datatype Outcome<+E> = Pass | Fail(error: E)
}
