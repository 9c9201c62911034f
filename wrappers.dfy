/** Small failure-carrying datatypes shared by the other modules. */
module Wrappers {

  /** A value that may be absent. */
  datatype Option<+T> = None | Some(value: T)

  /** The result of an operation that either completes or throws with a message. */
  datatype Outcome<+E> = Pass | Fail(error: E)
}
