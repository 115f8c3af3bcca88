/** Small result types shared by the other modules. */
module Wrappers {

  /** A value that may be absent. */
  datatype Option<+T> = None | Some(value: T)

  /** The outcome of a call that can raise: it either returns a value or raises. */
  datatype Attempt<+T> = Returned(value: T) | Raised
}
