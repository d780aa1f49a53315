/** Small helper datatypes shared by the other modules. */
module Wrappers {

  /** Go's `error` result: `None` is `nil`, `Some(e)` is a non-nil error. */
  datatype Option<+T> = None | Some(value: T)
}
