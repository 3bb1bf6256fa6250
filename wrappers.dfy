/** Small value wrappers shared by the other modules. */
module Wrappers {
  /** A value that may be absent: JavaScript's `undefined` result or an optional error text. */
  datatype Option<+T> = None | Some(value: T)
}
