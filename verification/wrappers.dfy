/** Small failure-carrying datatypes shared by the other modules. */
module Wrappers {

  /** A value that may be absent: JavaScript's `undefined`/`null` next to a real value. */
  datatype Option<+T> = None | Some(value: T)
}
