/** The optional-value datatype shared by the reader and label modules. */
module Wrappers {

  /** Some value, or nothing (JavaScript's `undefined`, `null` or `false` result). */
  datatype Option<+T> = None | Some(value: T)
}
