/** The absent-or-present value used across the model (JavaScript's `null`/`undefined` versus a value). */
module Wrappers {
  datatype Option<+T> = None | Some(value: T)
}
