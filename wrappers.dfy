/** The optional value used for JavaScript's `undefined` throughout the model. */
module Wrappers {

  /** `None` stands for `undefined`; `Some(v)` for a defined value `v`. */
  datatype Option<+T> = None | Some(value: T)
}
