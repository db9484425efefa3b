/** Optional values: a JavaScript value that may be `undefined`. */
module Wrappers {

  /** `None` stands for an undefined value, `Some(v)` for a defined one. */
  datatype Option<+T> = None | Some(value: T)
}
