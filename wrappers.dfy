/** Optional values: the model's stand-in for Java's nullable references. */
module Wrappers {

  /** `None` is Java's `null`; `Some(v)` a present reference. */
  datatype Option<+T> = None | Some(value: T)
}
