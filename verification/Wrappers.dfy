/** Optional values, shared by every component model. */
module Wrappers {
  datatype Option<+T> = None | Some(value: T)
}
