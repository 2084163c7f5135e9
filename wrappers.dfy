/** Optional values: a parse that may fail, a handle that may be null. */
module Wrappers {
  datatype Option<+T> = None | Some(value: T)
}
