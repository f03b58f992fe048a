/** Optional values, used wherever the source has a value-and-found pair or a nil pointer. */
module Wrappers {
  datatype Option<+T> = None | Some(value: T)
}
