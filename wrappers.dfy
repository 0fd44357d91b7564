/** Optional values, for Python's `None` and for operations that may fail. */
module Wrappers {
  datatype Option<+T> = None | Some(value: T)
}
