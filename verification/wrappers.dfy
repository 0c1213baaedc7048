/** Optional values, used where the source tests `is not None` or looks a key up. */
module Wrappers {
  datatype Option<+T> = None | Some(value: T)
}
