/** Optional values, used for a context that may be nil and a lookup that may miss. */
module Wrappers {
  datatype Option<+T> = None | Some(value: T)
}
