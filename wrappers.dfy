/** Optional values: a DOM lookup that may find nothing, a capability that may be missing. */
module Wrappers {
  datatype Option<+T> = None | Some(value: T)
}
