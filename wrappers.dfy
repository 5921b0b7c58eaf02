/** Optional values, for values the source may leave null and for "not found" results. */
module Wrappers {
  datatype Option<+T> = None | Some(value: T)
}
