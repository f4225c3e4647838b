/** Optional values, for lookups that may find nothing (a missing world, an unknown name or id). */
module Wrappers {
  datatype Option<+T> = None | Some(value: T)
}
