/** Optional values, for host operations that may fail as a whole. */
module Wrappers {
  datatype Option<+T> = None | Some(value: T)
}
