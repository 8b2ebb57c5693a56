/** Optional values, used where the source leaves a result unassigned or a pointer null. */
module Wrappers {
  datatype Option<+T> = None | Some(value: T)
}
