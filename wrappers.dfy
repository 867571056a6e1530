/** Optional values: a null configuration pointer, a search that finds nothing, a switch with no matching case. */
module Wrappers {
  datatype Option<+T> = None | Some(value: T)
}
