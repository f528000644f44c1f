/** Optional values: an absent DOM element, an unset style, an empty storage slot. */
module Wrappers {
  datatype Option<+T> = None | Some(value: T)
}
