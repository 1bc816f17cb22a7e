/** Optional values: a JavaScript property that may be missing, or a lookup that may find nothing. */
module Wrappers {
  datatype Option<+T> = None | Some(value: T)
}
