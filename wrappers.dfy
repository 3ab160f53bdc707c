/** Optional values: a dictionary key that may be absent, a link that may not be found. */
module Wrappers {
  datatype Option<+T> = None | Some(value: T)
}
