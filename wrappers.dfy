/** Optional values: a missing JavaScript property (`undefined`/`null`) is `None`. */
module Wrappers {
  datatype Option<+T> = None | Some(value: T)
}
