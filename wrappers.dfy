/** Optional values: a JavaScript `null`/`undefined` where the source allows one. */
module Wrappers {
  datatype Option<+T> = None | Some(value: T)
}
