/** Optional values, standing in for the `null`/`undefined` cases of the source. */
module Wrappers {

  datatype Option<+T> = None | Some(value: T)
}
