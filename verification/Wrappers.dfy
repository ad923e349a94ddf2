/** Optional values, standing for Go's nil pointers and absent rows. */
module Wrappers {
  datatype Option<+T> = None | Some(value: T)
}
