/** Optional values, for the library calls that either succeed with a value or fail. */
module Wrappers {

  datatype Option<+T> = None | Some(value: T)
}
