/** Optional values, used where the source has a missing field or a null. */
module Wrappers {

  datatype Option<+T> = None | Some(value: T)
}
