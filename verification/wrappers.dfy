/** Optional values, used for the places where the scripts catch an exception
    and carry on with nothing. */
module Wrappers {
  datatype Option<+T> = None | Some(value: T)
}
