/** Optional values: an absent object key, a failed lookup, a backend call that reported an error. */
module Wrappers {

  datatype Option<+T> = None | Some(value: T)
}
