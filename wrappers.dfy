/** Optional values, used for lookups that may fail and for unbound locals. */
module Wrappers {

  datatype Option<+T> = None | Some(value: T)
}
