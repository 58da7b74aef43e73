/** Optional values, used for PHP's nullable parameters and for lookups that may miss. */
module Wrappers {
  datatype Option<+T> = None | Some(value: T)
}
