/** Optional values, used for "not found" and "did not parse". */
module Wrappers {

  datatype Option<+T> = None | Some(value: T)
}
