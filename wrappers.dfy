/** Optional values, standing for Go's nil pointers and comma-ok lookups. */
module Wrappers {

  datatype Option<+T> = None | Some(value: T)
}
