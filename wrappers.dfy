/** Optional values: a JSON field that may be missing from a listing record. */
module Wrappers {

  datatype Option<+T> = None | Some(value: T)
}
