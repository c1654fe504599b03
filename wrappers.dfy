/** Optional values, for Python's None and for results a failing call does not produce. */
module Wrappers {

  datatype Option<T> = None | Some(value: T)
}
