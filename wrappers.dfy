/** Optional values, for results that a Python call signals by raising or by returning None. */
module Wrappers {

  datatype Option<+T> = None | Some(value: T)
}
