/** Optional values: the library answers FALSE where a lookup misses; the model says None. */
module Wrappers {

  datatype Option<+T> = None | Some(value: T)
}
