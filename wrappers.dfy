/** Optional values, standing for Python's `None` and for the error paths of
    the source (an exception the caller sees as "no result"). */
module Wrappers {

  datatype Option<+T> = None | Some(value: T)
}
