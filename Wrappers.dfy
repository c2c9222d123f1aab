/** Optional values, used for Python's "no match" and "raises" outcomes. */
module Wrappers {

  datatype Option<+T> = None | Some(value: T)
}
