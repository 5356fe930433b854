/** Optional values: the model's stand-in for Python's `None` and for an
    operation that gives up without producing a result. */
module Wrappers {
  datatype Option<+T> = None | Some(value: T)
}
