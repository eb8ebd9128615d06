/** Optional values: a SQL NULL, a missing row, a Python `None`, or an
    operation that raised before producing its result. */
module Wrappers {

  datatype Option<T> = None | Some(value: T)
}
