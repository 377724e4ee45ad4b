/** Optional values: a Python `None` or a SQL `NULL` is `None`. */
module Wrappers {

  datatype Option<T> = None | Some(value: T)
}
