/** Optional values: the model of Python's `None` for nullable columns, optional
    message fields and lookups that find nothing. */
module Wrappers {

  datatype Option<+T> = None | Some(value: T)
}
