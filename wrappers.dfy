/** Python's "a value or `None`", as the handler's lookups return it. */
module Wrappers {

  datatype Option<T> = None | Some(value: T)
}
