/** An optional value, for the results the Go code pairs with a nil-able error. */
module Wrappers {
  datatype Option<T> = None | Some(value: T)
}
