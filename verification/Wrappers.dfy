/** An optional value: Go's nil pointer, nil slice or missing map entry. */
module Wrappers {
  datatype Option<+T> = None | Some(value: T)
}
