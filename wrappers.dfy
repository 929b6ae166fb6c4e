/** Option, standing in for Go's nil pointers, nil maps and "not found" results. */
module Wrappers {
  datatype Option<+T> = None | Some(value: T)
}
