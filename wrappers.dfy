/** Option: the model's stand-in for Go's nil-or-pointer results. */
module Wrappers {

  datatype Option<+T> = None | Some(value: T)
}
