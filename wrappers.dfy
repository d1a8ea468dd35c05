// The outcome of a computation that may give up.
module Wrappers {

  datatype Option<+T> = None | Some(value: T)
}
