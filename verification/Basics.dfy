/** Shared vocabulary of the protocol models. */
module Basics {
  datatype Option<+T> = None | Some(value: T)
}
