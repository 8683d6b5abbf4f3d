// A value that may be missing, and the identifiers that the server's entities carry.
module Basics {
  datatype Option<+T> = None | Some(value: T)

  type Uuid = nat
}
