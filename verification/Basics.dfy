/** The option type used wherever the controllers have nil or a missing entry. */
module Basics {
  datatype Option<+T> = None | Some(value: T)
}
