/** Option stands for a nullable pointer or an optional value of the source. */
module Wrappers {
  datatype Option<+T> = None | Some(value: T)
}
