/** Option type used for "maybe an error message" and for image slots. */
module Wrappers {
  datatype Option<+T> = None | Some(value: T)
}
