/** The conventional optional value, used for absent record keys and for a
    path parameter that does not parse to an integer. */
module Wrappers {
  datatype Option<+T> = None | Some(value: T)
}
