/** The conventional Some/None datatype, used for the partial code tables. */
module Wrappers {

  datatype Option<+T> = None | Some(value: T)
}
