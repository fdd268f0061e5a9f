/** The optional value used for the boss-free laser slot. */
module Wrappers {
  datatype Option<T> = None | Some(value: T)
}
