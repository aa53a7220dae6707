/** The optional value both cores use: a key that may be missing, a cart
    entry that may not exist, a payment that may not be chosen. */
module Wrappers {
  datatype Option<T> = None | Some(value: T)
}
