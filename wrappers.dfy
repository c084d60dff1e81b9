/** Rust's `Option`, used for the value `push_back` evicts and for an optional filler label. */
module Wrappers {

  datatype Option<T> = None | Some(value: T)
}
