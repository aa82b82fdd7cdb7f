/** Rust's `Option`, used for board cells, drop results and a node's move. */
module Wrappers {

  datatype Option<+T> = None | Some(value: T)

}
