/** Failure-compatible result used for the resolver's single fatal outcome. */
module Wrappers {

  /** `None` stands for a computation that stopped with a fatal error. */
  datatype Option<+T> = None | Some(value: T)
}
