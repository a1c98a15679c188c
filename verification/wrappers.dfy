/** The optional value used for the registry's nil-able handler slots. */
module Wrappers {

  /** `None` stands for a nil function or pointer, `Some(v)` for a set one. */
  datatype Option<+T> = None | Some(value: T)
}
