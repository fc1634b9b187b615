/** Small failure-carrying datatypes shared by the other modules. */
module Wrappers {

  /** An optional value: `None` stands for Python's `None` or for a lookup that raised. */
  datatype Option<T> = None | Some(value: T)

  /** How an event handler ended: normally, or by raising Python's `IndexError`. */
  datatype Outcome = Done | IndexError
}
