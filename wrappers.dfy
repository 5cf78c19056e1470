/** The optional value the controller passes between its stages (Python's `None` or a value). */
module Wrappers {
  datatype Option<+T> = None | Some(value: T)
}
