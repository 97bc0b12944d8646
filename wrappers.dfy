/** An optional value: `None` stands for Python's `None` or a missing key. */
module Wrappers {
  datatype Option<+T> = None | Some(value: T)
}
