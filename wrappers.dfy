/** An optional value: `None` stands for a field missing from a request or a
    value that could not be parsed. */
module Wrappers {
  datatype Option<+T> = None | Some(value: T)
}
