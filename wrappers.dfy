/** Option, the stand-in for Python's `None` and for "this step raised". */
module Wrappers {
  datatype Option<+T> = None | Some(value: T)
}
