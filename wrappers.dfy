/** The optional value used wherever the Python code returns either an object or None. */
module Wrappers {

  datatype Option<+T> = None | Some(value: T)
}
