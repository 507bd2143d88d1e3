/** The optional value used wherever the Python code uses None. */
module Wrappers {

  datatype Option<+T> = None | Some(value: T)

}
