/** Option, used wherever the script works with a value that may be missing. */
module Wrappers {

  datatype Option<+T> = None | Some(value: T)
}
