/** Option, used wherever the source returns `undefined` or may find nothing. */
module Wrappers {

  datatype Option<+T> = None | Some(value: T)
}
