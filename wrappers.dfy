/** Option, used where the source has a value that may be missing (`null`, a route that does not match). */
module Wrappers {

  datatype Option<+T> = None | Some(value: T)

}
