/** The optional value used for the single-slot timer handles. */
module Wrappers {

  datatype Option<+T> = None | Some(value: T)
}
