/** The optional-value datatype used for references that may be missing and
    storage entries that may be absent. */
module Wrappers {

  datatype Option<+T> = None | Some(value: T)
}
