/** The optional-value datatype used for every field that a stored document may lack. */
module Wrappers {

  datatype Option<+T> = None | Some(value: T)

}
