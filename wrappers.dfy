/** The optional-value datatype used for absent JSON fields and absent form keys. */
module Wrappers {

  datatype Option<+T> = None | Some(value: T)
}
