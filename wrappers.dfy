/** The optional-value datatype used for fields a catalog entry may lack. */
module Wrappers {

  datatype Option<+T> = None | Some(value: T)
}
