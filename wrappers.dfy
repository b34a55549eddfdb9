/** The usual optional-value datatype, used for the outcome of a parse or a decode. */
module Wrappers {

  datatype Option<+T> = None | Some(value: T)
}
