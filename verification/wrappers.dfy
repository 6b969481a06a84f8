/** The optional-value datatype used for nullable native fields and for PureScript's Maybe. */
module Wrappers {

  datatype Option<+T> = None | Some(value: T)
}
