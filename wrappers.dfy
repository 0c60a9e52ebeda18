/** The optional-value datatype used for capture outcomes and for the injected failure point of init. */
module Wrappers {

  datatype Option<+T> = None | Some(value: T)
}
