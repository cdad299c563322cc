/** The optional value used for a receive that yields nothing and for a
    sender whose consumer never hangs up. */
module Wrappers {

  datatype Option<+T> = None | Some(value: T)
}
