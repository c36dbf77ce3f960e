/** The optional value used for header lookups, decoder verdicts and Go's nil-able error. */
module Wrappers {
  datatype Option<+T> = None | Some(value: T)
}
