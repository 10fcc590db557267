/** The absent-or-present value the client code expresses with `undefined`
    and `null`. */
module Wrappers {

  datatype Option<+T> = None | Some(value: T)
}
