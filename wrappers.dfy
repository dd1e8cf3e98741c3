/** The absent-or-present value the game uses where JavaScript has `undefined`. */
module Wrappers {

  datatype Option<+T> = None | Some(value: T)
}
