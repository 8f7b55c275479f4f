/** The optional value used where the game's JavaScript returns `null`. */
module Wrappers {
  datatype Option<+T> = None | Some(value: T)
}
