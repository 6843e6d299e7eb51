/** The optional value used wherever the game's code returns or stores an `Option`. */
module Wrappers {

  datatype Option<+T> = None | Some(value: T)

}
