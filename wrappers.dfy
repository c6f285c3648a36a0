/** The conventional optional value, used for the library calls that can fail
    (an unparsable move, an empty square) and for results that may be absent. */
module Wrappers {

  datatype Option<+T> = None | Some(value: T)

}
