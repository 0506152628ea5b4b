/** The optional value used for the now-playing slot, a user's pending search
    result and the outcome of a search. */
module Wrappers {

  datatype Option<+T> = None | Some(value: T)
}
