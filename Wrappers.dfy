/** The optional value used across the model: a missing property, a missing
    upstream response, an absent configuration entry. */
module Wrappers {

  datatype Option<+T> = None | Some(value: T)
}
