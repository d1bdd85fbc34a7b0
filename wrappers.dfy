/** The optional value used for the outcome of the two parsing steps that
    the model takes as inputs: the integer parse of the path segment and
    the JSON decoding of the request body. */
module Wrappers {

  datatype Option<+T> = None | Some(value: T)
}
