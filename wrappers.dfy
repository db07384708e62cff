/** The optional value used throughout the model: a JavaScript value that may be
    `null` or `undefined` on one side, a present value on the other. */
module Wrappers {

  datatype Option<+T> = None | Some(value: T)
}
