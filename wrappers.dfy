/** The optional value used throughout the model: `None` stands for a missing
    property (`undefined`), for an empty token slot (`undefined` or `null`), or
    for `NaN` where a number is expected. A JSON `null` inside a decoded message
    is a present value, `Some(JNull)`. */
module Wrappers {

  datatype Option<+T> = None | Some(value: T)
}
