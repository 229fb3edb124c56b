/** Option and Result values, used for values that may be absent (a header, a
    request parameter) and for the success or failure of a call into the OAuth
    client. */
module Wrappers {

  datatype Option<+T> = None | Some(value: T)

  datatype Result<+R, +E> = Success(value: R) | Failure(error: E)
}
