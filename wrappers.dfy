/** Shared wrappers used by the product and cart handlers. */
module Wrappers {

  /** A value that may be absent: `None` stands for JavaScript's `undefined` or for a failed parse. */
  datatype Option<+T> = None | Some(value: T)

  /** What a handler answers: a result, or the 404 reply with its human-readable message. */
  datatype Outcome<+T> = Ok(value: T) | NotFound(message: string)
}
