/** Small failure-carrying datatypes shared by every module of the model. */
module Basics {

  /** A value that may be absent: JavaScript's `undefined`/`null` next to a present value. */
  datatype Option<+T> = None | Some(value: T)

  /** The outcome of an operation that either produces a value or fails with an error. */
  datatype Result<+T, +E> = Ok(value: T) | Err(error: E)

  /** An HTTP response as a handler writes it: `res.status(status).json(body)`. */
  datatype Reply<+B> = Reply(status: int, body: B)
}
