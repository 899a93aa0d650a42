/** Failure-compatible wrappers used by every module of the model. */
module Wrappers {

  /** A value that may be absent (JavaScript `undefined` or `null`). */
  datatype Option<+T> = None | Some(value: T)

  /** The outcome of an operation that can fail with an error value. */
  datatype Result<+T, +E> = Ok(value: T) | Err(error: E)
}

/** The document store's vocabulary shared by the collections. */
module Documents {

  /**
   * A document identifier. The store generates ObjectIds; the model only
   * needs to compare them, so they are abstract natural numbers.
   */
  type ObjectId = nat

  /**
   * A loosely typed field value of a stored document or of an update.
   * Dates are milliseconds since the Unix epoch (UTC).
   */
  datatype Value = Null | Bool(b: bool) | Num(n: int) | Str(s: string) | Date(ms: int)
}
