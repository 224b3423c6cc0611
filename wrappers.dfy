/** Option and Result, used for the page's nullable state slots, the "not a number"
    outcome of number parsing and the outcome of the one data fetch. */
module Wrappers {

  /** A value that may be absent: `None` stands for JavaScript's null, undefined
      and NaN wherever the page only tests the value for truthiness or compares it. */
  datatype Option<+T> = None | Some(value: T)

  /** The outcome of an operation that may fail with an error value. */
  datatype Result<+R, +E> = Success(value: R) | Failure(error: E)
}
