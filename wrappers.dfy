/** Option, Result and Outcome: values that stand for Python's `None` and for
    the `ValueError` a pydantic validator raises. */
module Wrappers {

  /** A field typed `Optional[...]`: `None` or a value. */
  datatype Option<+T> = None | Some(value: T)

  /** A construction that either yields a value or fails with an error. */
  datatype Result<+R, +E> = Success(value: R) | Failure(error: E)

  /** A validated assignment that either goes through or fails with an error. */
  datatype Outcome<+E> = Pass | Fail(error: E)
}

/** Points in time (Python `datetime` values). Nothing here compares or
    orders them, so they stay opaque. */
module Time {
  type Timestamp(==)
}
