/** Failure-compatible wrappers: Java's null becomes Option.None and a thrown
    exception becomes Result.Failure. */
module Wrappers {

  /** A value that may be absent (Java `null`). */
  datatype Option<+T> = None | Some(value: T)

  /** A value or the exception that the Java code throws instead of returning. */
  datatype Result<+R, +E> = Success(value: R) | Failure(error: E)
}

/** The exceptions the library throws. */
module Exceptions {

  /** `java.lang.IllegalArgumentException` with its message text. */
  datatype Exception = IllegalArgument(message: string)
}
