/** Option and Result values: Java's nullable references and thrown exceptions. */
module Wrappers {

  /** `None` stands for a Java `null`. */
  datatype Option<+T> = None | Some(value: T)

  /** `Failure` stands for a thrown exception, carrying what it reports. */
  datatype Result<+T, +E> = Success(value: T) | Failure(error: E)
}
