/** Option and Result: Java's nullable references and thrown exceptions. */
module Common {

  /** `None` stands for a Java `null` (or an absent value). */
  datatype Option<+T> = None | Some(value: T)

  /** `Failure` stands for an exception; `error` is what the caller gets to see of it. */
  datatype Result<+T, +E> = Success(value: T) | Failure(error: E)
}
