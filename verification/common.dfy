/** Shared wrappers: a nullable value, and the outcome of an operation that
    can throw IllegalArgumentException. */
module Common {

  /** A value the source may hold as a Java null. */
  datatype Option<+T> = None | Some(value: T)

  /** The outcome of a call that either returns a value or throws
      IllegalArgumentException with a message. */
  datatype Result<+T> = Ok(value: T) | IllegalArgument(message: string)
}
