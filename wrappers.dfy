// Failure-compatible wrappers used throughout the model: an Option for Java's
// nullable references and a Result for a call that returns a value or throws.

module Wrappers {

  /** A nullable reference: None stands for Java's null. */
  datatype Option<+T> = None | Some(value: T)

  /** The outcome of a Java call: the value it returned, or the exception it threw. */
  datatype Result<+R, +E> = Success(value: R) | Failure(error: E)

  /** The outcome of a Java call returning void. */
  datatype Outcome<+E> = Pass | Fail(error: E)
}

// The Java exceptions the modelled code throws, with the messages it gives them.
module Exceptions {

  datatype Exception =
    | IllegalArgument(message: string)
    | UnsupportedOperation(message: string)
    | IndexOutOfBounds(message: string)
    | NullPointer
    | EmptyStack
    | ClassCast
    | Runtime(message: string)
}
