/** Failure-carrying datatypes shared by the whole model. */
module Wrappers {

  /** A Java reference that may be null. */
  datatype Option<+T> = None | Some(value: T)

  /**
   * The exceptions the modelled code throws, one constructor per exception
   * class. `Objects.requireNonNull` throws without a message; the `field`
   * names the argument or builder field whose check failed, which is what
   * the stack trace of the real exception points at.
   */
  datatype Error =
    | NullPointer(field: string)      // NullPointerException
    | IllegalArgument                 // IllegalArgumentException
    | IllegalState(reason: string)    // IllegalStateException
    | Forbidden                       // ForbiddenException
    | Duplicate                       // DuplicateWalletProblem
    | NotFound                        // WalletNotFoundProblem
    | BadData                         // BadDataException

  /** A value, or the exception that prevented it. */
  datatype Result<+T> = Ok(value: T) | Err(error: Error)

  /** A `void` call (a setter, a check) that either returns or throws. */
  datatype Outcome = Pass | Fail(error: Error)
}
