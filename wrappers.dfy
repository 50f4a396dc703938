/** Option/Result/Outcome wrappers and the host-language failures the core can raise. */
module Wrappers {

  /** A nullable value (`T?` in the source). */
  datatype Option<+T> = None | Some(value: T)

  /** A value or the exception that replaced it. */
  datatype Result<+T, +E> = Success(value: T) | Failure(error: E)

  /** Completion of a statement that returns nothing, or the exception it raised. */
  datatype Outcome<+E> = Pass | Fail(error: E)

  /** The exceptions the modelled code raises on its own. */
  datatype KotlinError =
    | NullPointerException    // `!!` applied to null
    | ArithmeticException     // integer division by zero
    | NotImplementedError     // an unsupported variant
}
