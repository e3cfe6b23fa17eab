/** Option, Result and Outcome values for the verdicts and errors of the model. */
module Wrappers {

  datatype Option<+T> = None | Some(value: T)

  /** The reasons an operation of the model reports failure, mirroring the
      exceptions the plugin throws. */
  datatype Error =
    | IllegalArgument(message: string)   // java.lang.IllegalArgumentException
    | UncheckedIO                        // java.io.UncheckedIOException wrapping an IOException

  datatype Result<+T> = Success(value: T) | Failure(error: Error)

  datatype Outcome = Pass | Fail(error: Error)
}
