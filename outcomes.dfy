/**
 * The two failures this library raises, and the result of a call that
 * either returns normally or throws one of them.
 */
module Outcomes {

  /** The message of the CancellationException thrown by a cancelled token. */
  const TokenCancelledMessage: string := "Token is cancelled"

  /** The message of the IllegalStateException thrown when the empty stage is awaited. */
  const EmptyStageMessage: string := "Empty stage cannot be awaited"

  datatype Error =
    | CancellationError(message: string)
    | IllegalState(message: string)

  /** A call that returns nothing: it passes, or it throws `error`. */
  datatype Outcome = Pass | Fail(error: Error)
}
