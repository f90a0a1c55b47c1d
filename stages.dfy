/**
 * `EmptyAwaitableStage.STAGE`, the stage of the empty token: it can never be
 * awaited, and every continuation on it returns the stage itself without
 * running the action it was given.
 */
module Stages {
  import opened Outcomes
  import opened Signals

  /** The six blocking waits of `AwaitableStage`. */
  datatype AwaitCall =
    | Await
    | AwaitFor(timeout: Long)
    | AwaitForIn(timeout: Long, unit: TimeUnit)
    | AwaitUnchecked
    | AwaitUncheckedFor(timeout: Long)
    | AwaitUncheckedForIn(timeout: Long, unit: TimeUnit)

  /** The continuation families of `CompletionStage`. */
  datatype Family =
    | ThenApply | ThenAccept | ThenRun | ThenCombine | ThenAcceptBoth | RunAfterBoth
    | ApplyToEither | AcceptEither | RunAfterEither | ThenCompose | Handle | WhenComplete
    | Exceptionally

  /** How a continuation runs: in the completing thread, asynchronously, or on a given executor. */
  datatype Mode = Direct | Async | AsyncOn

  /** One continuation method; `exceptionally` exists only in its direct form. */
  datatype Continuation = Continuation(family: Family, mode: Mode)
  {
    predicate Declared()
    {
      family == Exceptionally ==> mode == Direct
    }
  }

  /** The stage a continuation returns, and the actions it ran on the way. */
  datatype Continued<A> = Continued(stage: AwaitableStage, ran: seq<A>)

  /** Any of the six waits on the empty stage throws `IllegalStateException`. */
  function AwaitEmpty(call: AwaitCall): (r: Outcome)
    ensures r.Fail? && r.error.IllegalState? && r.error.message == EmptyStageMessage
  {
    Fail(IllegalState(EmptyStageMessage))
  }

  /** A continuation on the empty stage: the result is the same stage and `action` does not run. */
  function ContinueEmpty<A>(k: Continuation, action: A): (r: Continued<A>)
    requires k.Declared()
    ensures r.stage == EmptyStage && r.ran == []
  {
    Continued(EmptyStage, [])
  }
}
