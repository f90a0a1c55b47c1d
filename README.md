# Cooperative cancellation in jct, modelled in Dafny

jct (`com.github.romanqed.jct`) provides cooperative cancellation for Java.
A `CancelSource` hands out `CancelToken`s. A token answers four queries:
- `canceled()`;
- `cancellable()`;
- `checkCanceled()`, which throws once the token is cancelled;
- `onCancelled()`, an `AwaitableStage` that completes on cancellation.

The completable source keeps one *generation*: a `CompletableFuture<Void>` and the token over it. Its operations are:
- `cancel()` completes the future of the current generation;
- `cancelAfter` arms that future's timeout;
- `reset()` installs a fresh generation. Tokens handed out earlier stay bound to the old future.

There are three OR-combinators, over an `Iterable`, an array and a pair. There are two sentinels: the empty token and the empty stage. The helpers in `Cancellation` wire tokens together:
- `combine` registers `source::cancel` on every token's stage;
- `combined` does the same for a fresh source;
- `combinedToken` registers the completion of a fresh future.

The project has six modules.

- `Outcomes` holds what a query can end in:
  - normal return;
  - `CancellationException("Token is cancelled")`;
  - `IllegalStateException("Empty stage cannot be awaited")`.
- `Signals` is the imperative machinery.
  - `Cell` is a sequential stand-in for `CompletableFuture<Void>`: a done flag and the list of actions registered with `thenRun`.
  - `Trigger` is such an action. It either completes another cell or calls `cancel()` on a source.
  - `World` is every cell and source allocated so far, plus an abstract clock and the timer queue behind `completeOnTimeout`.
  - `CancelSource` is `CompletableCancelSource`; the cell `gen` is its current generation.
  - Completing a cell runs its triggers, recursively. The result is specified on values by `Propagated`: the seeds are done; every newly done cell ran its triggers; nothing outside the closure of the seeds changed.
  - The token and stage datatypes are declared here too, because triggers name sources and sources hand out tokens.
- `Tokens` are the queries of the five token classes, as functions over the `CancelToken` datatype that read the done flags of the cells underneath.
- `Stages` is `EmptyAwaitableStage`: the six waits fail, and each of the continuation methods returns the stage without running its action.
- `Cancellation` is the static helpers. The wiring loop of `combine` / `combinedToken` is a method whose loop invariant `Subscribed` states, on the world's value mirror, which cells got the action and what ran at once.
- `Scenarios` replays each case of `CancellationTest` on a fresh world. A scenario's postcondition is what the test asserts.

## Model

| member | source | states |
|---|---|---|
| Signals.ToNanos | src/main/java/com/github/romanqed/jct/CompletableCancelSource.java:48-50 | `TimeUnit.toNanos` keeps the sign of the duration; a result strictly inside the range of `long` is the exact product, and an extreme result means the product overflowed that way |
| Signals.ToNanosMonotone | src/main/java/com/github/romanqed/jct/CompletableCancelSource.java:48-50 | converting a longer timeout never gives a shorter delay, saturation included |
| Signals.ToNanosExact | src/main/java/com/github/romanqed/jct/CompletableCancelSource.java:43-45 | a timeout whose nanosecond count fits in a `long` is converted exactly |
| Signals.Delay | src/main/java/com/github/romanqed/jct/CompletableCancelSource.java:43-50 | a negative timeout fires at once; any other fires after its length in nanoseconds |
| Signals.PropagatedStep | src/main/java/com/github/romanqed/jct/CompletableCancelSource.java:38-40 | completing a pending cell means marking it done, then completing what its triggers name |
| Signals.PropagatedCompose | src/main/java/com/github/romanqed/jct/Cancellation.java:34-36 | completing one set of cells and then another is completing their union |
| Signals.PropagatedIdle | src/main/java/com/github/romanqed/jct/CompletableCancelSource.java:38-40 | completing cells that are already done changes nothing, so a second `cancel()` is absorbed |
| Signals.PropagatedUnique | src/main/java/com/github/romanqed/jct/Cancellation.java:79-81 | the done set after a completion does not depend on the order in which dependents run |
| Signals.PropagatedMisses | src/main/java/com/github/romanqed/jct/CompletableCancelSource.java:33-40 | a cell that is not a seed and that no trigger names keeps its done flag through any completion: pending stays pending |
| Signals.NamelessUnnamed | src/main/java/com/github/romanqed/jct/CompletableCancelSource.java:33-40 | a cell that no `CompleteCell` action names and that is no source's current generation has no incoming edge, so after `reset()` no `cancel()` reaches the old generation |
| Signals.Waiting | src/main/java/com/github/romanqed/jct/CompletableCancelSource.java:43-50 | the timer tasks left queued are exactly those whose deadline is later than the clock |
| Signals.DueCellsSpec | src/main/java/com/github/romanqed/jct/CompletableCancelSource.java:43-50 | a cell is due exactly when some queued task for it has a deadline at or before the clock |
| Signals.World.NewCell | src/main/java/com/github/romanqed/jct/Cancellation.java:78 | `new CompletableFuture<>()` yields a fresh pending cell with no dependents; nothing else changes |
| Signals.World.Complete | src/main/java/com/github/romanqed/jct/CompletableCancelSource.java:38-40 | `complete(null)` leaves done exactly what propagating from the cell reaches; done cells stay done |
| Signals.World.Run | src/main/java/com/github/romanqed/jct/CompletableCancelSource.java:38-40 | a pending cell is marked done and its dependents run, with the same propagation result |
| Signals.World.Fire | src/main/java/com/github/romanqed/jct/Cancellation.java:35 | running a list of registered actions completes what they name, with its propagation |
| Signals.World.ThenRun | src/main/java/com/github/romanqed/jct/Cancellation.java:35 | `thenRun`: the empty stage drops the action; on a pending cell the action is appended and nothing runs; on a done cell it runs at once |
| Signals.World.Arm | src/main/java/com/github/romanqed/jct/CompletableCancelSource.java:43-50 | `completeOnTimeout` queues a task for `now + delay` unless the cell is already done |
| Signals.World.FireDue | src/main/java/com/github/romanqed/jct/CompletableCancelSource.java:43-50 | running the queued timer tasks in order completes exactly the cells with a due task, with their propagation |
| Signals.World.Tick | src/main/java/com/github/romanqed/jct/CompletableCancelSource.java:43-50 | advancing the clock completes every cell with a due task, with propagation, and keeps only the tasks not yet due |
| Signals.CancelSource.constructor | src/main/java/com/github/romanqed/jct/CompletableCancelSource.java:22-25 | a new source holds a fresh pending generation, so it is not cancelled |
| Signals.CancelSource.Reset | src/main/java/com/github/romanqed/jct/CompletableCancelSource.java:33-35 | `reset()` installs a fresh pending generation, so `token()` returns a different token; every existing cell, done flag and trigger is left as it was |
| Signals.CancelSource.Cancel | src/main/java/com/github/romanqed/jct/CompletableCancelSource.java:38-40 | `cancel()` makes the current generation done with its propagation; if it was already done, nothing changes; every other cell that no action names, such as a generation retired by `reset()`, keeps its done flag |
| Signals.CancelSource.Token | src/main/java/com/github/romanqed/jct/CompletableCancelSource.java:27-30 | `token()` is the completable token over the future of the current generation, the pair that the `State` record holds (lines 61-64) |
| Signals.CancelSource.Canceled | src/main/java/com/github/romanqed/jct/CompletableCancelSource.java:52-55 | `canceled()` is whether the future of the current generation is done, exactly the flag its token reads |
| Signals.CancelSource.CancelAfter | src/main/java/com/github/romanqed/jct/CompletableCancelSource.java:43-45 | queues the current generation for `timeout` milliseconds from now, unless it is done; cancels nothing yet |
| Signals.CancelSource.CancelAfterIn | src/main/java/com/github/romanqed/jct/CompletableCancelSource.java:48-50 | the same with the timeout in the given `TimeUnit` |
| Tokens.Canceled | src/main/java/com/github/romanqed/jct/CompletableCancelToken.java:26-28 | `canceled()` of any token; only a cancellable token is ever cancelled |
| Tokens.Cancellable | src/main/java/com/github/romanqed/jct/EmptyCancelToken.java:12-14 | `cancellable()` is true exactly when the token is built over at least one completable token, so the empty token and a combinator over nothing cancellable answer false |
| Tokens.Check | src/main/java/com/github/romanqed/jct/CompletableCancelToken.java:36-40 | `checkCanceled()` of any token either returns normally or throws `CancellationException("Token is cancelled")`, nothing else |
| Tokens.AnyCanceled | src/main/java/com/github/romanqed/jct/CombinedArrayCancelToken.java:25-32 | a combinator's `canceled()` is true exactly when some child is cancelled |
| Tokens.AnyCancellable | src/main/java/com/github/romanqed/jct/CombinedCancelToken.java:35-42 | a combinator's `cancellable()` is true exactly when some child is cancellable, so it is false with no children |
| Tokens.CheckAll | src/main/java/com/github/romanqed/jct/CombinedCancelToken.java:45-49 | the checks pass exactly when every child's check passes; a failure is the first failing child's, and every child before it passed |
| Tokens.Stage | src/main/java/com/github/romanqed/jct/CombinedArrayCancelToken.java:51-54 | `onCancelled()`: a completable token's is its cell's stage, the empty token's the empty stage, a combinator's the stage it was built with |
| Tokens.CanceledIffLeafDone | src/main/java/com/github/romanqed/jct/CompletableCancelToken.java:26-28 | a token is cancelled exactly when the cell of one of its completable leaves is done |
| Tokens.AnyCanceledIffLeafDone | src/main/java/com/github/romanqed/jct/CombinedCancelToken.java:25-32 | the same for a sequence of children |
| Tokens.CheckMatchesCanceled | src/main/java/com/github/romanqed/jct/CompletableCancelToken.java:36-40 | `checkCanceled()` throws exactly when `canceled()` holds, and what it throws is "Token is cancelled" |
| Tokens.CheckAllMatchesAnyCanceled | src/main/java/com/github/romanqed/jct/CombinedArrayCancelToken.java:45-49 | the same for a combinator's children |
| Tokens.NotCancellableNeverCanceled | src/main/java/com/github/romanqed/jct/EmptyCancelToken.java:12-29 | a token that is not cancellable is never cancelled and its check passes |
| Tokens.NoneCancellableNoneCanceled | src/main/java/com/github/romanqed/jct/CombinedArrayCancelToken.java:35-42 | children none of which is cancellable are none cancelled, and their checks pass |
| Tokens.EmptyNeutral | src/main/java/com/github/romanqed/jct/EmptyCancelToken.java:12-29 | the empty token anywhere among a combinator's children changes none of `canceled`, `cancellable` or `checkCanceled` |
| Tokens.PairAsArray | src/main/java/com/github/romanqed/jct/CombinedPairCancelToken.java:28-41 | the pair combinator answers exactly as the array combinator over `[first, second]` |
| Tokens.IterableAsArray | src/main/java/com/github/romanqed/jct/CombinedCancelToken.java:25-54 | the iterable combinator answers as the array combinator over the same children and returns its own stage |
| Tokens.CanceledStaysTrue | src/main/java/com/github/romanqed/jct/CompletableCancelToken.java:26-28 | a cancelled token stays cancelled while no done cell becomes pending again |
| Tokens.SourceTokenAgrees | src/main/java/com/github/romanqed/jct/CompletableCancelSource.java:52-55 | `source.canceled()` equals `source.token().canceled()`; the token is cancellable and its stage awaits the current generation |
| Stages.AwaitEmpty | src/main/java/com/github/romanqed/jct/EmptyAwaitableStage.java:20-48 | every wait on the empty stage throws `IllegalStateException("Empty stage cannot be awaited")` |
| Stages.ContinueEmpty | src/main/java/com/github/romanqed/jct/EmptyAwaitableStage.java:50-248 | every continuation on the empty stage returns the empty stage and runs nothing |
| Cancellation.Subscribe | src/main/java/com/github/romanqed/jct/Cancellation.java:33-37 | after the loop, copies of the action were appended only to cells the stages await that were pending before the call, and no other trigger list changed; every stage still pending lists it; if a stage was done, the action's completion has run; if none was done before, nothing ran |
| Cancellation.SubscribeOne | src/main/java/com/github/romanqed/jct/Cancellation.java:35 | one turn of the loop extends `Subscribed` from the first k tokens to the first k + 1 |
| Cancellation.SubscribeStep | src/main/java/com/github/romanqed/jct/Cancellation.java:35 | the three outcomes of `thenRun` (empty, pending, done) each preserve `Subscribed` |
| Cancellation.SubscribedQuiet | src/main/java/com/github/romanqed/jct/Cancellation.java:33-37 | while no stage is done, subscribing runs nothing, and every awaiting stage will run the action |
| Cancellation.ListenerFires | src/main/java/com/github/romanqed/jct/Cancellation.java:35 | once a wired stage's cell becomes done, what the action names is done too |
| Cancellation.ListensKept | src/main/java/com/github/romanqed/jct/CompletableCancelSource.java:33-35 | a wiring survives appending triggers and adding cells, so a `reset()` does not undo a `combine` |
| Cancellation.NewSource | src/main/java/com/github/romanqed/jct/Cancellation.java:16-18 | `source()` is a fresh, uncancelled source over a fresh pending cell |
| Cancellation.EmptyToken | src/main/java/com/github/romanqed/jct/Cancellation.java:24-26 | `emptyToken()` reads no cell, is not cancellable, has the empty stage and a passing check |
| Cancellation.Combine | src/main/java/com/github/romanqed/jct/Cancellation.java:33-37 | `combine(source, tokens)`: the loop's wiring, and the source is cancelled afterwards exactly when it was before or some stage was already done |
| Cancellation.Combined | src/main/java/com/github/romanqed/jct/Cancellation.java:44-48 | `combined(tokens)`: a fresh source wired to every token, cancelled exactly when some stage was already done |
| Cancellation.DerivedCell | src/main/java/com/github/romanqed/jct/Cancellation.java:78-81 | a fresh future wired to every token, done exactly when some stage was already done; with no tokens, no trigger names it |
| Cancellation.CombinedToken | src/main/java/com/github/romanqed/jct/Cancellation.java:77-83 | `combinedToken(tokens...)`: the array combinator over the tokens with the derived future's stage; with no tokens, never cancelled or cancellable |
| Cancellation.CombinedTokenOf | src/main/java/com/github/romanqed/jct/Cancellation.java:90-96 | `combinedToken(Iterable)`: the same, as the iterable combinator |
| Scenarios.EmptyTokenCase | src/test/java/com/github/romanqed/jct/CancellationTest.java:15-24 | the empty token is not cancelled, not cancellable, its check passes, and awaiting its stage throws |
| Scenarios.CompletableTokenCase | src/test/java/com/github/romanqed/jct/CancellationTest.java:27-41 | a token over a pending future is cancellable and passes its check; after `complete` it is cancelled and throws "Token is cancelled" |
| Scenarios.SourceCancelCase | src/test/java/com/github/romanqed/jct/CancellationTest.java:48-65 | `cancel` cancels the token and source; after `reset` there is a different, pending token, the source is not cancelled, and the old token stays cancelled |
| Scenarios.ResetThenCancelCase | src/main/java/com/github/romanqed/jct/CompletableCancelSource.java:33-40 | after `reset()`, `cancel()` cancels the new generation while a token taken before the reset stays pending |
| Scenarios.CancelAfterCase | src/test/java/com/github/romanqed/jct/CancellationTest.java:68-78 | `cancelAfter(50 ms)` is not cancelled at once and is cancelled when the clock reaches 70 ms |
| Scenarios.StaleTimerCase | src/main/java/com/github/romanqed/jct/CompletableCancelSource.java:33-45 | a timeout armed before `reset()` completes the old generation only; the new one stays pending |
| Scenarios.ArrayCombinatorCase | src/test/java/com/github/romanqed/jct/CancellationTest.java:81-99 | the array combinator is pending and cancellable; after `source1.cancel()` it is cancelled and its check throws |
| Scenarios.IterableCombinatorCase | src/test/java/com/github/romanqed/jct/CancellationTest.java:102-118 | the same for the iterable combinator and `source2.cancel()` |
| Scenarios.EmptyStageCase | src/test/java/com/github/romanqed/jct/CancellationTest.java:122-129 | awaiting the empty stage throws; `thenRun` and `thenApply` return it and run nothing |
| Scenarios.CombineCase | src/test/java/com/github/romanqed/jct/CancellationTest.java:132-148 | s1, s2 and target start uncancelled; after `combine(target, s1, s2)` the target is still pending; `s1.cancel()` cancels it, with or without a `target.reset()` in between |
| Scenarios.CombinedCase | src/test/java/com/github/romanqed/jct/CancellationTest.java:150-158 | `combined(s3, s4)` is pending until `s4.cancel()`, then cancelled |
| Scenarios.DerivedTokenCase | src/main/java/com/github/romanqed/jct/Cancellation.java:77-96 | a derived token over two sources is pending; cancelling either source cancels it and completes its future; cancelling the other afterwards leaves the future done |
| Scenarios.CombinedTokenCase | src/test/java/com/github/romanqed/jct/CancellationTest.java:160-167 | `combinedToken(s5, s6)` is pending until `s6.cancel()`, then cancelled |
| Scenarios.CombinedTokenOfCase | src/test/java/com/github/romanqed/jct/CancellationTest.java:169-176 | `combinedToken(List.of(s7, s8))` is pending until `s7.cancel()`, then cancelled |
| Scenarios.NoTokensCase | src/main/java/com/github/romanqed/jct/Cancellation.java:77-83 | `combinedToken()` with no tokens is not cancelled and not cancellable, and another source's cancellation does not complete its future |
| Scenarios.CombineEmptyCase | src/main/java/com/github/romanqed/jct/EmptyAwaitableStage.java:84-86 | `combine(target, emptyToken())` registers nothing, so another source's cancellation leaves the target pending |

## Left out

- `CompletableAwaitableStage` is not part of this model: blocking `get` with timeouts, `ExecutionException` wrapping and thread interrupts cannot be expressed sequentially. A completable stage is represented by its cell (`Awaiting(cell)`). The `awaitUnchecked()` call at the end of `testCompletableCancelToken` (test line 44) is therefore not modelled.
- `AwaitableStage.java` and `module-info.java` are not part of this model. They hold declarations and packaging only.
- Concurrency is out of scope: the `volatile` state, races between `reset()` and `token()`, concurrent `cancel()` calls, and asynchronous executors. The model runs one sequential interleaving.
- Real time is out of scope. `Thread.sleep` and the JDK timer thread become the abstract clock `World.now`. `World.Tick` advances it and runs due timer tasks.
- `Signals.Delay` does not model the JDK timer's handling of delays near `Long.MAX_VALUE`. Such a deadline is kept as an unbounded integer instead of overflowing.
- Dependent order differs: the JDK runs a future's dependents newest first, while `World.Fire` runs them in registration order. `PropagatedUnique` shows the resulting done set is the same either way.
- Exceptional completion, or `cancel`-style completion of a backing future, is not modelled; this library cannot reach it. Only `complete(null)` and the timeout exist.
- The `CompletionStage` continuation algebra of a completable stage is not modelled. Only `thenRun` of a registered action matters to the core. The stage `thenRun` returns is not modelled, because every caller in the library discards it.
- `Stages.ContinueEmpty` does not model the continuations' function arguments. The action is one value of a type parameter, since the empty stage never looks at it.
- The `Iterable` and varargs overloads of `combine` are one method, `Cancellation.Combine`, and of `combined` one method, `Cancellation.Combined`, over a `seq`. The two overloads do the same thing element by element.
- The `Supplier<CompletableFuture<Void>>` of `CompletableCancelSource` is not modelled: a new generation is always `World.NewCell`. That is what every caller in the library passes, `CompletableFuture::new`.
- Two modelling artefacts are ghost and exist only to state contracts:
  - `World.cells`, `sources`, `deps` and `gens` mirror, as values, every allocated cell and source, each cell's triggers and each source's generation;
  - the precondition `StagesIn` of the wiring methods says the tokens' stages await cells of this world.
- Aliasing of the children is not modelled. `CombinedArrayCancelToken` keeps the caller's array, and `combinedToken(CancelToken...)` hands it its varargs array. `CombinedCancelToken` walks the caller's `Iterable` again on every query. If the caller later mutates that array or collection, the Java queries follow the new children while the wiring follows the old ones. In the model, `CombinedArray`, `CombinedIterable`, `Cancellation.CombinedToken` and `Cancellation.CombinedTokenOf` take a snapshot of the children as a `seq`.
- Timer cancellation is not modelled. `completeOnTimeout` cancels its timer task when the future completes first, while `World.Tick` keeps such a task until it falls due. Completing a done cell changes nothing (`PropagatedIdle`), so the difference cannot be observed.
- Cancellation.Subscribe: does not state how many copies of the action a trigger list received. It states only that every copy went to a stage cell that was pending before the call. In the source, each token whose stage is pending at its turn adds exactly one copy.
- Token identity: `assertNotSame(token2, token)` is modelled as inequality of token values. Two tokens are over different cells.
- The `State` record of `CompletableCancelSource` is not a separate entity. Its token is derived from its future (`CancelSource.Token()`), so `token()` is the same value throughout a generation.
