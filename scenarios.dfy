/**
 * The cases of `CancellationTest`, each replayed on a fresh world. A case
 * returns what the test observes, and its postcondition is what the test
 * asserts about those observations.
 */
module Scenarios {
  import opened Outcomes
  import opened Signals
  import opened Tokens
  import opened Stages
  import opened Cancellation

  /** `testEmptyCancelToken`: never cancelled, not cancellable, its check passes, and awaiting its stage throws. */
  lemma EmptyTokenCase()
    ensures !Canceled(EmptyToken()) && !Cancellable(EmptyToken()) && Check(EmptyToken()) == Pass
    ensures Stage(EmptyToken()) == EmptyStage
    ensures AwaitEmpty(Await) == Fail(IllegalState(EmptyStageMessage))
  {
  }

  /** A fresh world holding two fresh, pending sources and nothing else. */
  method TwoSources() returns (w: World, a: CancelSource, b: CancelSource)
    ensures fresh(w) && fresh(a) && fresh(b) && fresh(a.gen) && fresh(b.gen)
    ensures w.Valid() && a.world == w && b.world == w && a != b && a.gen != b.gen
    ensures w.cells == {a.gen, b.gen} && w.sources == {a, b} && w.DoneSet() == {}
    ensures w.deps == map[a.gen := [], b.gen := []] && w.gens == map[a := a.gen, b := b.gen]
    ensures w.now == 0 && w.timers == []
  {
    w := new World();
    a := new CancelSource(w);
    b := new CancelSource(w);
  }

  /** `testCompletableCancelToken`: a token over a pending future, before and after the future completes. */
  method CompletableTokenCase() returns (cancellable: bool, before: bool, checkBefore: Outcome, after: bool, checkAfter: Outcome)
    ensures cancellable && !before && checkBefore == Pass
    ensures after && checkAfter == Fail(CancellationError(TokenCancelledMessage))
  {
    var w := new World();
    var c := w.NewCell();
    var token := Completable(c);
    cancellable, before, checkBefore := Cancellable(token), Canceled(token), Check(token);
    w.Complete(c);
    after, checkAfter := Canceled(token), Check(token);
  }

  /**
   * `testCompletableCancelSourceCancel`: cancel makes the token and the
   * source cancelled; reset issues a different, pending token, and the
   * token taken before stays cancelled.
   */
  method SourceCancelCase() returns (before: bool, token: bool, source: bool, same: bool, token2: bool, source2: bool, stale: bool)
    ensures !before && token && source
    ensures !same && !token2 && !source2 && stale
  {
    var w := new World();
    var s := new CancelSource(w);
    var t := s.Token();
    before := Canceled(t);
    s.Cancel();
    token, source := Canceled(t), s.Canceled();
    s.Reset();
    var t2 := s.Token();
    same := t2 == t;
    token2, source2 := Canceled(t2), s.Canceled();
    stale := Canceled(t);
  }

  /** `testCompletableCancelSourceCancelAfter`: a 50 ms timeout, the clock at 70 ms. */
  method CancelAfterCase() returns (before: bool, after: bool)
    ensures !before && after
  {
    var w := new World();
    var s := new CancelSource(w);
    s.CancelAfterIn(50, Milliseconds);
    before := s.Canceled();
    ToNanosExact(50, Milliseconds);
    w.Tick(70_000_000);
    DueCellsSpec([Timer(s.gen, 50_000_000)], 70_000_000);
    after := s.Canceled();
  }

  /**
   * `reset()` and then `cancel()`: the new generation is cancelled, while a
   * token taken before the reset keeps its pending status, because no
   * action names the retired future.
   */
  method ResetThenCancelCase() returns (stale: bool, current: bool)
    ensures !stale && current
  {
    var w := new World();
    var s := new CancelSource(w);
    var t := s.Token();
    s.Reset();
    NamelessUnnamed(w.deps, w.gens, t.cell);
    s.Cancel();
    stale, current := Canceled(t), s.Canceled();
  }

  /** `cancelAfter(50)` on a fresh source, then `reset()`: the timer belongs to the first generation. */
  method ArmThenReset() returns (w: World, s: CancelSource, t: CancelToken, c: Cell)
    ensures fresh(w) && fresh(c) && fresh(s.gen) && w.Valid() && s.Valid() && s.world == w
    ensures t == Completable(c) && c != s.gen && w.cells == {c, s.gen}
    ensures w.timers == [Timer(c, 50_000_000)] && w.now == 0 && w.DoneSet() == {}
    ensures w.deps == map[c := [], s.gen := []]
  {
    w := new World();
    s := new CancelSource(w);
    t := s.Token();
    c := s.gen;
    s.CancelAfter(50);
    ToNanosExact(50, Milliseconds);
    s.Reset();
  }

  /** A timeout armed before `reset()` completes the old generation only: the new one stays pending. */
  method StaleTimerCase() returns (stale: bool, current: bool)
    ensures stale && !current
  {
    var w, s, t, c := ArmThenReset();
    ghost var due := w.timers;
    assert Unnamed(s.gen, w.Graph());
    w.Tick(70_000_000);
    DueCellsSpec(due, 70_000_000);
    assert DueCells(due, 70_000_000) == {c};
    PropagatedMisses({}, w.DoneSet(), {c}, w.Graph(), s.gen);
    stale, current := Canceled(t), s.Canceled();
  }

  /** What the combinators over the tokens of two cells answer. */
  lemma TwoLeaves(x: Cell, y: Cell, st: AwaitableStage)
    ensures Canceled(CombinedArray([Completable(x), Completable(y)], st)) == (x.done || y.done)
    ensures Canceled(CombinedIterable([Completable(x), Completable(y)], st)) == (x.done || y.done)
    ensures Cancellable(CombinedArray([Completable(x), Completable(y)], st))
    ensures Cancellable(CombinedIterable([Completable(x), Completable(y)], st))
  {
    var ts := [Completable(x), Completable(y)];
    assert ts[0] == Completable(x) && ts[1] == Completable(y);
  }

  /**
   * `testCombinedArrayCancelToken`: an OR over the tokens of two sources,
   * with a stage that nothing completes; cancelling the first source
   * makes it cancelled and its check throw.
   */
  method ArrayCombinatorCase() returns (before: bool, cancellable: bool, after: bool, check: Outcome)
    ensures !before && cancellable && after && check.Fail? && check.error.CancellationError?
  {
    var w, s1, s2 := TwoSources();
    var f := w.NewCell();
    var combined := CombinedArray([s1.Token(), s2.Token()], Awaiting(f));
    assert s1.gen !in w.DoneSet() && s2.gen !in w.DoneSet();
    TwoLeaves(s1.gen, s2.gen, Awaiting(f));
    before, cancellable := Canceled(combined), Cancellable(combined);
    s1.Cancel();
    TwoLeaves(s1.gen, s2.gen, Awaiting(f));
    after, check := Canceled(combined), Check(combined);
    assert after;
    CheckMatchesCanceled(combined);
  }

  /** `testCombinedCancelToken`: the same over an `Iterable`, cancelling the second source. */
  method IterableCombinatorCase() returns (before: bool, cancellable: bool, after: bool, check: Outcome)
    ensures !before && cancellable && after && check.Fail? && check.error.CancellationError?
  {
    var w, s1, s2 := TwoSources();
    var f := w.NewCell();
    var combined := CombinedIterable([s1.Token(), s2.Token()], Awaiting(f));
    assert s1.gen !in w.DoneSet() && s2.gen !in w.DoneSet();
    TwoLeaves(s1.gen, s2.gen, Awaiting(f));
    before, cancellable := Canceled(combined), Cancellable(combined);
    s2.Cancel();
    TwoLeaves(s1.gen, s2.gen, Awaiting(f));
    after, check := Canceled(combined), Check(combined);
    assert after;
    CheckMatchesCanceled(combined);
  }

  /** `testEmptyAwaitableStage`: awaiting throws; `thenRun` and `thenApply` return the stage and run nothing. */
  lemma EmptyStageCase<A>(run: A, apply: A)
    ensures AwaitEmpty(Await).Fail?
    ensures ContinueEmpty(Continuation(ThenRun, Direct), run) == Continued(EmptyStage, [])
    ensures ContinueEmpty(Continuation(ThenApply, Direct), apply) == Continued(EmptyStage, [])
  {
  }

  /** A fresh world holding three fresh, pending sources and nothing else. */
  method ThreeSources() returns (w: World, a: CancelSource, b: CancelSource, c: CancelSource)
    ensures fresh(w) && fresh(w.cells) && fresh(a.gen) && fresh(b.gen) && fresh(c.gen)
    ensures w.Valid() && a.world == w && b.world == w && c.world == w && c != a && c != b
    ensures w.cells == {a.gen, b.gen, c.gen} && w.sources == {a, b, c} && w.DoneSet() == {}
  {
    w, a, b := TwoSources();
    c := new CancelSource(w);
  }

  /**
   * `combine(target, s1.token(), s2.token())` on a fresh world, after
   * observing that none of the three sources is cancelled: nothing is done
   * yet, and the stage of s1 will cancel target.
   */
  method CombineWired() returns (w: World, s1: CancelSource, target: CancelSource, c1: bool, c2: bool, ct: bool)
    ensures fresh(w) && fresh(w.cells) && w.Valid() && s1.Valid() && target.Valid() && s1.world == w && target.world == w && s1 != target
    ensures w.DoneSet() == {} && Listens(Awaiting(s1.gen), CallCancel(target), w.deps)
    ensures !c1 && !c2 && !ct
  {
    var s2, tokens;
    w, s1, s2, target := ThreeSources();
    c1, c2, ct := s1.Canceled(), s2.Canceled(), target.Canceled();
    ghost var deps0 := w.deps;
    tokens := [s1.Token(), s2.Token()];
    Combine(target, tokens);
    SubscribedQuiet(tokens, CallCancel(target), {}, w.DoneSet(), deps0, w.deps, w.gens, 0);
  }

  /**
   * Three pending sources, `combine(target, s1.token(), s2.token())`, then
   * `s1.cancel()`: the target is pending after `combine` and cancelled after
   * the cancel. With `renew`, `target.reset()` runs in between, and the child
   * cancels the new generation, since the registered action calls `cancel()`
   * on the source rather than completing a fixed future.
   */
  method CombineCase(renew: bool) returns (c1: bool, c2: bool, ct: bool, before: bool, after: bool)
    ensures !c1 && !c2 && !ct && !before && after
  {
    var w, s1, target;
    w, s1, target, c1, c2, ct := CombineWired();
    assert target.gen !in w.DoneSet();
    before := target.Canceled();
    if renew {
      ghost var deps1 := w.deps;
      target.Reset();
      ListensKept(Awaiting(s1.gen), CallCancel(target), deps1, w.deps);
    }
    ghost var D2 := w.DoneSet();
    assert s1.gen !in D2;
    s1.Cancel();
    ListenerFires(Awaiting(s1.gen), CallCancel(target), D2, w.DoneSet(), {s1.gen}, w.deps, w.gens);
    assert target.gen in w.DoneSet();
    after := target.Canceled();
  }

  /** `combined(s3.token(), s4.token())` on a fresh world: nothing is done yet, and the stage of s4 will cancel the new source. */
  method CombinedWired() returns (w: World, s4: CancelSource, combined: CancelSource)
    ensures fresh(w) && fresh(w.cells) && w.Valid() && s4.Valid() && combined.Valid() && s4.world == w && combined.world == w
    ensures w.DoneSet() == {} && Listens(Awaiting(s4.gen), CallCancel(combined), w.deps)
  {
    var s3, tokens;
    w, s3, s4 := TwoSources();
    ghost var deps0 := w.deps;
    tokens := [s3.Token(), s4.Token()];
    combined := Combined(w, tokens);
    SubscribedQuiet(tokens, CallCancel(combined), {}, w.DoneSet(), deps0[combined.gen := []], w.deps, w.gens, 1);
  }

  /** `combined(s3.token(), s4.token())`, then `s4.cancel()`: the new source is cancelled. */
  method CombinedCase() returns (before: bool, after: bool)
    ensures !before && after
  {
    var w, s4, combined := CombinedWired();
    assert combined.gen !in w.DoneSet();
    before := combined.Canceled();
    s4.Cancel();
    ListenerFires(Awaiting(s4.gen), CallCancel(combined), {}, w.DoneSet(), {s4.gen}, w.deps, w.gens);
    assert combined.gen in w.DoneSet();
    after := combined.Canceled();
  }

  /**
   * What the test does with both overloads of `combinedToken`: before any
   * cancellation the token is not cancelled; cancelling one of the two
   * sources cancels it and completes the derived future, and cancelling the
   * other one afterwards leaves that future done.
   */
  method DerivedTokenCase(w: World, a: CancelSource, b: CancelSource, token: CancelToken, hitFirst: bool)
      returns (before: bool, after: bool, derived: bool, later: bool)
    requires w.Valid() && a.Valid() && b.Valid() && a.world == w && b.world == w && w.DoneSet() == {}
    requires token.CombinedArray? || token.CombinedIterable?
    requires token.tokens == [a.Token(), b.Token()] && token.stage.Awaiting?
    requires Listens(Awaiting(a.gen), CompleteCell(token.stage.cell), w.deps)
    requires Listens(Awaiting(b.gen), CompleteCell(token.stage.cell), w.deps)
    modifies w.cells
    ensures !before && after && derived && later
  {
    var c := token.stage.cell;
    var hit, other := if hitFirst then a else b, if hitFirst then b else a;
    TwoLeaves(a.gen, b.gen, token.stage);
    assert a.gen !in w.DoneSet() && b.gen !in w.DoneSet();
    before := Canceled(token);
    hit.Cancel();
    ListenerFires(Awaiting(hit.gen), CompleteCell(c), {}, w.DoneSet(), {hit.gen}, w.deps, w.gens);
    assert c in w.DoneSet();
    TwoLeaves(a.gen, b.gen, token.stage);
    after, derived := Canceled(token), c.done;
    other.Cancel();
    assert c in w.DoneSet();
    later := c.done;
  }

  /** `combinedToken(s5.token(), s6.token())` over an array, then `s6.cancel()`. */
  method CombinedTokenCase() returns (before: bool, after: bool, derived: bool, later: bool)
    ensures !before && after && derived && later
  {
    var w, s5, s6 := TwoSources();
    ghost var deps0 := w.deps;
    var tokens := [s5.Token(), s6.Token()];
    var token := CombinedToken(w, tokens);
    ghost var c := token.stage.cell;
    SubscribedQuiet(tokens, CompleteCell(c), {}, w.DoneSet(), deps0[c := []], w.deps, w.gens, 0);
    SubscribedQuiet(tokens, CompleteCell(c), {}, w.DoneSet(), deps0[c := []], w.deps, w.gens, 1);
    before, after, derived, later := DerivedTokenCase(w, s5, s6, token, false);
  }

  /** `combinedToken(List.of(s7.token(), s8.token()))` over an `Iterable`, then `s7.cancel()`. */
  method CombinedTokenOfCase() returns (before: bool, after: bool, derived: bool, later: bool)
    ensures !before && after && derived && later
  {
    var w, s7, s8 := TwoSources();
    ghost var deps0 := w.deps;
    var tokens := [s7.Token(), s8.Token()];
    var token := CombinedTokenOf(w, tokens);
    ghost var c := token.stage.cell;
    SubscribedQuiet(tokens, CompleteCell(c), {}, w.DoneSet(), deps0[c := []], w.deps, w.gens, 0);
    SubscribedQuiet(tokens, CompleteCell(c), {}, w.DoneSet(), deps0[c := []], w.deps, w.gens, 1);
    before, after, derived, later := DerivedTokenCase(w, s7, s8, token, true);
  }

  /** `combinedToken()` on a fresh world beside one pending source: no trigger leads to the derived future. */
  method NoTokensWired() returns (w: World, s: CancelSource, token: CancelToken)
    ensures fresh(w) && fresh(w.cells) && w.Valid() && s.Valid() && s.world == w && w.DoneSet() == {}
    ensures token.CombinedArray? && token.tokens == [] && token.stage.Awaiting? && token.stage.cell in w.cells
    ensures token.stage.cell != s.gen && Unnamed(token.stage.cell, w.Graph())
  {
    w := new World();
    s := new CancelSource(w);
    token := CombinedToken(w, []);
  }

  /** `combinedToken()` with no tokens: never cancelled, not cancellable, and its future outlives another source's cancellation. */
  method NoTokensCase() returns (canceled: bool, cancellable: bool, derived: bool)
    ensures !canceled && !cancellable && !derived
  {
    var w, s, token := NoTokensWired();
    w.GraphInCells();
    s.Cancel();
    PropagatedMisses({}, w.DoneSet(), {s.gen}, w.Graph(), token.stage.cell);
    canceled, cancellable, derived := Canceled(token), Cancellable(token), token.stage.cell.done;
  }

  /** `combine(target, emptyToken())` on a fresh world beside another source: no trigger leads to target. */
  method CombineEmptyWired() returns (w: World, target: CancelSource, other: CancelSource)
    ensures fresh(w) && fresh(w.cells) && w.Valid() && target.Valid() && other.Valid()
    ensures target.world == w && other.world == w && target.gen != other.gen
    ensures w.DoneSet() == {} && Unnamed(target.gen, w.Graph())
  {
    w, target, other := TwoSources();
    ghost var deps0 := w.deps;
    Combine(target, [EmptyToken()]);
    assert StageCells([EmptyToken()]) == {};
    ExtendedNothing(deps0, w.deps, CallCancel(target));
  }

  /** An empty token among the children of `combine` registers nothing: cancelling another source leaves the target alone. */
  method CombineEmptyCase() returns (before: bool, after: bool)
    ensures !before && !after
  {
    var w, target, other := CombineEmptyWired();
    assert target.gen !in w.DoneSet();
    before := target.Canceled();
    w.GraphInCells();
    other.Cancel();
    PropagatedMisses({}, w.DoneSet(), {other.gen}, w.Graph(), target.gen);
    after := target.Canceled();
  }
}
