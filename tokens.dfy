/**
 * The queries of every `CancelToken` implementation: `canceled()`,
 * `cancellable()`, `checkCanceled()` and `onCancelled()`. They only read:
 * `canceled` and `checkCanceled` read the done flags of the cells a token is
 * built over, the other two read nothing at all.
 */
module Tokens {
  import opened Outcomes
  import opened Signals

  /** The cells whose done flags the queries of tok read: the cells of its completable leaves. */
  function Cells(tok: CancelToken): set<Cell>
    decreases tok, 1
  {
    match tok
    case Completable(c) => {c}
    case Empty => {}
    case CombinedIterable(ts, _) => CellsAll(ts)
    case CombinedArray(ts, _) => CellsAll(ts)
    case CombinedPair(a, b, _) => Cells(a) + Cells(b)
  }

  function CellsAll(ts: seq<CancelToken>): set<Cell>
    decreases ts, 0
  {
    if ts == [] then {} else Cells(ts[0]) + CellsAll(ts[1..])
  }

  /** `canceled()`. A combinator's loop returns at the first cancelled child. Only a cancellable token is ever cancelled. */
  function Canceled(tok: CancelToken): (r: bool)
    reads Cells(tok)
    decreases tok, 1
    ensures r ==> Cancellable(tok)
  {
    match tok
    case Completable(c) => c.done
    case Empty => false
    case CombinedIterable(ts, _) => AnyCanceled(ts)
    case CombinedArray(ts, _) => AnyCanceled(ts)
    case CombinedPair(a, b, _) => Canceled(a) || Canceled(b)
  }

  function AnyCanceled(ts: seq<CancelToken>): (r: bool)
    reads CellsAll(ts)
    decreases ts, 0
    ensures r <==> exists i :: 0 <= i < |ts| && Canceled(ts[i])
    ensures r ==> AnyCancellable(ts)
  {
    if ts == [] then false
    else if Canceled(ts[0]) then true
    else
      var rest := AnyCanceled(ts[1..]);
      assert forall i :: 1 <= i < |ts| ==> ts[i] == ts[1..][i - 1];
      rest
  }

  /** `cancellable()`: true exactly when the token is built over at least one completable leaf. */
  function Cancellable(tok: CancelToken): (r: bool)
    decreases tok, 1
    ensures r <==> Cells(tok) != {}
  {
    match tok
    case Completable(_) => true
    case Empty => false
    case CombinedIterable(ts, _) => AnyCancellable(ts)
    case CombinedArray(ts, _) => AnyCancellable(ts)
    case CombinedPair(a, b, _) => Cancellable(a) || Cancellable(b)
  }

  function AnyCancellable(ts: seq<CancelToken>): (r: bool)
    decreases ts, 0
    ensures r <==> exists i :: 0 <= i < |ts| && Cancellable(ts[i])
    ensures r <==> CellsAll(ts) != {}
  {
    if ts == [] then false
    else if Cancellable(ts[0]) then true
    else
      var rest := AnyCancellable(ts[1..]);
      assert forall i :: 1 <= i < |ts| ==> ts[i] == ts[1..][i - 1];
      rest
  }

  /**
   * `checkCanceled()`: a completable token throws a `CancellationException`
   * once its cell is done; a combinator runs its children's checks in order
   * and the first exception escapes.
   */
  function Check(tok: CancelToken): (r: Outcome)
    reads Cells(tok)
    decreases tok, 1
    ensures r == Pass || r == Fail(CancellationError(TokenCancelledMessage))
  {
    match tok
    case Completable(c) => if c.done then Fail(CancellationError(TokenCancelledMessage)) else Pass
    case Empty => Pass
    case CombinedIterable(ts, _) => CheckAll(ts)
    case CombinedArray(ts, _) => CheckAll(ts)
    case CombinedPair(a, b, _) => if Check(a).Fail? then Check(a) else Check(b)
  }

  /** The checks of ts, left to right, stopping at the first failure. */
  function CheckAll(ts: seq<CancelToken>): (r: Outcome)
    reads CellsAll(ts)
    decreases ts, 0
    ensures r.Pass? <==> forall i :: 0 <= i < |ts| ==> Check(ts[i]).Pass?
    ensures r.Fail? ==> exists i :: 0 <= i < |ts| && Check(ts[i]) == r && forall j :: 0 <= j < i ==> Check(ts[j]).Pass?
    ensures r == Pass || r == Fail(CancellationError(TokenCancelledMessage))
  {
    if ts == [] then Pass
    else if Check(ts[0]).Fail? then Check(ts[0])
    else
      var rest := CheckAll(ts[1..]);
      assert forall i :: 1 <= i < |ts| ==> ts[i] == ts[1..][i - 1];
      rest
  }

  /** `onCancelled()`: the stage of a completable token is over its cell; a combinator returns the stage it was built with. */
  function Stage(tok: CancelToken): (r: AwaitableStage)
    ensures tok.Completable? ==> r == Awaiting(tok.cell)
    ensures tok.Empty? ==> r == EmptyStage
    ensures !tok.Completable? && !tok.Empty? ==> r == tok.stage
  {
    match tok
    case Completable(c) => Awaiting(c)
    case Empty => EmptyStage
    case CombinedIterable(_, st) => st
    case CombinedArray(_, st) => st
    case CombinedPair(_, _, st) => st
  }

  // ---------------------------------------------------------------------------
  // Properties of the queries
  // ---------------------------------------------------------------------------

  /** A token is cancelled exactly when one of the cells of its completable leaves is done. */
  lemma {:induction false} CanceledIffLeafDone(tok: CancelToken)
    decreases tok, 1
    ensures Canceled(tok) <==> exists c :: c in Cells(tok) && c.done
  {
    match tok
    case Completable(c) =>
    case Empty =>
    case CombinedIterable(ts, _) => AnyCanceledIffLeafDone(ts);
    case CombinedArray(ts, _) => AnyCanceledIffLeafDone(ts);
    case CombinedPair(a, b, _) =>
      CanceledIffLeafDone(a);
      CanceledIffLeafDone(b);
  }

  lemma {:induction false} AnyCanceledIffLeafDone(ts: seq<CancelToken>)
    decreases ts, 0
    ensures AnyCanceled(ts) <==> exists c :: c in CellsAll(ts) && c.done
  {
    if ts != [] {
      CanceledIffLeafDone(ts[0]);
      AnyCanceledIffLeafDone(ts[1..]);
      assert AnyCanceled(ts) == (Canceled(ts[0]) || AnyCanceled(ts[1..]));
    }
  }

  /**
   * `checkCanceled()` throws exactly when `canceled()` is true, and what it
   * throws is always the completable token's "Token is cancelled".
   */
  lemma {:induction false} CheckMatchesCanceled(tok: CancelToken)
    decreases tok, 1
    ensures Check(tok).Fail? <==> Canceled(tok)
    ensures Check(tok).Fail? ==> Check(tok).error == CancellationError(TokenCancelledMessage)
  {
    match tok
    case Completable(c) =>
    case Empty =>
    case CombinedIterable(ts, _) => CheckAllMatchesAnyCanceled(ts);
    case CombinedArray(ts, _) => CheckAllMatchesAnyCanceled(ts);
    case CombinedPair(a, b, _) =>
      CheckMatchesCanceled(a);
      CheckMatchesCanceled(b);
  }

  lemma {:induction false} CheckAllMatchesAnyCanceled(ts: seq<CancelToken>)
    decreases ts, 0
    ensures CheckAll(ts).Fail? <==> AnyCanceled(ts)
    ensures CheckAll(ts).Fail? ==> CheckAll(ts).error == CancellationError(TokenCancelledMessage)
  {
    if ts != [] {
      CheckMatchesCanceled(ts[0]);
      CheckAllMatchesAnyCanceled(ts[1..]);
      assert AnyCanceled(ts) == (Canceled(ts[0]) || AnyCanceled(ts[1..]));
    }
  }

  /** A token that is not cancellable is never cancelled, so its check never throws. */
  lemma {:induction false} NotCancellableNeverCanceled(tok: CancelToken)
    decreases tok, 1
    ensures !Cancellable(tok) ==> !Canceled(tok) && Check(tok) == Pass
  {
    match tok
    case Completable(c) =>
    case Empty =>
    case CombinedIterable(ts, _) => NoneCancellableNoneCanceled(ts);
    case CombinedArray(ts, _) => NoneCancellableNoneCanceled(ts);
    case CombinedPair(a, b, _) =>
      NotCancellableNeverCanceled(a);
      NotCancellableNeverCanceled(b);
  }

  lemma {:induction false} NoneCancellableNoneCanceled(ts: seq<CancelToken>)
    decreases ts, 0
    ensures !AnyCancellable(ts) ==> !AnyCanceled(ts) && CheckAll(ts) == Pass
  {
    if ts != [] {
      NotCancellableNeverCanceled(ts[0]);
      NoneCancellableNoneCanceled(ts[1..]);
      assert AnyCancellable(ts) == (Cancellable(ts[0]) || AnyCancellable(ts[1..]));
    }
  }

  /** The empty token, anywhere among a combinator's children, changes none of its answers. */
  lemma {:induction false} EmptyNeutral(ts: seq<CancelToken>, us: seq<CancelToken>)
    ensures AnyCanceled(ts + [Empty] + us) == AnyCanceled(ts + us)
    ensures AnyCancellable(ts + [Empty] + us) == AnyCancellable(ts + us)
    ensures CheckAll(ts + [Empty] + us) == CheckAll(ts + us)
  {
    if ts == [] {
      assert ts + [Empty] + us == [Empty] + us;
      assert ([Empty] + us)[1..] == us;
      assert ts + us == us;
    } else {
      EmptyNeutral(ts[1..], us);
      assert (ts + [Empty] + us)[0] == ts[0] && (ts + [Empty] + us)[1..] == ts[1..] + [Empty] + us;
      assert (ts + us)[0] == ts[0] && (ts + us)[1..] == ts[1..] + us;
    }
  }

  /** The pair combinator answers exactly as the array combinator over `[first, second]`. */
  lemma PairAsArray(a: CancelToken, b: CancelToken, st: AwaitableStage, st2: AwaitableStage)
    ensures Canceled(CombinedPair(a, b, st)) == Canceled(CombinedArray([a, b], st2))
    ensures Cancellable(CombinedPair(a, b, st)) == Cancellable(CombinedArray([a, b], st2))
    ensures Check(CombinedPair(a, b, st)) == Check(CombinedArray([a, b], st2))
  {
    assert [a, b][0] == a && [a, b][1..] == [b] && [b][0] == b && [b][1..] == [];
    assert AnyCanceled([a, b]) == (Canceled(a) || Canceled(b));
    assert AnyCancellable([a, b]) == (Cancellable(a) || Cancellable(b));
    assert CheckAll([a, b]) == if Check(a).Fail? then Check(a) else Check(b);
  }

  /** The iterable combinator answers as the array combinator over the same children. */
  lemma IterableAsArray(ts: seq<CancelToken>, st: AwaitableStage, st2: AwaitableStage)
    ensures Canceled(CombinedIterable(ts, st)) == Canceled(CombinedArray(ts, st2))
    ensures Cancellable(CombinedIterable(ts, st)) == Cancellable(CombinedArray(ts, st2))
    ensures Check(CombinedIterable(ts, st)) == Check(CombinedArray(ts, st2))
    ensures Stage(CombinedIterable(ts, st)) == st && Stage(CombinedArray(ts, st2)) == st2
  {
  }

  /**
   * Cancellation is monotone: a token cancelled before stays cancelled as
   * long as no done cell becomes pending again, which no operation does.
   */
  twostate lemma CanceledStaysTrue(tok: CancelToken)
    requires old(Canceled(tok))
    requires forall c :: c in Cells(tok) && old(allocated(c)) ==> (old(c.done) ==> c.done)
    ensures Canceled(tok)
  {
    var k := old(CanceledWitness(tok));
    assert k in Cells(tok) && k.done;
    CanceledIffLeafDone(tok);
  }

  /** A leaf done cell of a cancelled token. */
  ghost function CanceledWitness(tok: CancelToken): (c: Cell)
    reads Cells(tok)
    requires Canceled(tok)
    ensures c in Cells(tok) && c.done
  {
    CanceledIffLeafDone(tok);
    var c :| c in Cells(tok) && c.done;
    c
  }

  /** The token of a source always agrees with the source: both read the current generation. */
  lemma SourceTokenAgrees(s: CancelSource)
    ensures Canceled(s.Token()) == s.Canceled()
    ensures Cancellable(s.Token()) && Stage(s.Token()) == Awaiting(s.gen)
    ensures Check(s.Token()).Fail? <==> s.Canceled()
  {
  }
}
