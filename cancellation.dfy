/**
 * The static helpers of `Cancellation`: the factories `source()` and
 * `emptyToken()`, and the wiring loops `combine`, `combined` and
 * `combinedToken`, each of which registers one `thenRun` action on the
 * stage of every given token.
 */
module Cancellation {
  import opened Signals
  import opened Tokens

  /** The cells that the stages of tokens await. */
  ghost function StageCells(tokens: seq<CancelToken>): set<Cell>
  {
    set i | 0 <= i < |tokens| && Stage(tokens[i]).Awaiting? :: Stage(tokens[i]).cell
  }

  /** Whether one of the stages of tokens awaits a cell of D. */
  ghost predicate AnyStageDone(tokens: seq<CancelToken>, D: set<Cell>)
  {
    exists i :: 0 <= i < |tokens| && Stage(tokens[i]).Awaiting? && Stage(tokens[i]).cell in D
  }

  /** The stage awaits a cell whose pending actions include t. */
  ghost predicate Listens(st: AwaitableStage, t: Trigger, deps: map<Cell, seq<Trigger>>)
  {
    st.Awaiting? && st.cell in deps && t in deps[st.cell]
  }

  /** ys is xs followed by some copies of t. */
  ghost predicate Appended(xs: seq<Trigger>, ys: seq<Trigger>, t: Trigger)
  {
    xs <= ys && forall j :: |xs| <= j < |ys| ==> ys[j] == t
  }

  /** deps is deps0 with copies of t appended to cells of `cells` only. */
  ghost predicate Extended(deps0: map<Cell, seq<Trigger>>, deps: map<Cell, seq<Trigger>>, t: Trigger, cells: set<Cell>)
  {
    && deps.Keys == deps0.Keys
    && (forall x :: x in deps0 ==> Appended(deps0[x], deps[x], t))
    && (forall x :: x in deps0 && x !in cells ==> deps[x] == deps0[x])
  }

  /** Every stage of tokens that awaits a pending cell will run t. */
  ghost predicate PendingListen(tokens: seq<CancelToken>, t: Trigger, D: set<Cell>, deps: map<Cell, seq<Trigger>>)
  {
    forall i :: 0 <= i < |tokens| && Stage(tokens[i]).Awaiting? && Stage(tokens[i]).cell !in D ==>
      Listens(Stage(tokens[i]), t, deps)
  }

  /** If a stage of tokens awaits a done cell, what t completes is done. */
  ghost predicate DoneFired(tokens: seq<CancelToken>, t: Trigger, D: set<Cell>, gens: map<CancelSource, Cell>)
  {
    forall i :: 0 <= i < |tokens| && Stage(tokens[i]).Awaiting? && Stage(tokens[i]).cell in D ==>
      Resolve(t, gens) <= D
  }

  /**
   * What registering t on the stage of each of tokens, in order, did to a
   * world whose done set was D0 and whose triggers were deps0, leaving D and
   * deps: copies of t were appended only to cells those stages await that
   * were pending before, never to cells done before, and no other trigger
   * list changed; every such stage that is still pending will run t; if one is
   * done, t has run; if none was done before, nothing ran at all; and what
   * ran is exactly the completion of what t names, or nothing.
   */
  ghost predicate Subscribed(tokens: seq<CancelToken>, t: Trigger, D0: set<Cell>, D: set<Cell>,
                             deps0: map<Cell, seq<Trigger>>, deps: map<Cell, seq<Trigger>>, gens: map<CancelSource, Cell>)
  {
    && Extended(deps0, deps, t, StageCells(tokens) - D0)
    && PendingListen(tokens, t, D, deps)
    && DoneFired(tokens, t, D, gens)
    && (AnyStageDone(tokens, D0) || D == D0)
    && Propagated(D0, D, if AnyStageDone(tokens, D) then Resolve(t, gens) else {}, GraphOf(deps, gens))
  }

  /** The stages of tokens await cells of the world. */
  ghost predicate StagesIn(tokens: seq<CancelToken>, cells: set<Cell>)
  {
    forall i :: 0 <= i < |tokens| && Stage(tokens[i]).Awaiting? ==> Stage(tokens[i]).cell in cells
  }

  lemma SubscribedNone(t: Trigger, D: set<Cell>, deps: map<Cell, seq<Trigger>>, gens: map<CancelSource, Cell>)
    requires D <= deps.Keys
    ensures Subscribed([], t, D, D, deps, deps, gens)
  {
    PropagatedNothing(D, GraphOf(deps, gens));
  }

  /** Adding edges out of cells that are still pending keeps a completion what it was. */
  lemma PropagatedGrow(D0: set<Cell>, D: set<Cell>, seeds: set<Cell>, G: map<Cell, set<Cell>>, G': map<Cell, set<Cell>>)
    requires Propagated(D0, D, seeds, G)
    requires G'.Keys == G.Keys
    requires forall x :: x in G ==> G[x] <= G'[x]
    requires forall x :: x in D ==> G'[x] == G[x]
    ensures Propagated(D0, D, seeds, G')
  {
    forall X | X <= G'.Keys && Bounds(X, D0, seeds, G')
      ensures D - D0 <= X
    {
      assert Bounds(X, D0, seeds, G);
    }
  }

  lemma {:induction false} TargetsHas(ts: seq<Trigger>, t: Trigger, gens: map<CancelSource, Cell>)
    requires t in ts
    ensures Resolve(t, gens) <= Targets(ts, gens)
  {
    if ts[0] != t {
      TargetsHas(ts[1..], t, gens);
    }
  }

  /** Appending t to the triggers of c adds what t completes to the edges out of c. */
  lemma GraphAppend(deps: map<Cell, seq<Trigger>>, gens: map<CancelSource, Cell>, c: Cell, t: Trigger)
    requires c in deps
    ensures GraphOf(deps[c := deps[c] + [t]], gens) == GraphOf(deps, gens)[c := GraphOf(deps, gens)[c] + Resolve(t, gens)]
  {
    var deps2 := deps[c := deps[c] + [t]];
    var G, G2 := GraphOf(deps, gens), GraphOf(deps2, gens);
    var H := G[c := G[c] + Resolve(t, gens)];
    assert G2.Keys == H.Keys;
    forall x | x in G2
      ensures G2[x] == H[x]
    {
      if x == c {
        TargetsAppend(deps[c], [t], gens);
        assert [t][0] == t && [t][1..] == [];
      }
    }
  }

  /** How the stage-derived sets grow by one token. */
  lemma StagesSnoc(tokens: seq<CancelToken>, k: nat, D: set<Cell>, D': set<Cell>)
    requires k < |tokens|
    ensures StageCells(tokens[..k + 1]) ==
      StageCells(tokens[..k]) + (if Stage(tokens[k]).Awaiting? then {Stage(tokens[k]).cell} else {})
    ensures AnyStageDone(tokens[..k + 1], D) <==>
      AnyStageDone(tokens[..k], D) || (Stage(tokens[k]).Awaiting? && Stage(tokens[k]).cell in D)
    ensures AnyStageDone(tokens[..k + 1], D') <==>
      AnyStageDone(tokens[..k], D') || (Stage(tokens[k]).Awaiting? && Stage(tokens[k]).cell in D')
  {
    var before, after := tokens[..k], tokens[..k + 1];
    assert forall i :: 0 <= i < k ==> after[i] == before[i];
    assert after[k] == tokens[k];
    if AnyStageDone(after, D) && !(Stage(tokens[k]).Awaiting? && Stage(tokens[k]).cell in D) {
      var i :| 0 <= i < |after| && Stage(after[i]).Awaiting? && Stage(after[i]).cell in D;
      assert i < k;
    }
    if AnyStageDone(after, D') && !(Stage(tokens[k]).Awaiting? && Stage(tokens[k]).cell in D') {
      var i :| 0 <= i < |after| && Stage(after[i]).Awaiting? && Stage(after[i]).cell in D';
      assert i < k;
    }
  }

  lemma ExtendedPending(deps0: map<Cell, seq<Trigger>>, deps1: map<Cell, seq<Trigger>>, t: Trigger, cells: set<Cell>, c: Cell)
    requires Extended(deps0, deps1, t, cells) && c in deps1
    ensures Extended(deps0, deps1[c := deps1[c] + [t]], t, cells + {c})
  {
    forall x | x in deps0
      ensures Appended(deps0[x], deps1[c := deps1[c] + [t]][x], t)
    {
      assert Appended(deps0[x], deps1[x], t);
    }
  }

  lemma ListenPending(tokens: seq<CancelToken>, k: nat, t: Trigger, D: set<Cell>, deps1: map<Cell, seq<Trigger>>)
    requires k < |tokens| && Stage(tokens[k]).Awaiting? && Stage(tokens[k]).cell in deps1
    requires PendingListen(tokens[..k], t, D, deps1)
    ensures PendingListen(tokens[..k + 1], t, D, deps1[Stage(tokens[k]).cell := deps1[Stage(tokens[k]).cell] + [t]])
  {
    var c := Stage(tokens[k]).cell;
    var deps2 := deps1[c := deps1[c] + [t]];
    var before, after := tokens[..k], tokens[..k + 1];
    forall i | 0 <= i < |after| && Stage(after[i]).Awaiting? && Stage(after[i]).cell !in D
      ensures Listens(Stage(after[i]), t, deps2)
    {
      if i < k {
        assert after[i] == before[i];
        assert Listens(Stage(before[i]), t, deps1);
      } else {
        assert after[i] == tokens[k];
      }
    }
  }

  lemma FiredSnoc(tokens: seq<CancelToken>, k: nat, t: Trigger, D: set<Cell>, gens: map<CancelSource, Cell>)
    requires k < |tokens| && (Stage(tokens[k]).Awaiting? ==> Stage(tokens[k]).cell !in D)
    requires DoneFired(tokens[..k], t, D, gens)
    ensures DoneFired(tokens[..k + 1], t, D, gens)
  {
    var before, after := tokens[..k], tokens[..k + 1];
    forall i | 0 <= i < |after| && Stage(after[i]).Awaiting? && Stage(after[i]).cell in D
      ensures Resolve(t, gens) <= D
    {
      assert i < k && after[i] == before[i];
    }
  }

  /** Registering t on a stage that is pending. */
  lemma SubscribePending(tokens: seq<CancelToken>, k: nat, t: Trigger, D0: set<Cell>, D: set<Cell>,
                         deps0: map<Cell, seq<Trigger>>, deps1: map<Cell, seq<Trigger>>, gens: map<CancelSource, Cell>)
    requires k < |tokens| && Stage(tokens[k]).Awaiting?
    requires Stage(tokens[k]).cell in deps1 && Stage(tokens[k]).cell !in D && D0 <= D
    requires Subscribed(tokens[..k], t, D0, D, deps0, deps1, gens)
    ensures Subscribed(tokens[..k + 1], t, D0, D, deps0,
                       deps1[Stage(tokens[k]).cell := deps1[Stage(tokens[k]).cell] + [t]], gens)
  {
    var c := Stage(tokens[k]).cell;
    StagesSnoc(tokens, k, D, D0);
    ExtendedPending(deps0, deps1, t, StageCells(tokens[..k]) - D0, c);
    assert (StageCells(tokens[..k]) - D0) + {c} == StageCells(tokens[..k + 1]) - D0;
    ListenPending(tokens, k, t, D, deps1);
    FiredSnoc(tokens, k, t, D, gens);
    GraphAppend(deps1, gens, c, t);
    PropagatedGrow(D0, D, if AnyStageDone(tokens[..k], D) then Resolve(t, gens) else {},
                   GraphOf(deps1, gens), GraphOf(deps1[c := deps1[c] + [t]], gens));
  }

  lemma ListenSnoc(tokens: seq<CancelToken>, k: nat, t: Trigger, D1: set<Cell>, D2: set<Cell>, deps: map<Cell, seq<Trigger>>)
    requires k < |tokens| && (Stage(tokens[k]).Awaiting? ==> Stage(tokens[k]).cell in D1) && D1 <= D2
    requires PendingListen(tokens[..k], t, D1, deps)
    ensures PendingListen(tokens[..k + 1], t, D2, deps)
  {
    var before, after := tokens[..k], tokens[..k + 1];
    forall i | 0 <= i < |after| && Stage(after[i]).Awaiting? && Stage(after[i]).cell !in D2
      ensures Listens(Stage(after[i]), t, deps)
    {
      assert i < k && after[i] == before[i];
    }
  }

  lemma FiredDone(tokens: seq<CancelToken>, k: nat, t: Trigger, D2: set<Cell>, gens: map<CancelSource, Cell>)
    requires k < |tokens| && Resolve(t, gens) <= D2
    ensures DoneFired(tokens[..k + 1], t, D2, gens)
  {
  }

  /** Registering t on a stage that is done: t runs at once. */
  lemma SubscribeDone(tokens: seq<CancelToken>, k: nat, t: Trigger, D0: set<Cell>, D1: set<Cell>, D2: set<Cell>,
                      deps0: map<Cell, seq<Trigger>>, deps: map<Cell, seq<Trigger>>, gens: map<CancelSource, Cell>)
    requires k < |tokens| && Stage(tokens[k]).Awaiting? && Stage(tokens[k]).cell in D1
    requires Subscribed(tokens[..k], t, D0, D1, deps0, deps, gens)
    requires D1 <= D2 && Propagated(D1, D2, Resolve(t, gens), GraphOf(deps, gens))
    ensures Subscribed(tokens[..k + 1], t, D0, D2, deps0, deps, gens)
  {
    StagesSnoc(tokens, k, D2, D0);
    StagesSnoc(tokens, k, D1, D1);
    ListenSnoc(tokens, k, t, D1, D2, deps);
    FiredDone(tokens, k, t, D2, gens);
    var S := if AnyStageDone(tokens[..k], D1) then Resolve(t, gens) else {};
    PropagatedCompose(D0, D1, D2, S, Resolve(t, gens), GraphOf(deps, gens));
    assert S + Resolve(t, gens) == Resolve(t, gens);
  }

  /** Registering t on the empty stage: the action is dropped. */
  lemma SubscribeEmpty(tokens: seq<CancelToken>, k: nat, t: Trigger, D0: set<Cell>, D: set<Cell>,
                       deps0: map<Cell, seq<Trigger>>, deps: map<Cell, seq<Trigger>>, gens: map<CancelSource, Cell>)
    requires k < |tokens| && Stage(tokens[k]).EmptyStage?
    requires Subscribed(tokens[..k], t, D0, D, deps0, deps, gens)
    ensures Subscribed(tokens[..k + 1], t, D0, D, deps0, deps, gens)
  {
    StagesSnoc(tokens, k, D, D0);
    ListenSnoc(tokens, k, t, D, D, deps);
    FiredSnoc(tokens, k, t, D, gens);
  }

  /** One turn of the loop of `Subscribe`, whatever the stage of the token is. */
  lemma SubscribeStep(tokens: seq<CancelToken>, k: nat, t: Trigger, D0: set<Cell>, D1: set<Cell>, D2: set<Cell>,
                      deps0: map<Cell, seq<Trigger>>, deps1: map<Cell, seq<Trigger>>, deps2: map<Cell, seq<Trigger>>,
                      gens: map<CancelSource, Cell>)
    requires k < |tokens| && D1 <= D2
    requires Subscribed(tokens[..k], t, D0, D1, deps0, deps1, gens)
    requires Stage(tokens[k]).Awaiting? ==> Stage(tokens[k]).cell in deps1
    requires Stage(tokens[k]).EmptyStage? ==> D2 == D1 && deps2 == deps1
    requires Stage(tokens[k]).Awaiting? && Stage(tokens[k]).cell !in D1 ==>
      D2 == D1 && deps2 == deps1[Stage(tokens[k]).cell := deps1[Stage(tokens[k]).cell] + [t]]
    requires Stage(tokens[k]).Awaiting? && Stage(tokens[k]).cell in D1 ==>
      deps2 == deps1 && Propagated(D1, D2, Resolve(t, gens), GraphOf(deps2, gens))
    ensures Subscribed(tokens[..k + 1], t, D0, D2, deps0, deps2, gens)
  {
    var st := Stage(tokens[k]);
    if st.EmptyStage? {
      SubscribeEmpty(tokens, k, t, D0, D1, deps0, deps1, gens);
    } else if st.cell in D1 {
      SubscribeDone(tokens, k, t, D0, D1, D2, deps0, deps1, gens);
    } else {
      SubscribePending(tokens, k, t, D0, D1, deps0, deps1, gens);
    }
  }

  /**
   * The loop of `combine` and `combinedToken`: `token.onCancelled().thenRun(t)`
   * for every token, in order.
   */
  method Subscribe(w: World, tokens: seq<CancelToken>, t: Trigger)
    requires w.Valid() && Registered(t, w.cells, w.sources) && StagesIn(tokens, w.cells)
    modifies w, w.cells
    ensures w.Valid() && w.cells == old(w.cells) && w.sources == old(w.sources) && w.gens == old(w.gens)
    ensures w.now == old(w.now) && w.timers == old(w.timers)
    ensures Subscribed(tokens, t, old(w.DoneSet()), w.DoneSet(), old(w.deps), w.deps, w.gens)
  {
    ghost var D0, deps0 := w.DoneSet(), w.deps;
    w.GraphInCells();
    SubscribedNone(t, D0, deps0, w.gens);
    assert tokens[..0] == [];
    ghost var D, deps := D0, deps0;
    var k := 0;
    while k < |tokens|
      invariant k <= |tokens|
      invariant w.Valid() && w.cells == old(w.cells) && w.sources == old(w.sources) && w.gens == old(w.gens)
      invariant w.now == old(w.now) && w.timers == old(w.timers)
      invariant D == w.DoneSet() && deps == w.deps
      invariant Subscribed(tokens[..k], t, D0, D, deps0, deps, w.gens)
    {
      D, deps := SubscribeOne(w, tokens, k, t, D0, deps0, D, deps);
      k := k + 1;
    }
    assert tokens[..|tokens|] == tokens;
    assert Subscribed(tokens, t, D0, D, deps0, deps, w.gens);
    assert D0 == old(w.DoneSet()) && deps0 == old(w.deps);
  }

  /** One turn of the loop of `Subscribe`: `tokens[k].onCancelled().thenRun(t)`. */
  method SubscribeOne(w: World, tokens: seq<CancelToken>, k: nat, t: Trigger, ghost D0: set<Cell>, ghost deps0: map<Cell, seq<Trigger>>,
                      ghost D1: set<Cell>, ghost deps1: map<Cell, seq<Trigger>>)
    returns (ghost D2: set<Cell>, ghost deps2: map<Cell, seq<Trigger>>)
    requires w.Valid() && Registered(t, w.cells, w.sources) && StagesIn(tokens, w.cells) && k < |tokens|
    requires D1 == w.DoneSet() && deps1 == w.deps && Subscribed(tokens[..k], t, D0, D1, deps0, deps1, w.gens)
    modifies w, w.cells
    ensures w.Valid() && w.cells == old(w.cells) && w.sources == old(w.sources) && w.gens == old(w.gens)
    ensures w.now == old(w.now) && w.timers == old(w.timers)
    ensures D2 == w.DoneSet() && deps2 == w.deps && Subscribed(tokens[..k + 1], t, D0, D2, deps0, deps2, w.gens)
  {
    w.ThenRun(Stage(tokens[k]), t);
    D2, deps2 := w.DoneSet(), w.deps;
    SubscribeStep(tokens, k, t, D0, D1, D2, deps0, deps1, deps2, w.gens);
  }

  /** While no stage is done, subscribing runs nothing, and each stage will run t. */
  lemma SubscribedQuiet(tokens: seq<CancelToken>, t: Trigger, D0: set<Cell>, D: set<Cell>,
                        deps0: map<Cell, seq<Trigger>>, deps: map<Cell, seq<Trigger>>, gens: map<CancelSource, Cell>, i: nat)
    requires Subscribed(tokens, t, D0, D, deps0, deps, gens) && !AnyStageDone(tokens, D0)
    requires i < |tokens| && Stage(tokens[i]).Awaiting?
    ensures D == D0 && Listens(Stage(tokens[i]), t, deps)
  {
    assert Stage(tokens[i]).cell !in D;
  }

  /**
   * A stage wired to t keeps its promise: if its cell, pending before, is
   * done after a completion, then what t names now is done as well.
   */
  lemma ListenerFires(st: AwaitableStage, t: Trigger, D0: set<Cell>, D: set<Cell>, seeds: set<Cell>,
                      deps: map<Cell, seq<Trigger>>, gens: map<CancelSource, Cell>)
    requires Propagated(D0, D, seeds, GraphOf(deps, gens))
    requires Listens(st, t, deps) && st.cell !in D0 && st.cell in D
    ensures Resolve(t, gens) <= D
  {
    TargetsHas(deps[st.cell], t, gens);
    assert st.cell in D - D0;
  }

  /** Appending triggers and adding fresh cells keep every wiring. */
  lemma ListensKept(st: AwaitableStage, t: Trigger, deps: map<Cell, seq<Trigger>>, deps': map<Cell, seq<Trigger>>)
    requires Listens(st, t, deps)
    requires forall x :: x in deps ==> x in deps' && deps[x] <= deps'[x]
    ensures Listens(st, t, deps')
  {
    var xs, ys := deps[st.cell], deps'[st.cell];
    var j :| 0 <= j < |xs| && xs[j] == t;
    assert ys[j] == t;
  }

  /** `source()`: a fresh source over a fresh pending generation. */
  method NewSource(w: World) returns (s: CancelSource)
    requires w.Valid()
    modifies w
    ensures s.Valid() && fresh(s) && s.world == w && fresh(s.gen) && !s.Canceled()
    ensures w.cells == old(w.cells) + {s.gen} && w.sources == old(w.sources) + {s} && w.DoneSet() == old(w.DoneSet())
    ensures w.deps == old(w.deps)[s.gen := []] && w.gens == old(w.gens)[s := s.gen]
    ensures w.now == old(w.now) && w.timers == old(w.timers)
  {
    s := new CancelSource(w);
  }

  /** `emptyToken()`: the empty token, which reads no cell, cannot be cancelled and has the empty stage. */
  function EmptyToken(): (r: CancelToken)
    ensures Cells(r) == {} && !Cancellable(r) && Stage(r) == EmptyStage && Check(r).Pass?
  {
    Empty
  }

  /**
   * `combine(source, tokens...)`, for an array and an `Iterable` alike: every
   * token's stage is to call `source.cancel()`. The source is cancelled
   * afterwards exactly when it was before or one of the stages was done.
   */
  method Combine(s: CancelSource, tokens: seq<CancelToken>)
    requires s.Valid() && StagesIn(tokens, s.world.cells)
    modifies s.world, s.world.cells
    ensures s.Valid()
    ensures s.world.cells == old(s.world.cells) && s.world.sources == old(s.world.sources)
    ensures s.world.gens == old(s.world.gens) && s.world.now == old(s.world.now) && s.world.timers == old(s.world.timers)
    ensures Subscribed(tokens, CallCancel(s), old(s.world.DoneSet()), s.world.DoneSet(), old(s.world.deps), s.world.deps, s.world.gens)
    ensures s.Canceled() <==> old(s.Canceled()) || AnyStageDone(tokens, old(s.world.DoneSet()))
  {
    var w := s.world;
    ghost var D0 := w.DoneSet();
    assert s.gen in w.cells && (s.gen.done <==> s.gen in D0);
    Subscribe(w, tokens, CallCancel(s));
    assert Resolve(CallCancel(s), w.gens) == {s.gen};
    assert s.gen.done <==> s.gen in w.DoneSet();
    if AnyStageDone(tokens, D0) {
      var i :| 0 <= i < |tokens| && Stage(tokens[i]).Awaiting? && Stage(tokens[i]).cell in D0;
      assert Stage(tokens[i]).cell in w.DoneSet();
    } else {
      assert w.DoneSet() == D0;
    }
  }

  /** `combined(tokens...)`: a fresh source wired to every token; it is cancelled exactly when a stage was already done. */
  method Combined(w: World, tokens: seq<CancelToken>) returns (s: CancelSource)
    requires w.Valid() && StagesIn(tokens, w.cells)
    modifies w, w.cells
    ensures s.Valid() && fresh(s) && s.world == w && fresh(s.gen)
    ensures w.cells == old(w.cells) + {s.gen} && w.sources == old(w.sources) + {s} && w.gens == old(w.gens)[s := s.gen]
    ensures w.now == old(w.now) && w.timers == old(w.timers)
    ensures Subscribed(tokens, CallCancel(s), old(w.DoneSet()), w.DoneSet(), old(w.deps)[s.gen := []], w.deps, w.gens)
    ensures s.Canceled() <==> AnyStageDone(tokens, old(w.DoneSet()))
  {
    ghost var D0 := w.DoneSet();
    s := NewSource(w);
    assert w.DoneSet() == D0;
    Combine(s, tokens);
  }

  /**
   * The loop of `combinedToken`: a fresh future that the stage of every
   * token completes. It is done exactly when one of the stages was done
   * already; with no tokens, nothing can ever complete it.
   */
  method DerivedCell(w: World, tokens: seq<CancelToken>) returns (c: Cell)
    requires w.Valid() && StagesIn(tokens, w.cells)
    modifies w, w.cells
    ensures w.Valid() && fresh(c) && w.cells == old(w.cells) + {c}
    ensures w.sources == old(w.sources) && w.gens == old(w.gens)
    ensures w.now == old(w.now) && w.timers == old(w.timers)
    ensures Subscribed(tokens, CompleteCell(c), old(w.DoneSet()), w.DoneSet(), old(w.deps)[c := []], w.deps, w.gens)
    ensures c.done <==> AnyStageDone(tokens, old(w.DoneSet()))
    ensures tokens == [] ==> Unnamed(c, w.Graph())
  {
    ghost var D0 := w.DoneSet();
    w.GraphInCells();
    ghost var deps0, cells0 := w.deps, w.cells;
    c := w.NewCell();
    assert w.DoneSet() == D0 && c !in D0;
    Subscribe(w, tokens, CompleteCell(c));
    assert c in w.cells;
    if AnyStageDone(tokens, D0) {
      var i :| 0 <= i < |tokens| && Stage(tokens[i]).Awaiting? && Stage(tokens[i]).cell in D0;
      assert Stage(tokens[i]).cell in w.DoneSet();
    }
    if tokens == [] {
      assert StageCells(tokens) == {};
      ExtendedNothing(deps0[c := []], w.deps, CompleteCell(c));
      FreshUnnamed(deps0, w.gens, cells0, c);
    }
  }

  /** If no stage awaits a cell, no trigger list changed. */
  lemma ExtendedNothing(deps0: map<Cell, seq<Trigger>>, deps: map<Cell, seq<Trigger>>, t: Trigger)
    requires Extended(deps0, deps, t, {})
    ensures deps == deps0
  {
  }

  /** A cell outside every edge of the graph stays outside it when added with no triggers. */
  lemma FreshUnnamed(deps: map<Cell, seq<Trigger>>, gens: map<CancelSource, Cell>, cells: set<Cell>, c: Cell)
    requires c !in cells && forall x :: x in deps ==> Targets(deps[x], gens) <= cells
    ensures Unnamed(c, GraphOf(deps[c := []], gens))
  {
    var G := GraphOf(deps[c := []], gens);
    forall x | x in G
      ensures c !in G[x]
    {
      if x != c {
        assert G[x] == Targets(deps[x], gens);
      }
    }
  }

  /** `combinedToken(tokens...)`: the array combinator over tokens, with the stage of the derived future. */
  method CombinedToken(w: World, tokens: seq<CancelToken>) returns (r: CancelToken)
    requires w.Valid() && StagesIn(tokens, w.cells)
    modifies w, w.cells
    ensures w.Valid() && r.CombinedArray? && r.tokens == tokens && r.stage.Awaiting? && fresh(r.stage.cell)
    ensures w.cells == old(w.cells) + {r.stage.cell} && w.sources == old(w.sources) && w.gens == old(w.gens)
    ensures w.now == old(w.now) && w.timers == old(w.timers)
    ensures Subscribed(tokens, CompleteCell(r.stage.cell), old(w.DoneSet()), w.DoneSet(), old(w.deps)[r.stage.cell := []], w.deps, w.gens)
    ensures r.stage.cell.done <==> AnyStageDone(tokens, old(w.DoneSet()))
    ensures tokens == [] ==> !Canceled(r) && !Cancellable(r) && Unnamed(r.stage.cell, w.Graph())
  {
    var c := DerivedCell(w, tokens);
    r := CombinedArray(tokens, Awaiting(c));
  }

  /** `combinedToken(Iterable)`: the same wiring, returned as the iterable combinator. */
  method CombinedTokenOf(w: World, tokens: seq<CancelToken>) returns (r: CancelToken)
    requires w.Valid() && StagesIn(tokens, w.cells)
    modifies w, w.cells
    ensures w.Valid() && r.CombinedIterable? && r.tokens == tokens && r.stage.Awaiting? && fresh(r.stage.cell)
    ensures w.cells == old(w.cells) + {r.stage.cell} && w.sources == old(w.sources) && w.gens == old(w.gens)
    ensures w.now == old(w.now) && w.timers == old(w.timers)
    ensures Subscribed(tokens, CompleteCell(r.stage.cell), old(w.DoneSet()), w.DoneSet(), old(w.deps)[r.stage.cell := []], w.deps, w.gens)
    ensures r.stage.cell.done <==> AnyStageDone(tokens, old(w.DoneSet()))
    ensures tokens == [] ==> !Canceled(r) && !Cancellable(r) && Unnamed(r.stage.cell, w.Graph())
  {
    var c := DerivedCell(w, tokens);
    r := CombinedIterable(tokens, Awaiting(c));
  }
}
