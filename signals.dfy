/**
 * The completion machinery behind every cancellation token: a sequential
 * stand-in for `CompletableFuture<Void>` (a `Cell`), the timer service that
 * runs `completeOnTimeout` (the timer queue of a `World`, driven by an
 * abstract clock), and `CompletableCancelSource`, whose generation is a cell
 * it replaces on `reset`.
 *
 * A cell's dependents are `Trigger`s: completing another cell (the action a
 * combined token registers) or calling `cancel()` on a source (the action
 * `Cancellation.combine` registers). Since a trigger can name a source and a
 * source hands out tokens, the cell, source, stage and token types are
 * declared together here; their queries live in module Tokens.
 */
module Signals {

  const MinLong: int := -0x8000_0000_0000_0000
  const MaxLong: int := 0x7FFF_FFFF_FFFF_FFFF

  /** Java's 64-bit `long`. */
  type Long = x: int | MinLong <= x <= MaxLong

  /** `java.util.concurrent.TimeUnit`, with its length in nanoseconds. */
  datatype TimeUnit = Nanoseconds | Microseconds | Milliseconds | Seconds | Minutes | Hours | Days
  {
    function Scale(): (n: nat)
      ensures n >= 1
    {
      match this
      case Nanoseconds => 1
      case Microseconds => 1_000
      case Milliseconds => 1_000_000
      case Seconds => 1_000_000_000
      case Minutes => 60_000_000_000
      case Hours => 3_600_000_000_000
      case Days => 86_400_000_000_000
    }
  }

  /**
   * `TimeUnit.toNanos`: the exact product, saturated to the range of `long`.
   * The sign of the duration is kept, and a result strictly inside the range
   * is exact.
   */
  function ToNanos(d: Long, unit: TimeUnit): (r: Long)
    ensures (r < 0 <==> d < 0) && (r == 0 <==> d == 0)
    ensures MinLong < r < MaxLong ==> r == d * unit.Scale()
    ensures r == MaxLong ==> d * unit.Scale() >= MaxLong
    ensures r == MinLong ==> d * unit.Scale() <= MinLong
  {
    var n := d * unit.Scale();
    if n > MaxLong then MaxLong else if n < MinLong then MinLong else n
  }

  lemma ToNanosMonotone(d1: Long, d2: Long, unit: TimeUnit)
    requires d1 <= d2
    ensures ToNanos(d1, unit) <= ToNanos(d2, unit)
  {
    assert d1 * unit.Scale() <= d2 * unit.Scale() by {
      assert (d2 - d1) * unit.Scale() >= 0;
    }
  }

  lemma ToNanosExact(d: Long, unit: TimeUnit)
    requires MinLong <= d * unit.Scale() <= MaxLong
    ensures ToNanos(d, unit) == d * unit.Scale()
    ensures unit == Nanoseconds ==> ToNanos(d, unit) == d
  {
  }

  /**
   * The delay, in nanoseconds, after which a timer armed by
   * `completeOnTimeout(value, timeout, unit)` fires: the timer service treats
   * a negative timeout as zero and converts with `toNanos`.
   */
  function Delay(timeout: Long, unit: TimeUnit): (r: nat)
    ensures timeout <= 0 ==> r == 0
    ensures 0 <= timeout ==> r == ToNanos(timeout, unit)
  {
    ToNanos(if timeout < 0 then 0 else timeout, unit)
  }

  /** A `CompletableFuture<Void>`: done or pending, with its dependents. */
  class Cell {
    var done: bool
    var triggers: seq<Trigger>

    constructor ()
      ensures !done && triggers == []
    {
      done := false;
      triggers := [];
    }
  }

  /** An action registered with `thenRun`. */
  datatype Trigger =
    | CompleteCell(cell: Cell)            // () -> future.complete(null)
    | CallCancel(source: CancelSource)    // source::cancel
  {
    /** The cell this action completes when it runs now. */
    function Target(): Cell
      reads (if CallCancel? then {source} else {})`gen
    {
      match this
      case CompleteCell(c) => c
      case CallCancel(s) => s.gen
    }
  }

  /** A timeout task queued by `completeOnTimeout`. */
  datatype Timer = Timer(cell: Cell, deadline: int)

  /** `AwaitableStage<Void>`: over a cell, or the `EmptyAwaitableStage.STAGE` singleton. */
  datatype AwaitableStage = Awaiting(cell: Cell) | EmptyStage

  /** The implementations of `CancelToken`. */
  datatype CancelToken =
    | Completable(cell: Cell)                                                        // CompletableCancelToken
    | Empty                                                                          // EmptyCancelToken.TOKEN
    | CombinedIterable(tokens: seq<CancelToken>, stage: AwaitableStage)              // CombinedCancelToken
    | CombinedArray(tokens: seq<CancelToken>, stage: AwaitableStage)                 // CombinedArrayCancelToken
    | CombinedPair(first: CancelToken, second: CancelToken, stage: AwaitableStage)   // CombinedPairCancelToken

  // ---------------------------------------------------------------------------
  // What a completion does, stated on values.
  //
  // G maps each cell to the cells its triggers complete. D0 is the set of done
  // cells before, D the set after completing `seeds`.
  // ---------------------------------------------------------------------------

  /** Every cell of X completes, when it runs its triggers, only cells of X or cells already done. */
  ghost predicate Closed(X: set<Cell>, D: set<Cell>, G: map<Cell, set<Cell>>)
  {
    forall x :: x in X && x in G ==> G[x] <= X + D
  }

  /** X is a set of cells that could hold every cell completing `seeds` from D0 completes. */
  ghost predicate Bounds(X: set<Cell>, D0: set<Cell>, seeds: set<Cell>, G: map<Cell, set<Cell>>)
  {
    X <= G.Keys && seeds <= X + D0 && Closed(X, D0, G)
  }

  /**
   * D is what completing `seeds` from D0 leaves done: the seeds are done,
   * every newly completed cell ran its triggers, and nothing else was
   * completed (the new cells lie inside every closed set holding the seeds).
   */
  ghost predicate Propagated(D0: set<Cell>, D: set<Cell>, seeds: set<Cell>, G: map<Cell, set<Cell>>)
  {
    && D0 <= D <= G.Keys
    && seeds <= D
    && Closed(D - D0, D, G)
    && forall X {:trigger Bounds(X, D0, seeds, G)} :: X <= G.Keys && Bounds(X, D0, seeds, G) ==> D - D0 <= X
  }

  lemma PropagatedNothing(D: set<Cell>, G: map<Cell, set<Cell>>)
    requires D <= G.Keys
    ensures Propagated(D, D, {}, G)
  {
  }

  /** Completing one pending cell is marking it and completing what its triggers name. */
  lemma PropagatedStep(D0: set<Cell>, D: set<Cell>, c: Cell, G: map<Cell, set<Cell>>)
    requires c in G && c !in D0
    requires Propagated(D0 + {c}, D, G[c], G)
    ensures Propagated(D0, D, {c}, G)
  {
    forall X | Bounds(X, D0, {c}, G)
      ensures D - D0 <= X
    {
      assert c in X;
      assert Bounds(X, D0 + {c}, G[c], G);
    }
  }

  /** Completing S1 and then S2 is completing S1 + S2. */
  lemma PropagatedCompose(D0: set<Cell>, D1: set<Cell>, D2: set<Cell>, S1: set<Cell>, S2: set<Cell>, G: map<Cell, set<Cell>>)
    requires Propagated(D0, D1, S1, G) && Propagated(D1, D2, S2, G)
    ensures Propagated(D0, D2, S1 + S2, G)
  {
    forall X | Bounds(X, D0, S1 + S2, G)
      ensures D2 - D0 <= X
    {
      assert Bounds(X, D0, S1, G);
      assert Bounds(X, D1, S2, G);
    }
  }

  /** Completing cells that are all done already is a no-op: later completions are absorbed. */
  lemma PropagatedIdle(D0: set<Cell>, D: set<Cell>, seeds: set<Cell>, G: map<Cell, set<Cell>>)
    requires Propagated(D0, D, seeds, G) && seeds <= D0
    ensures D == D0
  {
    assert Bounds({}, D0, seeds, G);
  }

  /**
   * The outcome does not depend on the order in which triggers run: the
   * done set after a completion is determined by D0, the seeds and G.
   */
  lemma PropagatedUnique(D0: set<Cell>, D1: set<Cell>, D2: set<Cell>, seeds: set<Cell>, G: map<Cell, set<Cell>>)
    requires Propagated(D0, D1, seeds, G) && Propagated(D0, D2, seeds, G)
    ensures D1 == D2
  {
    assert Bounds(D1 - D0, D0, seeds, G);
    assert Bounds(D2 - D0, D0, seeds, G);
  }

  /** No edge of G leads to c: no trigger can complete it. */
  ghost predicate Unnamed(c: Cell, G: map<Cell, set<Cell>>)
  {
    forall x :: x in G ==> c !in G[x]
  }

  /** A cell that no trigger names and that is not a seed keeps its done flag: pending stays pending. */
  lemma PropagatedMisses(D0: set<Cell>, D: set<Cell>, seeds: set<Cell>, G: map<Cell, set<Cell>>, c: Cell)
    requires Propagated(D0, D, seeds, G)
    requires Unnamed(c, G) && c !in seeds
    ensures c in D <==> c in D0
  {
    if c !in D0 {
      var X := (D - D0) - {c};
      forall x | x in X && x in G
        ensures G[x] <= X + D0
      {
        assert G[x] <= D;
      }
      assert Bounds(X, D0, seeds, G);
    }
  }

  /** Subset cardinality, which the termination argument needs. */
  lemma SubsetCard<T>(a: set<T>, b: set<T>)
    requires a <= b
    ensures |a| <= |b|
    decreases a
  {
    if a != {} {
      var x :| x in a;
      SubsetCard(a - {x}, b - {x});
    }
  }

  /** Timer tasks that have not yet fallen due at time t, in queue order. */
  function Waiting(ts: seq<Timer>, t: int): (r: seq<Timer>)
    ensures forall e :: e in r ==> e in ts && e.deadline > t
    ensures forall e :: e in ts && e.deadline > t ==> e in r
    ensures |r| <= |ts|
  {
    if ts == [] then []
    else if ts[0].deadline > t then [ts[0]] + Waiting(ts[1..], t)
    else Waiting(ts[1..], t)
  }

  /** The cells whose timer tasks in ts are due at time t. */
  ghost function DueCells(ts: seq<Timer>, t: int): set<Cell>
  {
    if ts == [] then {}
    else (if ts[0].deadline <= t then {ts[0].cell} else {}) + DueCells(ts[1..], t)
  }

  lemma {:induction false} DueCellsSpec(ts: seq<Timer>, t: int)
    ensures forall c :: c in DueCells(ts, t) <==> exists e :: e in ts && e.deadline <= t && e.cell == c
  {
    if ts != [] {
      DueCellsSpec(ts[1..], t);
      assert forall e :: e in ts <==> e == ts[0] || e in ts[1..];
    }
  }

  /**
   * The cell a trigger completes when it runs, given the current generation
   * of every source; a `CallCancel` of a source outside `gens` completes nothing.
   */
  ghost function Resolve(t: Trigger, gens: map<CancelSource, Cell>): set<Cell>
  {
    match t
    case CompleteCell(c) => {c}
    case CallCancel(s) => if s in gens then {gens[s]} else {}
  }

  /** The cells that running the triggers ts completes. */
  ghost function Targets(ts: seq<Trigger>, gens: map<CancelSource, Cell>): set<Cell>
  {
    if ts == [] then {} else Resolve(ts[0], gens) + Targets(ts[1..], gens)
  }

  lemma {:induction false} TargetsAppend(a: seq<Trigger>, b: seq<Trigger>, gens: map<CancelSource, Cell>)
    ensures Targets(a + b, gens) == Targets(a, gens) + Targets(b, gens)
  {
    if a == [] {
      assert a + b == b;
    } else {
      assert (a + b)[0] == a[0] && (a + b)[1..] == a[1..] + b;
      TargetsAppend(a[1..], b, gens);
    }
  }

  lemma {:induction false} TargetsAvoid(ts: seq<Trigger>, gens: map<CancelSource, Cell>, c: Cell)
    requires forall t :: t in ts ==> t != CompleteCell(c)
    requires forall s :: s in gens ==> gens[s] != c
    ensures c !in Targets(ts, gens)
  {
    if ts != [] {
      assert ts[0] in ts && forall t :: t in ts[1..] ==> t in ts;
      TargetsAvoid(ts[1..], gens, c);
    }
  }

  /**
   * A cell that no `CompleteCell` trigger names and that is no source's
   * current generation is named by no edge: once `reset()` replaces a
   * generation, no `cancel()` can reach the old one.
   */
  lemma NamelessUnnamed(deps: map<Cell, seq<Trigger>>, gens: map<CancelSource, Cell>, c: Cell)
    requires forall x, t :: x in deps && t in deps[x] ==> t != CompleteCell(c)
    requires forall s :: s in gens ==> gens[s] != c
    ensures Unnamed(c, GraphOf(deps, gens))
  {
    forall x | x in deps
      ensures c !in Targets(deps[x], gens)
    {
      TargetsAvoid(deps[x], gens, c);
    }
  }

  /** Whether the cell or source a trigger names is among `cells` and `sources`. */
  ghost predicate Registered(t: Trigger, cells: set<Cell>, sources: set<CancelSource>)
  {
    match t
    case CompleteCell(c) => c in cells
    case CallCancel(s) => s in sources
  }

  /** The dependency graph: each cell and the cells its triggers complete. */
  ghost function GraphOf(deps: map<Cell, seq<Trigger>>, gens: map<CancelSource, Cell>): map<Cell, set<Cell>>
  {
    map x | x in deps :: Targets(deps[x], gens)
  }

  /**
   * Every cell and source allocated so far, the clock and the timer queue:
   * the sequential environment that the JDK's futures and timer thread
   * provide to the library. `deps` and `gens` mirror, as values, the
   * triggers of every cell and the generation of every source.
   */
  class World {
    var now: int
    var timers: seq<Timer>
    ghost var cells: set<Cell>
    ghost var sources: set<CancelSource>
    ghost var deps: map<Cell, seq<Trigger>>
    ghost var gens: map<CancelSource, Cell>

    constructor ()
      ensures Valid() && now == 0 && timers == [] && cells == {} && sources == {} && DoneSet() == {}
    {
      now := 0;
      timers := [];
      cells := {};
      sources := {};
      deps := map[];
      gens := map[];
    }

    ghost predicate Valid()
      reads this`cells, this`sources, this`timers, this`deps, this`gens, cells`triggers, sources`gen
    {
      && deps.Keys == cells
      && gens.Keys == sources
      && (forall x :: x in cells ==> x.triggers == deps[x])
      && (forall s :: s in sources ==> s.gen == gens[s] && s.world == this && s.gen in cells)
      && (forall x, t :: x in deps && t in deps[x] ==> Registered(t, cells, sources))
      && (forall e :: e in timers ==> e.cell in cells)
    }

    /** The dependency graph of this world. */
    ghost function Graph(): map<Cell, set<Cell>>
      reads this`deps, this`gens
    {
      GraphOf(deps, gens)
    }

    ghost function DoneSet(): set<Cell>
      reads this`cells, cells`done
    {
      set x | x in cells && x.done
    }

    ghost function PendingSet(): set<Cell>
      reads this`cells, cells`done
    {
      cells - DoneSet()
    }

    lemma {:induction false} TargetsInCells(ts: seq<Trigger>)
      requires Valid() && forall t :: t in ts ==> Registered(t, cells, sources)
      ensures Targets(ts, gens) <= cells
    {
      if ts != [] {
        assert Registered(ts[0], cells, sources);
        TargetsInCells(ts[1..]);
      }
    }

    lemma GraphInCells()
      requires Valid()
      ensures GraphOf(deps, gens).Keys == cells
      ensures forall x :: x in cells ==> GraphOf(deps, gens)[x] <= cells
    {
      forall x | x in cells
        ensures GraphOf(deps, gens)[x] <= cells
      {
        TargetsInCells(deps[x]);
      }
    }

    /** A fresh pending cell with no dependents: `new CompletableFuture<>()`. */
    method NewCell() returns (c: Cell)
      requires Valid()
      modifies this
      ensures Valid() && fresh(c) && !c.done && c.triggers == []
      ensures cells == old(cells) + {c} && sources == old(sources) && DoneSet() == old(DoneSet())
      ensures deps == old(deps)[c := []] && gens == old(gens)
      ensures now == old(now) && timers == old(timers)
    {
      c := new Cell();
      ghost var D0 := DoneSet();
      cells := cells + {c};
      deps := deps[c := []];
      assert DoneSet() == D0;
      forall x, t | x in deps && t in deps[x]
        ensures Registered(t, cells, sources)
      {
        assert Registered(t, old(cells), old(sources));
      }
    }

    ghost method Enlist(s: CancelSource)
      requires Valid() && s.world == this && s.gen in cells
      modifies this
      ensures Valid() && sources == old(sources) + {s} && cells == old(cells) && DoneSet() == old(DoneSet())
      ensures deps == old(deps) && gens == old(gens)[s := s.gen]
      ensures now == old(now) && timers == old(timers)
    {
      sources := sources + {s};
      gens := gens[s := s.gen];
      forall x, t | x in deps && t in deps[x]
        ensures Registered(t, cells, sources)
      {
        assert Registered(t, old(cells), old(sources));
      }

    }

    /**
     * `future.complete(null)`: a pending cell becomes done and runs its
     * triggers; a done cell is left as it is.
     */
    method Complete(c: Cell)
      requires Valid() && c in cells
      modifies cells
      decreases |PendingSet()|, 1
      ensures Valid() && old(DoneSet()) <= DoneSet()
      ensures Propagated(old(DoneSet()), DoneSet(), {c}, GraphOf(deps, gens))
    {
      if c.done {
        GraphInCells();
        assert Propagated(DoneSet(), DoneSet(), {c}, GraphOf(deps, gens));
      } else {
        Run(c);
      }
    }

    /** Completion of a pending cell: it is marked done and runs its triggers in order. */
    method Run(c: Cell)
      requires Valid() && c in cells && !c.done
      modifies cells
      decreases |PendingSet()|, 0
      ensures Valid() && old(DoneSet()) <= DoneSet()
      ensures Propagated(old(DoneSet()), DoneSet(), {c}, GraphOf(deps, gens))
    {
      ghost var D0, G, P0 := DoneSet(), GraphOf(deps, gens), PendingSet();
      var ts := c.triggers;
      Mark(c);
      SubsetCard(PendingSet(), P0 - {c});
      assert G[c] == Targets(ts, gens);
      Fire(ts);
      PropagatedStep(D0, DoneSet(), c, G);
    }

    /** Marks a pending cell done, leaving every other cell and every trigger list as it was. */
    method Mark(c: Cell)
      requires Valid() && c in cells && !c.done
      modifies c
      ensures Valid()
      ensures DoneSet() == old(DoneSet()) + {c} && PendingSet() == old(PendingSet()) - {c}
      ensures c in old(PendingSet()) && PendingSet() < old(PendingSet())
    {
      c.done := true;
      assert Valid();
    }

    /** Runs the triggers ts in order, as a completing future runs its dependents. */
    method Fire(ts: seq<Trigger>)
      requires Valid() && forall t :: t in ts ==> Registered(t, cells, sources)
      modifies cells
      decreases |PendingSet()|, |ts| + 1
      ensures Valid() && old(DoneSet()) <= DoneSet()
      ensures Propagated(old(DoneSet()), DoneSet(), Targets(ts, gens), GraphOf(deps, gens))
    {
      ghost var D0, G, P0 := DoneSet(), GraphOf(deps, gens), PendingSet();
      if ts == [] {
        GraphInCells();
        PropagatedNothing(D0, G);
        return;
      }
      var c := ts[0].Target();
      assert Registered(ts[0], cells, sources);
      assert Resolve(ts[0], gens) == {c};
      Complete(c);
      ghost var D1 := DoneSet();
      SubsetCard(PendingSet(), P0);
      Fire(ts[1..]);
      PropagatedCompose(D0, D1, DoneSet(), {c}, Targets(ts[1..], gens), G);
    }

    /**
     * `stage.thenRun(action)`: the empty stage drops the action; a pending
     * cell records it; a done cell runs it at once.
     */
    method ThenRun(st: AwaitableStage, t: Trigger)
      requires Valid() && Registered(t, cells, sources) && (st.Awaiting? ==> st.cell in cells)
      modifies this, cells
      ensures Valid() && cells == old(cells) && sources == old(sources) && gens == old(gens)
      ensures now == old(now) && timers == old(timers)
      ensures old(DoneSet()) <= DoneSet()
      ensures st.EmptyStage? ==> DoneSet() == old(DoneSet()) && deps == old(deps)
      ensures st.Awaiting? && st.cell !in old(DoneSet()) ==>
        DoneSet() == old(DoneSet()) && deps == old(deps)[st.cell := old(deps)[st.cell] + [t]]
      ensures st.Awaiting? && st.cell in old(DoneSet()) ==>
        && deps == old(deps)
        && Propagated(old(DoneSet()), DoneSet(), Resolve(t, gens), GraphOf(deps, gens))
    {
      match st
      case EmptyStage =>
      case Awaiting(c) =>
        if c.done {
          assert Resolve(t, gens) == {t.Target()};
          Complete(t.Target());
        } else {
          ghost var D0 := DoneSet();
          c.triggers := c.triggers + [t];
          deps := deps[c := c.triggers];
          assert DoneSet() == D0;
        }
    }

    /**
     * `future.completeOnTimeout(null, ...)`: queues a timer task firing
     * `delay` nanoseconds from now, unless the cell is already done.
     */
    method Arm(c: Cell, delay: nat)
      requires Valid() && c in cells
      modifies this
      ensures Valid() && cells == old(cells) && sources == old(sources) && now == old(now)
      ensures deps == old(deps) && gens == old(gens) && DoneSet() == old(DoneSet())
      ensures timers == if old(c.done) then old(timers) else old(timers) + [Timer(c, now + delay)]
    {
      if !c.done {
        timers := timers + [Timer(c, now + delay)];
      }
    }

    /** Runs, in queue order, the timer tasks of `due` whose deadline is at most t. */
    method FireDue(due: seq<Timer>, t: int)
      requires Valid() && forall e :: e in due ==> e.cell in cells
      modifies cells
      decreases |due|
      ensures Valid() && old(DoneSet()) <= DoneSet()
      ensures Propagated(old(DoneSet()), DoneSet(), DueCells(due, t), GraphOf(deps, gens))
    {
      ghost var D0, G := DoneSet(), GraphOf(deps, gens);
      if due == [] {
        GraphInCells();
        PropagatedNothing(D0, G);
        return;
      }
      ghost var first: set<Cell> := {};
      if due[0].deadline <= t {
        Complete(due[0].cell);
        first := {due[0].cell};
      } else {
        GraphInCells();
        PropagatedNothing(D0, G);
      }
      ghost var D1 := DoneSet();
      FireDue(due[1..], t);
      PropagatedCompose(D0, D1, DoneSet(), first, DueCells(due[1..], t), G);
    }

    /**
     * The clock advances to t and every timer task due by then runs: it
     * completes its cell if that is still pending.
     */
    method Tick(t: int)
      requires Valid() && now <= t
      modifies this, cells
      ensures Valid() && now == t && cells == old(cells) && sources == old(sources)
      ensures deps == old(deps) && gens == old(gens)
      ensures timers == Waiting(old(timers), t)
      ensures Propagated(old(DoneSet()), DoneSet(), DueCells(old(timers), t), GraphOf(deps, gens))
    {
      FireDue(timers, t);
      ghost var D1 := DoneSet();
      now := t;
      timers := Waiting(timers, t);
      assert forall x :: x in cells ==> x.triggers == deps[x];
      assert DoneSet() == D1;
    }
  }

  /**
   * `CompletableCancelSource`. Its generation (the `State` record: a future
   * and the token over it) is the cell `gen`; the token is derived from it.
   */
  class CancelSource {
    /** Supplies fresh futures and runs their timers. */
    const world: World
    var gen: Cell

    ghost predicate Valid()
      reads this, world, world.cells, world.sources
    {
      world.Valid() && this in world.sources
    }

    /** `new CompletableCancelSource(CompletableFuture::new)`: one fresh pending generation. */
    constructor (w: World)
      requires w.Valid()
      modifies w
      ensures Valid() && world == w && fresh(gen) && !gen.done && gen.triggers == []
      ensures w.cells == old(w.cells) + {gen} && w.sources == old(w.sources) + {this} && w.DoneSet() == old(w.DoneSet())
      ensures w.deps == old(w.deps)[gen := []] && w.gens == old(w.gens)[this := gen]
      ensures w.now == old(w.now) && w.timers == old(w.timers)
    {
      var c := w.NewCell();
      world := w;
      gen := c;
      new;
      w.Enlist(this);
    }

    /** `token()`: the token that the `State` pairs with the future of the current generation. */
    function Token(): (r: CancelToken)
      reads this
      ensures r.Completable? && r.cell == gen
    {
      Completable(gen)
    }

    /** `canceled()`: whether the future of the current generation is done, which is what its token reads. */
    function Canceled(): (r: bool)
      reads this, gen
      ensures r <==> Token().cell.done
    {
      gen.done
    }

    /** `reset()`: installs a fresh pending generation; the old cell is left as it is. */
    method Reset()
      requires Valid()
      modifies this, world
      ensures Valid() && fresh(gen) && !gen.done && gen.triggers == [] && Token() != old(Token())
      ensures world.cells == old(world.cells) + {gen} && world.sources == old(world.sources)
      ensures world.DoneSet() == old(world.DoneSet())
      ensures world.deps == old(world.deps)[gen := []] && world.gens == old(world.gens)[this := gen]
      ensures world.now == old(world.now) && world.timers == old(world.timers)
    {
      var c := world.NewCell();
      gen := c;
      world.gens := world.gens[this := c];
      assert forall x :: x in world.cells ==> x.triggers == world.deps[x];
      assert forall s :: s in world.sources ==> s.gen == world.gens[s];
    }

    /** `cancel()`: completes the current generation. */
    method Cancel()
      requires Valid()
      modifies world.cells
      ensures Valid() && old(world.DoneSet()) <= world.DoneSet()
      ensures Propagated(old(world.DoneSet()), world.DoneSet(), {gen}, world.Graph())
      ensures gen.done
      ensures old(gen.done) ==> world.DoneSet() == old(world.DoneSet())
      ensures forall c :: c in world.cells && c != gen && Unnamed(c, world.Graph()) ==> (c.done <==> old(c.done))
    {
      ghost var D0 := world.DoneSet();
      world.Complete(gen);
      assert gen in world.DoneSet();
      if gen in D0 {
        PropagatedIdle(D0, world.DoneSet(), {gen}, world.Graph());
      }
      forall c | c in world.cells && c != gen && Unnamed(c, world.Graph())
        ensures c.done <==> old(c.done)
      {
        PropagatedMisses(D0, world.DoneSet(), {gen}, world.Graph(), c);
      }
    }

    /** `cancelAfter(timeout)`: arms the current generation to complete after `timeout` milliseconds. */
    method CancelAfter(timeout: Long)
      requires Valid()
      modifies world
      ensures Valid() && world.now == old(world.now)
      ensures world.cells == old(world.cells) && world.sources == old(world.sources)
      ensures world.deps == old(world.deps) && world.gens == old(world.gens)
      ensures world.DoneSet() == old(world.DoneSet())
      ensures world.timers == if old(gen.done) then old(world.timers)
                              else old(world.timers) + [Timer(gen, world.now + Delay(timeout, Milliseconds))]
    {
      world.Arm(gen, Delay(timeout, Milliseconds));
    }

    /** `cancelAfter(timeout, unit)`: the same, with the timeout in `unit`. */
    method CancelAfterIn(timeout: Long, unit: TimeUnit)
      requires Valid()
      modifies world
      ensures Valid() && world.now == old(world.now)
      ensures world.cells == old(world.cells) && world.sources == old(world.sources)
      ensures world.deps == old(world.deps) && world.gens == old(world.gens)
      ensures world.DoneSet() == old(world.DoneSet())
      ensures world.timers == if old(gen.done) then old(world.timers)
                              else old(world.timers) + [Timer(gen, world.now + Delay(timeout, unit))]
    {
      world.Arm(gen, Delay(timeout, unit));
    }
  }
}
