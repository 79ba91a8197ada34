/**
 * Edges of automata and moves of transition systems. A move is a (possibly
 * synchronised) step between two locations made of zero or more edges; its
 * guard is the conjunction of the edge guards and its updates their
 * concatenation. Edge is not part of this model's source and is a plain
 * record; Move is a mutable object.
 */
module Moves {
  import opened Zones
  import opened Identifiers
  import opened Guards
  import opened Locations

  datatype Edge = Edge(
    source: Location,
    target: Location,
    channel: Channel,
    isInput: bool,
    guard: Guard,
    updates: seq<Update>)

  /** `getGuardCDD()` of an edge. */
  function EdgeGuardCDD(edge: Edge, e: Engine): CDD {
    ToCDD(edge.guard, e)
  }

  /** The state of a Move object, as a value. */
  datatype MoveView = MoveView(
    source: Location,
    target: Location,
    edges: seq<Edge>,
    guard: CDD,
    updates: seq<Update>)

  /** The conjunction of the edge guards (true for no edges). */
  function ConjoinGuards(edges: seq<Edge>, e: Engine): CDD {
    if edges == [] then True() else Conjunction(ConjoinGuards(edges[..|edges| - 1], e), EdgeGuardCDD(edges[|edges| - 1], e))
  }

  /** The edge updates, concatenated in edge order. */
  function ConcatUpdates(edges: seq<Edge>): seq<Update> {
    if edges == [] then [] else ConcatUpdates(edges[..|edges| - 1]) + edges[|edges| - 1].updates
  }

  lemma {:induction false} ConjoinGuardsMeaning(edges: seq<Edge>, e: Engine)
    ensures forall v :: Contains(ConjoinGuards(edges, e), v) <==>
      forall i :: 0 <= i < |edges| ==> Contains(EdgeGuardCDD(edges[i], e), v)
  {
    if edges != [] {
      var init := edges[..|edges| - 1];
      ConjoinGuardsMeaning(init, e);
      assert forall i :: 0 <= i < |init| ==> init[i] == edges[i];
    }
  }

  /** The updates of several edges, concatenated, split where the edge list is split. */
  lemma {:induction false} ConcatUpdatesAppend(a: seq<Edge>, b: seq<Edge>)
    ensures ConcatUpdates(a + b) == ConcatUpdates(a) + ConcatUpdates(b)
    decreases |b|
  {
    if b == [] {
      assert a + b == a;
    } else {
      var b' := b[..|b| - 1];
      assert (a + b)[..|a + b| - 1] == a + b';
      ConcatUpdatesAppend(a, b');
    }
  }

  lemma {:induction false} ConcatUpdatesLength(edges: seq<Edge>)
    ensures |ConcatUpdates(edges)| == SumUpdates(edges)
  {
    if edges != [] {
      ConcatUpdatesLength(edges[..|edges| - 1]);
    }
  }

  function SumUpdates(edges: seq<Edge>): nat {
    if edges == [] then 0 else SumUpdates(edges[..|edges| - 1]) + |edges[|edges| - 1].updates|
  }

  /** The move the edge constructor builds. */
  function FromEdges(source: Location, target: Location, edges: seq<Edge>, e: Engine): MoveView {
    MoveView(source, target, edges, ConjoinGuards(edges, e), ConcatUpdates(edges))
  }

  /** A move with no edges, guard true and no updates: `Move(source, target)` and `Move(loop)`. */
  function Plain(source: Location, target: Location): (m: MoveView)
    ensures m.edges == [] && m.updates == [] && m.guard == True()
  {
    MoveView(source, target, [], True(), [])
  }

  /**
   * `getEnabledPart()`: the guard, the target invariant pulled back across
   * the move's guard and updates, and the source invariant.
   */
  function Enabled(m: MoveView, e: Engine): CDD {
    Conjunction(Conjunction(m.guard, e.back(InvariantCDD(m.target, e), m.guard, m.updates)), InvariantCDD(m.source, e))
  }

  /** The enabled part admits exactly the points of the guard and the source invariant from which the target is reachable. */
  lemma EnabledMeaning(m: MoveView, e: Engine)
    ensures forall v :: Contains(Enabled(m, e), v) <==>
      Contains(m.guard, v) && Contains(InvariantCDD(m.source, e), v) &&
      Contains(e.back(InvariantCDD(m.target, e), m.guard, m.updates), v)
    ensures IsSubset(Enabled(m, e), Conjunction(m.guard, InvariantCDD(m.source, e)))
  {
    IsSubsetMeansInclusion(Enabled(m, e), Conjunction(m.guard, InvariantCDD(m.source, e)));
  }

  /**
   * The merge idiom `move.conjunctCDD(move.getEnabledPart())`: since the
   * enabled part lies within the guard, the narrowed guard is the enabled part.
   */
  lemma NarrowToEnabled(m: MoveView, e: Engine)
    ensures Conjunction(m.guard, Enabled(m, e)) == Enabled(m, e)
  {
    EquivMeansSameValuations(Conjunction(m.guard, Enabled(m, e)), Enabled(m, e));
  }

  /** A disjunction of enabled parts, folded from `cddFalse()` in list order. */
  function DisjoinEnabled(ms: seq<MoveView>, e: Engine): CDD {
    if ms == [] then False() else Disjunction(DisjoinEnabled(ms[..|ms| - 1], e), Enabled(ms[|ms| - 1], e))
  }

  lemma {:induction false} DisjoinEnabledMeaning(ms: seq<MoveView>, e: Engine)
    ensures forall v :: Contains(DisjoinEnabled(ms, e), v) <==> exists i :: 0 <= i < |ms| && Contains(Enabled(ms[i], e), v)
  {
    if ms != [] {
      var init := ms[..|ms| - 1];
      DisjoinEnabledMeaning(init, e);
      assert forall i :: 0 <= i < |init| ==> init[i] == ms[i];
    }
  }

  /**
   * The list merge shared by both quotients: for every x (outer) and y
   * (inner), the combined move, kept only when its guard is not false.
   */
  function Cartesian(xs: seq<MoveView>, ys: seq<MoveView>, combine: (MoveView, MoveView) -> MoveView): seq<MoveView> {
    if xs == [] then [] else Cartesian(xs[..|xs| - 1], ys, combine) + Row(xs[|xs| - 1], ys, combine)
  }

  function Row(x: MoveView, ys: seq<MoveView>, combine: (MoveView, MoveView) -> MoveView): seq<MoveView> {
    if ys == [] then []
    else
      var m := combine(x, ys[|ys| - 1]);
      Row(x, ys[..|ys| - 1], combine) + if IsNotFalse(m.guard) then [m] else []
  }

  lemma {:induction false} RowMembers(x: MoveView, ys: seq<MoveView>, combine: (MoveView, MoveView) -> MoveView)
    ensures |Row(x, ys, combine)| <= |ys|
    ensures forall m :: m in Row(x, ys, combine) <==>
      IsNotFalse(m.guard) && exists j :: 0 <= j < |ys| && m == combine(x, ys[j])
  {
    if ys != [] {
      var init := ys[..|ys| - 1];
      RowMembers(x, init, combine);
      assert forall j :: 0 <= j < |init| ==> init[j] == ys[j];
    }
  }

  lemma {:induction false} CartesianLength(xs: seq<MoveView>, ys: seq<MoveView>, combine: (MoveView, MoveView) -> MoveView)
    ensures |Cartesian(xs, ys, combine)| <= |xs| * |ys|
  {
    if xs != [] {
      var init := xs[..|xs| - 1];
      CartesianLength(init, ys, combine);
      RowMembers(xs[|xs| - 1], ys, combine);
      calc {
        |Cartesian(xs, ys, combine)|;
        == |Cartesian(init, ys, combine)| + |Row(xs[|xs| - 1], ys, combine)|;
        <= |init| * |ys| + |ys|;
        == (|init| + 1) * |ys|;
      }
    }
  }

  lemma {:induction false} CartesianMemberIsCombination(xs: seq<MoveView>, ys: seq<MoveView>, combine: (MoveView, MoveView) -> MoveView, m: MoveView)
    requires m in Cartesian(xs, ys, combine)
    ensures IsNotFalse(m.guard) && exists i, j :: 0 <= i < |xs| && 0 <= j < |ys| && m == combine(xs[i], ys[j])
  {
    var init := xs[..|xs| - 1];
    var last := xs[|xs| - 1];
    if m in Cartesian(init, ys, combine) {
      CartesianMemberIsCombination(init, ys, combine, m);
      var i, j :| 0 <= i < |init| && 0 <= j < |ys| && m == combine(init[i], ys[j]);
      assert xs[i] == init[i];
    } else {
      RowMembers(last, ys, combine);
      var j :| 0 <= j < |ys| && m == combine(last, ys[j]);
      assert xs[|xs| - 1] == last;
    }
  }

  lemma {:induction false} CombinationIsCartesianMember(xs: seq<MoveView>, ys: seq<MoveView>, combine: (MoveView, MoveView) -> MoveView, i: int, j: int)
    requires 0 <= i < |xs| && 0 <= j < |ys| && IsNotFalse(combine(xs[i], ys[j]).guard)
    ensures combine(xs[i], ys[j]) in Cartesian(xs, ys, combine)
  {
    var init := xs[..|xs| - 1];
    var last := xs[|xs| - 1];
    if i < |init| {
      assert init[i] == xs[i];
      CombinationIsCartesianMember(init, ys, combine, i, j);
    } else {
      RowMembers(last, ys, combine);
      assert combine(xs[i], ys[j]) in Row(last, ys, combine);
    }
  }

  /** The merged list holds exactly the non-false combinations, at most one per pair. */
  lemma CartesianMembers(xs: seq<MoveView>, ys: seq<MoveView>, combine: (MoveView, MoveView) -> MoveView)
    ensures |Cartesian(xs, ys, combine)| <= |xs| * |ys|
    ensures forall m :: m in Cartesian(xs, ys, combine) <==>
      IsNotFalse(m.guard) && exists i, j :: 0 <= i < |xs| && 0 <= j < |ys| && m == combine(xs[i], ys[j])
  {
    CartesianLength(xs, ys, combine);
    forall m | m in Cartesian(xs, ys, combine) {
      CartesianMemberIsCombination(xs, ys, combine, m);
    }
    forall i, j | 0 <= i < |xs| && 0 <= j < |ys| && IsNotFalse(combine(xs[i], ys[j]).guard) {
      CombinationIsCartesianMember(xs, ys, combine, i, j);
    }
  }

  /** Merging one more outer move appends its row. */
  lemma CartesianStep(xs: seq<MoveView>, ys: seq<MoveView>, combine: (MoveView, MoveView) -> MoveView, i: int)
    requires 0 <= i < |xs|
    ensures Cartesian(xs[..i + 1], ys, combine) == Cartesian(xs[..i], ys, combine) + Row(xs[i], ys, combine)
  {
    assert xs[..i + 1][..i] == xs[..i];
  }

  /** Merging with one more inner move appends the combination when its guard is satisfiable. */
  lemma RowStep(x: MoveView, ys: seq<MoveView>, combine: (MoveView, MoveView) -> MoveView, j: int)
    requires 0 <= j < |ys|
    ensures Row(x, ys[..j + 1], combine) ==
      Row(x, ys[..j], combine) + if IsNotFalse(combine(x, ys[j]).guard) then [combine(x, ys[j])] else []
  {
    assert ys[..j + 1][..j] == ys[..j];
  }

  /** A single outer move merges to its row. */
  lemma CartesianOfOne(x: MoveView, ys: seq<MoveView>, combine: (MoveView, MoveView) -> MoveView)
    ensures Cartesian([x], ys, combine) == Row(x, ys, combine)
  {
    assert [x][..0] == [];
  }

  /** A row against a single inner move. */
  lemma RowOfOne(x: MoveView, y: MoveView, combine: (MoveView, MoveView) -> MoveView)
    ensures Row(x, [y], combine) == if IsNotFalse(combine(x, y).guard) then [combine(x, y)] else []
  {
    assert [y][..0] == [];
  }

  /** The enabled parts of a list of moves, disjoined in list order from `cddFalse()`. */
  method DisjoinEnabledParts(ms: seq<MoveView>, e: Engine) returns (g: CDD)
    ensures g == DisjoinEnabled(ms, e)
  {
    g := False();
    for i := 0 to |ms|
      invariant g == DisjoinEnabled(ms[..i], e)
    {
      assert ms[..i + 1][..i] == ms[..i];
      g := Disjunction(g, Enabled(ms[i], e));
    }
    assert ms[..|ms|] == ms;
  }

  /** The moves that end in a given location, in order. */
  function Towards(ms: seq<MoveView>, l: Location): (r: seq<MoveView>)
    ensures |r| <= |ms|
  {
    if ms == [] then []
    else Towards(ms[..|ms| - 1], l) + (if ms[|ms| - 1].target == l then [ms[|ms| - 1]] else [])
  }

  /** The moves kept are exactly the moves that end in the location. */
  lemma {:induction false} TowardsMembers(ms: seq<MoveView>, l: Location)
    ensures forall m :: m in Towards(ms, l) <==> m in ms && m.target == l
  {
    if ms != [] {
      var init, last := ms[..|ms| - 1], ms[|ms| - 1];
      TowardsMembers(init, l);
      assert ms == init + [last];
    }
  }

  lemma {:induction false} TowardsAppend(a: seq<MoveView>, b: seq<MoveView>, l: Location)
    ensures Towards(a + b, l) == Towards(a, l) + Towards(b, l)
    decreases |b|
  {
    if b == [] {
      assert a + b == a;
    } else {
      var init, last := b[..|b| - 1], b[|b| - 1];
      assert (a + b)[..|a + b| - 1] == a + init && (a + b)[|a + b| - 1] == last;
      TowardsAppend(a, init, l);
      var tail := if last.target == l then [last] else [];
      assert Towards(a + b, l) == Towards(a + init, l) + tail;
      assert Towards(b, l) == Towards(init, l) + tail;
    }
  }

  /** No move ends in the location: nothing is kept. */
  lemma TowardsNone(ms: seq<MoveView>, l: Location)
    requires forall m :: m in ms ==> m.target != l
    ensures Towards(ms, l) == []
  {
    TowardsMembers(ms, l);
  }

  /** Every move ends in the location: all are kept, in order. */
  lemma {:induction false} TowardsEvery(ms: seq<MoveView>, l: Location)
    requires forall i :: 0 <= i < |ms| ==> ms[i].target == l
    ensures Towards(ms, l) == ms
  {
    if ms != [] {
      var init := ms[..|ms| - 1];
      assert forall i :: 0 <= i < |init| ==> init[i] == ms[i];
      TowardsEvery(init, l);
      assert ms == init + [ms[|ms| - 1]];
    }
  }

  class Move {
    var source: Location
    var target: Location
    const edges: seq<Edge>
    var guard: CDD
    var updates: seq<Update>

    function View(): MoveView
      reads this
    {
      MoveView(source, target, edges, guard, updates)
    }

    /** `Move(source, target, edges)`: conjoins the edge guards and concatenates their updates, in order. */
    constructor(source: Location, target: Location, edges: seq<Edge>, e: Engine)
      ensures View() == FromEdges(source, target, edges, e)
    {
      var g := True();
      var us := [];
      var i := 0;
      while i < |edges|
        invariant 0 <= i <= |edges|
        invariant g == ConjoinGuards(edges[..i], e) && us == ConcatUpdates(edges[..i])
      {
        assert edges[..i + 1][..i] == edges[..i];
        g := Conjunction(g, EdgeGuardCDD(edges[i], e));
        us := us + edges[i].updates;
        i := i + 1;
      }
      assert edges[..i] == edges;
      this.source := source;
      this.target := target;
      this.edges := edges;
      this.guard := g;
      this.updates := us;
    }

    /** `Move(source, target)`, and `Move(loop)` with source == target. */
    constructor Between(source: Location, target: Location)
      ensures View() == Plain(source, target)
    {
      this.source := source;
      this.target := target;
      this.edges := [];
      this.guard := True();
      this.updates := [];
    }

    /** `Move(source, target, guard)` and `Move(source, target, guard, updates)`: no edges. */
    constructor Guarded(source: Location, target: Location, guard: CDD, updates: seq<Update>)
      ensures View() == MoveView(source, target, [], guard, updates)
    {
      this.source := source;
      this.target := target;
      this.edges := [];
      this.guard := guard;
      this.updates := updates;
    }

    /** `Move(source, target, Update...)`: guard true, no edges. */
    constructor WithUpdates(source: Location, target: Location, updates: seq<Update>)
      ensures View() == MoveView(source, target, [], True(), updates)
    {
      this.source := source;
      this.target := target;
      this.edges := [];
      this.guard := True();
      this.updates := updates;
    }

    /** `getEnabledPart()`. */
    function EnabledPart(e: Engine): (c: CDD)
      reads this
      ensures c == Enabled(View(), e)
      ensures IsSubset(c, Conjunction(guard, InvariantCDD(source, e)))
    {
      EnabledMeaning(View(), e);
      Enabled(View(), e)
    }

    /** `getGuards(clocks)`: the guard rendered back as a guard. */
    function Guards(e: Engine): Guard
      reads this
    {
      e.toGuard(guard)
    }

    /** `conjunctCDD(c)`: narrows the guard, nothing else changes. */
    method ConjunctCDD(c: CDD)
      modifies this
      ensures View() == old(View()).(guard := Conjunction(old(guard), c))
      ensures IsSubset(guard, old(guard))
    {
      IsSubsetMeansInclusion(Conjunction(guard, c), guard);
      guard := Conjunction(guard, c);
    }

    method SetGuards(c: CDD)
      modifies this
      ensures View() == old(View()).(guard := c)
    {
      guard := c;
    }

    method SetUpdates(us: seq<Update>)
      modifies this
      ensures View() == old(View()).(updates := us)
    {
      updates := us;
    }

    /** `addUpdates(us)`: appends after the existing updates. */
    method AddUpdates(us: seq<Update>)
      modifies this
      ensures View() == old(View()).(updates := old(updates) + us)
    {
      updates := updates + us;
    }

    method SetTarget(l: Location)
      modifies this
      ensures View() == old(View()).(target := l)
    {
      target := l;
    }
  }

  /** The states of a list of moves. */
  function Views(ms: seq<Move>): seq<MoveView>
    reads set m | m in ms
  {
    if ms == [] then [] else Views(ms[..|ms| - 1]) + [ms[|ms| - 1].View()]
  }

  lemma {:induction false} ViewsAt(ms: seq<Move>)
    ensures |Views(ms)| == |ms|
    ensures forall i :: 0 <= i < |ms| ==> Views(ms)[i] == ms[i].View()
  {
    if ms != [] {
      ViewsAt(ms[..|ms| - 1]);
    }
  }
}
