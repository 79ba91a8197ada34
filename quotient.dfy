/**
 * The eager quotient T \\ S of a specification T by a component S. Its
 * locations are pairs (q^T, q^S) plus two sinks: the universal location
 * `univ-loc`, where everything is allowed, and the inconsistent location
 * `inc-loc`, where time may not pass. `getNextMoves` implements the rules of
 * the quotient construction, and `getAutomaton` explores the reachable
 * symbolic states to build a flat automaton.
 */
module Quotients {
  import opened Failures
  import opened Zones
  import opened Identifiers
  import opened Iteration
  import opened Guards
  import opened Locations
  import opened Moves
  import opened Systems
  import opened Containers
  import opened Automata

  // ---------------------------------------------------------------------
  // The quotient's own clock and sinks

  /** The clock every quotient declares, owned by "quo". */
  const QuoNew: Clock := NewClock("quo_new", "quo")

  /** `createNewClockReset()`, for the given clock. */
  function Reset(c: Clock): Update {
    ClockUpdate(c, 0)
  }

  /** `univ`: the universal sink, with invariant true. */
  function Univ(): (l: Location)
    ensures l.name == DefaultUniversalName && l.isUniversal && !l.isInconsistent && l.product == []
  {
    SimpleLocation(DefaultUniversalName, TrueGuard, false, false, true, false, 0, 0)
  }

  /** `inc`: the inconsistent sink, where the new clock may not exceed 0. */
  function Inc(newClock: Clock): (l: Location)
    ensures l.name == DefaultInconsistentName && l.isInconsistent && !l.isUniversal && l.product == []
    ensures l.invariantGuard == ClockGuard(newClock, 0, LessEqual)
  {
    SimpleLocation(DefaultInconsistentName, ClockGuard(newClock, 0, LessEqual), false, false, false, true, 0, 0)
  }

  // ---------------------------------------------------------------------
  // Merging locations and moves

  /** `merge` keeps a single location only when it is the same location, universal and inconsistent. */
  predicate Collapses(spec: Location, comp: Location) {
    spec == comp && spec.isUniversal && comp.isInconsistent
  }

  /** `merge(specification, component)`: the pair, with the conjoined invariants. */
  function MergeSource(spec: Location, comp: Location, e: Engine): (l: Location)
    ensures Collapses(spec, comp) ==> l.product == [] && l.name == spec.name
    ensures !Collapses(spec, comp) ==> l.product == [spec, comp] && l.name == spec.name + comp.name
    ensures l.isUniversal <==> spec.isUniversal && comp.isUniversal
    ensures l.isInconsistent <==> spec.isInconsistent || comp.isInconsistent || spec.name + comp.name == "inc"
  {
    if Collapses(spec, comp) then CopyLocation(spec)
    else
      ProductOfTwo(spec, comp, e.toGuard(ConjoinInvariants([spec, comp], e)));
      Product([spec, comp], e.toGuard(ConjoinInvariants([spec, comp], e)))
  }

  /** `merge(new TrueGuard(), specification, component)`: the pair, with invariant true. */
  function MergeTarget(spec: Location, comp: Location): (l: Location)
    ensures Collapses(spec, comp) ==> l.product == [] && l.name == spec.name
    ensures !Collapses(spec, comp) ==> l.product == [spec, comp] && l.name == spec.name + comp.name
    ensures l.isUniversal <==> spec.isUniversal && comp.isUniversal
    ensures l.isInconsistent <==> spec.isInconsistent || comp.isInconsistent || spec.name + comp.name == "inc"
  {
    if Collapses(spec, comp) then CopyLocation(spec)
    else
      ProductOfTwo(spec, comp, TrueGuard);
      Product([spec, comp], TrueGuard)
  }

  /**
   * `merge(t_move, s_move)`: a move between the merged locations made of
   * T's edges then S's edges, its guard narrowed to its enabled part.
   */
  function EagerCombine(tm: MoveView, sm: MoveView, e: Engine): MoveView {
    var m := FromEdges(MergeSource(tm.source, sm.source, e), MergeTarget(tm.target, sm.target), tm.edges + sm.edges, e);
    m.(guard := Conjunction(m.guard, Enabled(m, e)))
  }

  /** A stay-loop brings no edges: merging with one keeps the other move's edges alone. */
  lemma CombineWithLoops(l: Location, sm: MoveView, tm: MoveView, e: Engine)
    ensures EagerCombine(Plain(l, l), sm, e) ==
      var m := FromEdges(MergeSource(l, sm.source, e), MergeTarget(l, sm.target), sm.edges, e);
      m.(guard := Conjunction(m.guard, Enabled(m, e)))
    ensures EagerCombine(tm, Plain(l, l), e) ==
      var m := FromEdges(MergeSource(tm.source, l, e), MergeTarget(tm.target, l), tm.edges, e);
      m.(guard := Conjunction(m.guard, Enabled(m, e)))
  {
    assert Plain(l, l).edges + sm.edges == sm.edges;
    assert tm.edges + Plain(l, l).edges == tm.edges;
  }

  function Combiner(e: Engine): (MoveView, MoveView) -> MoveView {
    (x, y) => EagerCombine(x, y, e)
  }

  /**
   * A merged move goes from the pair of the sources to the pair of the
   * targets (or a copy of T's location where the pair collapses), runs T's
   * edges then S's edges, with their updates in that order, and is allowed
   * exactly where every edge guard and the merged source invariant hold and
   * the merged target invariant is reachable.
   */
  lemma EagerCombineMeaning(tm: MoveView, sm: MoveView, e: Engine)
    ensures var r := EagerCombine(tm, sm, e);
      (Collapses(tm.source, sm.source) ==> r.source.product == [] && r.source.name == tm.source.name) &&
      (!Collapses(tm.source, sm.source) ==>
        r.source.product == [tm.source, sm.source] && r.source.name == tm.source.name + sm.source.name) &&
      (Collapses(tm.target, sm.target) ==> r.target.product == [] && r.target.name == tm.target.name) &&
      (!Collapses(tm.target, sm.target) ==>
        r.target.product == [tm.target, sm.target] && r.target.name == tm.target.name + sm.target.name) &&
      r.edges == tm.edges + sm.edges &&
      r.updates == ConcatUpdates(tm.edges) + ConcatUpdates(sm.edges) &&
      forall v :: Contains(r.guard, v) <==>
        (forall i :: 0 <= i < |r.edges| ==> Contains(EdgeGuardCDD(r.edges[i], e), v)) &&
        Contains(InvariantCDD(r.source, e), v) &&
        Contains(e.back(InvariantCDD(r.target, e), ConjoinGuards(r.edges, e), r.updates), v)
  {
    var r := EagerCombine(tm, sm, e);
    ConcatUpdatesAppend(tm.edges, sm.edges);
    ConjoinGuardsMeaning(r.edges, e);
  }

  // ---------------------------------------------------------------------
  // The moves of the quotient

  /** The quotient's fixed parts its moves depend on. */
  datatype Setup = Setup(t: System, s: System, inputs: set<Channel>, newClock: Clock, allResets: seq<Update>, e: Engine)

  /** Where none of the moves is enabled: the negated disjunction of their enabled parts. */
  function Blocked(ms: seq<MoveView>, e: Engine): CDD {
    Reduce(RemoveNegative(Negation(DisjoinEnabled(ms, e))))
  }

  lemma BlockedMeaning(ms: seq<MoveView>, e: Engine)
    ensures forall v :: Contains(Blocked(ms, e), v) <==> forall i :: 0 <= i < |ms| ==> !Contains(Enabled(ms[i], e), v)
  {
    DisjoinEnabledMeaning(ms, e);
  }

  /** Where a location's invariant does not hold. */
  function Outside(l: Location, e: Engine): CDD {
    Reduce(RemoveNegative(Negation(InvariantCDD(l, e))))
  }

  /**
   * Rules 3, 4 and 5: the single move to `univ`, resetting every clock,
   * allowed where S's invariant fails or, on an output of S, where no move
   * of S is enabled.
   */
  function UniversalMove(q: Setup, location: Location, qs: Location, sMoves: seq<MoveView>, a: Channel): MoveView {
    var guard := if a in q.s.outputs then Disjunction(Blocked(sMoves, q.e), Outside(qs, q.e)) else Outside(qs, q.e);
    MoveView(location, Univ(), [], guard, q.allResets)
  }

  /** Rule 6: per move of S on a common output, a move to `inc` where S moves and T cannot. */
  function BlockedOutputs(q: Setup, location: Location, tMoves: seq<MoveView>, sMoves: seq<MoveView>): seq<MoveView> {
    seq(|sMoves|, i requires 0 <= i < |sMoves| =>
      MoveView(location, Inc(q.newClock), [], Conjunction(Enabled(sMoves[i], q.e), Blocked(tMoves, q.e)), [Reset(q.newClock)]))
  }

  /** Rule 7: a move to `inc` where neither invariant holds. */
  function InvariantViolation(q: Setup, location: Location, qt: Location, qs: Location): MoveView {
    MoveView(location, Inc(q.newClock), [], Reduce(RemoveNegative(Conjunction(Outside(qs, q.e), Outside(qt, q.e)))), [Reset(q.newClock)])
  }

  /** Rule 1: a channel of both operands, T's and S's moves merged pairwise. */
  function Synchronised(q: Setup, a: Channel, tMoves: seq<MoveView>, sMoves: seq<MoveView>): seq<MoveView> {
    if a in Actions(q.s) && a in Actions(q.t) then Cartesian(tMoves, sMoves, Combiner(q.e)) else []
  }

  /** Rule 2: a channel of S only; T stays at its location. */
  function ComponentAlone(q: Setup, a: Channel, qt: Location, sMoves: seq<MoveView>): seq<MoveView> {
    if a in Actions(q.s) && a !in Actions(q.t) then Cartesian([Plain(qt, qt)], sMoves, Combiner(q.e)) else []
  }

  /** Rules 6 and 7, on a common output only. */
  function ToInconsistent(q: Setup, location: Location, a: Channel, qt: Location, qs: Location,
                          tMoves: seq<MoveView>, sMoves: seq<MoveView>): seq<MoveView> {
    if a in q.s.outputs && a in q.t.outputs then BlockedOutputs(q, location, tMoves, sMoves) + [InvariantViolation(q, location, qt, qs)]
    else []
  }

  /** Rule 8: a channel of T only; S stays at its location. */
  function SpecificationAlone(q: Setup, a: Channel, tMoves: seq<MoveView>, qs: Location): seq<MoveView> {
    if a in Actions(q.t) && a !in Actions(q.s) then Cartesian(tMoves, [Plain(qs, qs)], Combiner(q.e)) else []
  }

  /** The moves from a pair location, rule by rule in the order the source adds them. */
  function ProductMoves(q: Setup, location: Location, a: Channel): seq<MoveView>
    requires |location.product| >= 2
  {
    var qt := location.product[0];
    var qs := location.product[1];
    var tMoves := q.t.nextMoves(qt, a);
    var sMoves := q.s.nextMoves(qs, a);
    Synchronised(q, a, tMoves, sMoves) + ComponentAlone(q, a, qt, sMoves) + [UniversalMove(q, location, qs, sMoves, a)] +
    ToInconsistent(q, location, a, qt, qs, tMoves, sMoves) + SpecificationAlone(q, a, tMoves, qs)
  }

  /**
   * `getNextMoves(location, a)`: a pair location follows the rules; a pair
   * with fewer than two operands fails on its second one; the inconsistent
   * location loops on inputs (rule 10) and the universal one on everything
   * (rule 9).
   */
  function EagerMoves(q: Setup, location: Location, a: Channel): Result<seq<MoveView>> {
    if IsProduct(location) then
      if |location.product| < 2 then Failure(IndexOutOfBounds(1)) else Success(ProductMoves(q, location, a))
    else if location.isInconsistent && a in q.inputs then
      Success([MoveView(location, Inc(q.newClock), [], True(), [Reset(q.newClock)])])
    else if location.isUniversal then
      Success([MoveView(location, Univ(), [], True(), q.allResets)])
    else
      Success([])
  }

  // ---------------------------------------------------------------------
  // What the rules promise

  /** A merged move ends in a pair, or in a location that is universal and inconsistent at once. */
  lemma MergedTargets(xs: seq<MoveView>, ys: seq<MoveView>, e: Engine)
    ensures forall m :: m in Cartesian(xs, ys, Combiner(e)) ==>
      m.target.product != [] || (m.target.isUniversal && m.target.isInconsistent)
  {
    CartesianMembers(xs, ys, Combiner(e));
  }

  /**
   * Every merged move has a satisfiable guard within its merged source
   * invariant, and runs one T-move's edges followed by one S-move's edges.
   */
  lemma MergedMove(xs: seq<MoveView>, ys: seq<MoveView>, e: Engine, m: MoveView)
    requires m in Cartesian(xs, ys, Combiner(e))
    ensures IsNotFalse(m.guard)
    ensures forall v :: Contains(m.guard, v) ==> Contains(InvariantCDD(m.source, e), v)
    ensures exists i, j :: (0 <= i < |xs| && 0 <= j < |ys| &&
      m.source == MergeSource(xs[i].source, ys[j].source, e) &&
      m.target == MergeTarget(xs[i].target, ys[j].target) &&
      m.edges == xs[i].edges + ys[j].edges)
  {
    CartesianMemberIsCombination(xs, ys, Combiner(e), m);
    var i, j :| 0 <= i < |xs| && 0 <= j < |ys| && m == Combiner(e)(xs[i], ys[j]);
    EagerCombineMeaning(xs[i], ys[j], e);
  }

  /** A merged move never ends in a sink that is not a pair and not both universal and inconsistent. */
  lemma MergedMovesAvoid(xs: seq<MoveView>, ys: seq<MoveView>, e: Engine, l: Location)
    requires l.product == [] && !(l.isUniversal && l.isInconsistent)
    ensures Towards(Cartesian(xs, ys, Combiner(e)), l) == []
  {
    MergedTargets(xs, ys, e);
    TowardsNone(Cartesian(xs, ys, Combiner(e)), l);
  }

  /** The merged parts of a pair location's moves (rules 1, 2 and 8) never reach a sink. */
  lemma MergedPartsAvoid(q: Setup, a: Channel, qt: Location, qs: Location, tMoves: seq<MoveView>, sMoves: seq<MoveView>, l: Location)
    requires l.product == [] && !(l.isUniversal && l.isInconsistent)
    ensures Towards(Synchronised(q, a, tMoves, sMoves), l) == []
    ensures Towards(ComponentAlone(q, a, qt, sMoves), l) == []
    ensures Towards(SpecificationAlone(q, a, tMoves, qs), l) == []
  {
    MergedMovesAvoid(tMoves, sMoves, q.e, l);
    MergedMovesAvoid([Plain(qt, qt)], sMoves, q.e, l);
    MergedMovesAvoid(tMoves, [Plain(qs, qs)], q.e, l);
  }

  /** The moves of a pair location towards a sink come only from rules 5, 6 and 7. */
  lemma TowardsSink(q: Setup, location: Location, a: Channel, l: Location)
    requires |location.product| >= 2
    requires l.product == [] && !(l.isUniversal && l.isInconsistent)
    ensures var qt, qs := location.product[0], location.product[1];
      var tMoves, sMoves := q.t.nextMoves(qt, a), q.s.nextMoves(qs, a);
      Towards(ProductMoves(q, location, a), l) ==
        Towards([UniversalMove(q, location, qs, sMoves, a)], l) + Towards(ToInconsistent(q, location, a, qt, qs, tMoves, sMoves), l)
  {
    var qt, qs := location.product[0], location.product[1];
    var tMoves, sMoves := q.t.nextMoves(qt, a), q.s.nextMoves(qs, a);
    var p1, p2, p3 := Synchronised(q, a, tMoves, sMoves), ComponentAlone(q, a, qt, sMoves), [UniversalMove(q, location, qs, sMoves, a)];
    var p4, p5 := ToInconsistent(q, location, a, qt, qs, tMoves, sMoves), SpecificationAlone(q, a, tMoves, qs);
    assert ProductMoves(q, location, a) == p1 + p2 + p3 + p4 + p5;
    MergedPartsAvoid(q, a, qt, qs, tMoves, sMoves, l);
    TowardsMiddle(p1, p2, p3, p4, p5, l);
  }

  /** Only the middle parts of a five-part list contribute when the others have no move towards the location. */
  lemma TowardsMiddle(p1: seq<MoveView>, p2: seq<MoveView>, p3: seq<MoveView>, p4: seq<MoveView>, p5: seq<MoveView>, l: Location)
    requires Towards(p1, l) == [] && Towards(p2, l) == [] && Towards(p5, l) == []
    ensures Towards(p1 + p2 + p3 + p4 + p5, l) == Towards(p3, l) + Towards(p4, l)
  {
    var t3, t4 := Towards(p3, l), Towards(p4, l);
    TowardsAppend(p1, p2, l);
    TowardsAppend(p1 + p2, p3, l);
    assert Towards(p1 + p2 + p3, l) == t3;
    TowardsAppend(p1 + p2 + p3, p4, l);
    TowardsAppend(p1 + p2 + p3 + p4, p5, l);
    assert Towards(p1 + p2 + p3 + p4 + p5, l) == t3 + t4 + [];
  }

  /** The moves of rules 6 and 7 all go to `inc`, none to `univ`. */
  lemma ToInconsistentTowards(q: Setup, location: Location, a: Channel, qt: Location, qs: Location,
                              tMoves: seq<MoveView>, sMoves: seq<MoveView>)
    ensures var p := ToInconsistent(q, location, a, qt, qs, tMoves, sMoves);
      Towards(p, Inc(q.newClock)) == p && Towards(p, Univ()) == []
  {
    var p := ToInconsistent(q, location, a, qt, qs, tMoves, sMoves);
    assert forall i :: 0 <= i < |p| ==> p[i].target == Inc(q.newClock);
    assert Inc(q.newClock).name != Univ().name;
    TowardsEvery(p, Inc(q.newClock));
    TowardsNone(p, Univ());
  }

  /** The move of rule 5 goes to `univ`, not to `inc`. */
  lemma UniversalMoveTowards(q: Setup, location: Location, qs: Location, sMoves: seq<MoveView>, a: Channel)
    ensures var p := [UniversalMove(q, location, qs, sMoves, a)];
      Towards(p, Univ()) == p && Towards(p, Inc(q.newClock)) == []
  {
    assert Inc(q.newClock).name != Univ().name;
  }

  lemma JoinTwo(t: seq<MoveView>, t1: seq<MoveView>, t2: seq<MoveView>, r1: seq<MoveView>, r2: seq<MoveView>)
    requires t == t1 + t2 && t1 == r1 && t2 == r2
    ensures r2 == [] ==> t == r1
    ensures r1 == [] ==> t == r2
  {
    assert r2 == [] ==> r1 + r2 == r1;
    assert r1 == [] ==> r1 + r2 == r2;
  }

  /** Exactly one move of a pair location goes to `univ`. */
  lemma OneMoveToUniversal(q: Setup, location: Location, a: Channel)
    requires |location.product| >= 2
    ensures var qs := location.product[1];
      Towards(ProductMoves(q, location, a), Univ()) ==
        [UniversalMove(q, location, qs, q.s.nextMoves(qs, a), a)]
  {
    var qt, qs := location.product[0], location.product[1];
    var tMoves, sMoves := q.t.nextMoves(qt, a), q.s.nextMoves(qs, a);
    var u := Univ();
    var p3, p4 := [UniversalMove(q, location, qs, sMoves, a)], ToInconsistent(q, location, a, qt, qs, tMoves, sMoves);
    TowardsSink(q, location, a, u);
    UniversalMoveTowards(q, location, qs, sMoves, a);
    ToInconsistentTowards(q, location, a, qt, qs, tMoves, sMoves);
    JoinTwo(Towards(ProductMoves(q, location, a), u), Towards(p3, u), Towards(p4, u), p3, []);
  }

  /**
   * The moves of a pair location to `inc`: one per move of S and one for
   * the invariants on a common output (rules 6 and 7), none otherwise; each
   * resets the new clock.
   */
  lemma MovesToInconsistent(q: Setup, location: Location, a: Channel)
    requires |location.product| >= 2
    ensures var qt, qs := location.product[0], location.product[1];
      Towards(ProductMoves(q, location, a), Inc(q.newClock)) ==
        ToInconsistent(q, location, a, qt, qs, q.t.nextMoves(qt, a), q.s.nextMoves(qs, a))
  {
    var qt, qs := location.product[0], location.product[1];
    var tMoves, sMoves := q.t.nextMoves(qt, a), q.s.nextMoves(qs, a);
    var u := Inc(q.newClock);
    var p3, p4 := [UniversalMove(q, location, qs, sMoves, a)], ToInconsistent(q, location, a, qt, qs, tMoves, sMoves);
    TowardsSink(q, location, a, u);
    UniversalMoveTowards(q, location, qs, sMoves, a);
    ToInconsistentTowards(q, location, a, qt, qs, tMoves, sMoves);
    JoinTwo(Towards(ProductMoves(q, location, a), u), Towards(p3, u), Towards(p4, u), [], p4);
  }

  /** Rules 6 and 7 give one move per move of S and one more, each from the location and resetting the new clock. */
  lemma ToInconsistentShape(q: Setup, location: Location, a: Channel, qt: Location, qs: Location,
                            tMoves: seq<MoveView>, sMoves: seq<MoveView>)
    ensures var r := ToInconsistent(q, location, a, qt, qs, tMoves, sMoves);
      |r| == (if a in q.s.outputs && a in q.t.outputs then |sMoves| + 1 else 0) &&
      forall i :: 0 <= i < |r| ==> r[i].updates == [Reset(q.newClock)] && r[i].source == location && r[i].edges == []
  {
  }

  /**
   * The move to `univ` is allowed exactly where S's invariant fails, or, on
   * an output of S, where none of S's moves is enabled.
   */
  lemma UniversalGuardMeaning(q: Setup, location: Location, qs: Location, sMoves: seq<MoveView>, a: Channel)
    ensures forall v :: Contains(UniversalMove(q, location, qs, sMoves, a).guard, v) <==>
      !Contains(InvariantCDD(qs, q.e), v) ||
      (a in q.s.outputs && forall i :: 0 <= i < |sMoves| ==> !Contains(Enabled(sMoves[i], q.e), v))
  {
    BlockedMeaning(sMoves, q.e);
  }

  /**
   * Rule 6 moves: the i-th is allowed exactly where S's i-th move is
   * enabled and none of T's moves is.
   */
  lemma BlockedOutputsMeaning(q: Setup, location: Location, tMoves: seq<MoveView>, sMoves: seq<MoveView>, i: int)
    requires 0 <= i < |sMoves|
    ensures var r := BlockedOutputs(q, location, tMoves, sMoves);
      |r| == |sMoves| &&
      forall v :: Contains(r[i].guard, v) <==>
        Contains(Enabled(sMoves[i], q.e), v) && forall j :: 0 <= j < |tMoves| ==> !Contains(Enabled(tMoves[j], q.e), v)
  {
    BlockedMeaning(tMoves, q.e);
  }

  /** Rule 7: allowed exactly where both invariants fail. */
  lemma InvariantViolationMeaning(q: Setup, location: Location, qt: Location, qs: Location)
    ensures forall v :: Contains(InvariantViolation(q, location, qt, qs).guard, v) <==>
      !Contains(InvariantCDD(qs, q.e), v) && !Contains(InvariantCDD(qt, q.e), v)
  {
  }

  /** On a channel neither operand knows, a pair location only has the move of rule 5. */
  lemma UnknownChannel(q: Setup, location: Location, a: Channel)
    requires |location.product| >= 2
    requires a !in Actions(q.s) && a !in Actions(q.t)
    ensures var qs := location.product[1];
      ProductMoves(q, location, a) == [MoveView(location, Univ(), [], Outside(qs, q.e), q.allResets)]
  {
  }

  /**
   * Outside pairs: the inconsistent location loops to `inc` on inputs, the
   * universal one to `univ` on everything, and other locations have no move.
   */
  lemma SingleLocationMoves(q: Setup, location: Location, a: Channel)
    requires !IsProduct(location)
    ensures var r := EagerMoves(q, location, a);
      r.Success? && |r.value| <= 1 &&
      (r.value != [] <==> (location.isInconsistent && a in q.inputs) || location.isUniversal) &&
      forall m :: m in r.value ==> (m.source == location && m.guard == True() && m.edges == [] &&
        (m.target == Inc(q.newClock) <==> location.isInconsistent && a in q.inputs))
  {
  }

  /** A failed move computation can only be a pair location with one operand. */
  lemma EagerMovesFailure(q: Setup, location: Location, a: Channel)
    ensures EagerMoves(q, location, a).Failure? <==> |location.product| == 1
    ensures EagerMoves(q, location, a).Failure? ==> EagerMoves(q, location, a).error == IndexOutOfBounds(1)
  {
  }

  // ---------------------------------------------------------------------
  // Exploring the quotient

  /** `allResets`: one reset to 0 per clock, in container order. */
  method ResetAll(cs: seq<Clock>) returns (r: seq<Update>)
    ensures |r| == |cs|
    ensures forall i :: 0 <= i < |r| ==> r[i] == ClockUpdate(cs[i], 0)
  {
    r := [];
    for i := 0 to |cs|
      invariant |r| == i
      invariant forall k :: 0 <= k < i ==> r[k] == ClockUpdate(cs[k], 0)
    {
      r := r + [ClockUpdate(cs[i], 0)];
    }
  }

  /** A symbolic state: a location and the zone reached there. */
  datatype State = State(location: Location, zone: CDD)

  /** A transition out of a state: the state reached, and the guard and updates of the step. */
  datatype Transition = Transition(target: State, guard: Guard, updates: seq<Update>)

  /** `havePassed`/`isWaitingFor`: the same location name, and a zone inside p's. */
  predicate Covers(p: State, x: State) {
    x.location.name == p.location.name && IsSubset(x.zone, p.zone)
  }

  /** `getNextTransitions(state, a)`: the transitions the moves from the state's location give rise to. */
  function Successors(q: Setup, transitions: (State, seq<MoveView>) -> seq<Transition>, st: State, a: Channel): seq<Transition> {
    var ms := EagerMoves(q, st.location, a);
    if ms.Success? then transitions(st, ms.value) else []
  }

  /** `containsEdge(edges, edge)`: an equal edge with an equal guard. */
  method ContainsEdge(edges: seq<Edge>, edge: Edge, e: Engine) returns (b: bool)
    ensures b <==> edge in edges
  {
    for i := 0 to |edges|
      invariant edge !in edges[..i]
    {
      if edges[i] == edge && EdgeGuardCDD(edges[i], e) == EdgeGuardCDD(edge, e) {
        return true;
      }
      assert edges[..i + 1] == edges[..i] + [edges[i]];
    }
    assert edges[..|edges|] == edges;
    return false;
  }

  /** What the exploration has built: locations by name, in discovery order, and edges. */
  datatype Graph = Graph(locationMap: map<string, Location>, locations: seq<Location>, edges: seq<Edge>)

  /**
   * The map and the list hold the same locations, one per name, and every
   * edge joins two of them and occurs once.
   */
  ghost predicate WellFormed(g: Graph) {
    (forall n :: n in g.locationMap ==> g.locationMap[n].name == n && g.locationMap[n] in g.locations) &&
    (forall i :: 0 <= i < |g.locations| ==> g.locations[i].name in g.locationMap && g.locationMap[g.locations[i].name] == g.locations[i]) &&
    (forall i, j :: 0 <= i < j < |g.locations| ==> g.locations[i].name != g.locations[j].name) &&
    (forall k :: 0 <= k < |g.edges| ==> g.edges[k].source in g.locations && g.edges[k].target in g.locations) &&
    (forall k, l :: 0 <= k < l < |g.edges| ==> g.edges[k] != g.edges[l])
  }

  /** The graph only ever grows: names keep their location, lists are extended. */
  ghost predicate Grows(g: Graph, g': Graph) {
    (forall n :: n in g.locationMap ==> n in g'.locationMap && g'.locationMap[n] == g.locationMap[n]) &&
    g.locations <= g'.locations && g.edges <= g'.edges
  }

  /** The edge `createEdgeFromTransition` builds for a transition out of a state. */
  function TransitionEdge(st: State, a: Channel, tr: Transition, g: Graph, inputs: set<Channel>): Edge
    requires st.location.name in g.locationMap && tr.target.location.name in g.locationMap
  {
    Edge(g.locationMap[st.location.name], g.locationMap[tr.target.location.name], a, a in inputs, tr.guard, tr.updates)
  }

  /**
   * A transition is dealt with: its target is covered by a passed or
   * waiting state, and its edge is in the graph.
   */
  ghost predicate Settled(st: State, a: Channel, tr: Transition, g: Graph, inputs: set<Channel>, passed: set<State>, worklist: seq<State>) {
    st.location.name in g.locationMap && tr.target.location.name in g.locationMap &&
    TransitionEdge(st, a, tr, g, inputs) in g.edges &&
    exists p :: (p in passed || p in worklist) && Covers(p, tr.target)
  }

  lemma SettledMonotone(st: State, a: Channel, tr: Transition, inputs: set<Channel>,
                        g: Graph, passed: set<State>, worklist: seq<State>,
                        g': Graph, passed': set<State>, worklist': seq<State>)
    requires Settled(st, a, tr, g, inputs, passed, worklist) && Grows(g, g')
    requires forall p :: p in passed || p in worklist ==> p in passed' || p in worklist'
    ensures Settled(st, a, tr, g', inputs, passed', worklist')
  {
    var edge := TransitionEdge(st, a, tr, g, inputs);
    assert TransitionEdge(st, a, tr, g', inputs) == edge;
    var k :| 0 <= k < |g.edges| && g.edges[k] == edge;
    assert g'.edges[k] == edge;
  }

  lemma Missing(a: set<State>, b: set<State>)
    ensures !(b <= a) ==> exists x :: x in b && x !in a
  {
    if !(exists x :: x in b && x !in a) {
      assert forall x :: x in b ==> x in a;
    }
  }

  lemma {:induction false} SubsetCardinality(a: set<State>, b: set<State>)
    requires a <= b
    ensures |a| <= |b|
    ensures a < b ==> |a| < |b|
    decreases |b|
  {
    if a < b {
      Missing(a, b);
      var x :| x in b && x !in a;
      SubsetCardinality(a, b - {x});
      assert b == (b - {x}) + {x};
    } else {
      assert a == b;
    }
  }

  /** Adding a state to the seen ones, from the states still to be seen, leaves fewer of them. */
  lemma PendingShrinks(space: set<State>, seen: set<State>, seen': set<State>, x: State)
    requires seen <= seen' && x in space && x !in seen && x in seen'
    ensures |space - seen'| < |space - seen|
  {
    assert x in space - seen && x !in space - seen';
    SubsetCardinality(space - seen', space - seen);
  }

  /** The states still to be seen never grow in number as the seen ones grow. */
  lemma PendingMonotone(space: set<State>, seen: set<State>, seen': set<State>)
    requires seen <= seen'
    ensures |space - seen'| <= |space - seen|
  {
    SubsetCardinality(space - seen', space - seen);
  }

  /**
   * The graph part of one step of `getAutomaton`: the target's location is
   * added under its name unless the name is known, then the edge for the
   * transition unless it is already there.
   */
  method Record(st: State, a: Channel, tr: Transition, target: State, g: Graph, inputs: set<Channel>, e: Engine)
    returns (g': Graph)
    requires WellFormed(g) && st.location.name in g.locationMap
    requires target.location.name == tr.target.location.name
    ensures WellFormed(g') && Grows(g, g')
    ensures tr.target.location.name in g'.locationMap
    ensures tr.target.location.name in g.locationMap ==>
      g'.locationMap == g.locationMap && g'.locations == g.locations
    ensures tr.target.location.name !in g.locationMap ==>
      var added := LocationFromState(target.location, e.toGuard(target.zone));
      g'.locationMap == g.locationMap[added.name := added] && g'.locations == g.locations + [added]
    ensures TransitionEdge(st, a, tr, g', inputs) in g'.edges
    ensures g'.edges == g.edges || g'.edges == g.edges + [TransitionEdge(st, a, tr, g', inputs)]
  {
    var targetName := target.location.name;
    g' := g;
    if targetName !in g'.locationMap {
      var newLocation := LocationFromState(target.location, e.toGuard(target.zone));
      g' := AddLocation(g', newLocation);
    }
    var sourceName := st.location.name;
    var edge := Edge(g'.locationMap[sourceName], g'.locationMap[targetName], a, a in inputs, tr.guard, tr.updates);
    var present := ContainsEdge(g'.edges, edge, e);
    if !present {
      AddEdgeKeepsShape(g', edge);
      g' := g'.(edges := g'.edges + [edge]);
    }
  }

  /** A location under a new name joins the map and the list. */
  function AddLocation(g: Graph, l: Location): (g': Graph)
    requires WellFormed(g) && l.name !in g.locationMap
    ensures WellFormed(g') && Grows(g, g')
    ensures l.name in g'.locationMap && g'.locationMap[l.name] == l
  {
    var g' := g.(locationMap := g.locationMap[l.name := l], locations := g.locations + [l]);
    assert forall i :: 0 <= i < |g.locations| ==> g'.locations[i] == g.locations[i];
    g'
  }

  lemma AddEdgeKeepsShape(g: Graph, edge: Edge)
    requires WellFormed(g) && edge.source in g.locations && edge.target in g.locations && edge !in g.edges
    ensures WellFormed(g.(edges := g.edges + [edge])) && Grows(g, g.(edges := g.edges + [edge]))
  {
  }

  /** The states passed or waiting. */
  ghost function SeenOf(passed: set<State>, worklist: seq<State>): set<State> {
    passed + set p | p in worklist
  }

  lemma SeenGrows(passed: set<State>, worklist: seq<State>, worklist': seq<State>)
    requires worklist <= worklist'
    ensures SeenOf(passed, worklist) <= SeenOf(passed, worklist')
  {
    forall p | p in worklist
      ensures p in worklist'
    {
      var i :| 0 <= i < |worklist| && worklist[i] == p;
      assert worklist'[i] == p;
    }
  }

  /** Queuing a state not seen before leaves fewer states to be seen. */
  lemma QueueStep(space: set<State>, passed: set<State>, w0: seq<State>, x: State)
    requires x !in SeenOf(passed, w0) && x in space
    ensures |space - SeenOf(passed, w0 + [x])| < |space - SeenOf(passed, w0)|
  {
    SeenGrows(passed, w0, w0 + [x]);
    assert (w0 + [x])[|w0|] == x;
    PendingShrinks(space, SeenOf(passed, w0), SeenOf(passed, w0 + [x]), x);
  }

  /** A settled transition stays settled while the worklist and the graph only grow. */
  lemma SettledKept(st: State, a: Channel, tr: Transition, inputs: set<Channel>,
                    g: Graph, passed: set<State>, w0: seq<State>, g': Graph, w1: seq<State>)
    requires Settled(st, a, tr, g, inputs, passed, w0) && Grows(g, g') && w0 <= w1
    ensures Settled(st, a, tr, g', inputs, passed, w1)
  {
    forall p | p in w0
      ensures p in w1
    {
      var i :| 0 <= i < |w0| && w0[i] == p;
      assert w1[i] == p;
    }
    SettledMonotone(st, a, tr, inputs, g, passed, w0, g', passed, w1);
  }

  /** The first n transitions of ts are all settled. */
  ghost predicate AllSettled(st: State, a: Channel, ts: seq<Transition>, n: nat, g: Graph, inputs: set<Channel>,
                             passed: set<State>, worklist: seq<State>)
    requires n <= |ts|
  {
    forall k :: 0 <= k < n ==> Settled(st, a, ts[k], g, inputs, passed, worklist)
  }

  /** Settling one more transition while the graph and the worklist grow. */
  lemma SettleNext(st: State, a: Channel, ts: seq<Transition>, n: nat, inputs: set<Channel>,
                   g: Graph, passed: set<State>, w0: seq<State>, g': Graph, w1: seq<State>)
    requires n < |ts| && AllSettled(st, a, ts, n, g, inputs, passed, w0)
    requires Grows(g, g') && w0 <= w1 && Settled(st, a, ts[n], g', inputs, passed, w1)
    ensures AllSettled(st, a, ts, n + 1, g', inputs, passed, w1)
  {
    forall k | 0 <= k < n
      ensures Settled(st, a, ts[k], g', inputs, passed, w1)
    {
      SettledKept(st, a, ts[k], inputs, g, passed, w0, g', w1);
    }
  }

  /** All of ts settled, as a statement about its elements. */
  lemma AllSettledElements(st: State, a: Channel, ts: seq<Transition>, g: Graph, inputs: set<Channel>,
                           passed: set<State>, worklist: seq<State>)
    requires AllSettled(st, a, ts, |ts|, g, inputs, passed, worklist)
    ensures forall tr :: tr in ts ==> Settled(st, a, tr, g, inputs, passed, worklist)
  {
    forall tr | tr in ts
      ensures Settled(st, a, tr, g, inputs, passed, worklist)
    {
      var k :| 0 <= k < |ts| && ts[k] == tr;
    }
  }

  /** Every transition on the first n channels of `order` out of st is settled. */
  ghost predicate ChannelsSettled(q: Setup, transitions: (State, seq<MoveView>) -> seq<Transition>, st: State,
                                  order: seq<Channel>, n: nat, g: Graph, passed: set<State>, worklist: seq<State>)
    requires n <= |order|
  {
    forall ci, tr :: 0 <= ci < n && tr in Successors(q, transitions, st, order[ci]) ==>
      Settled(st, order[ci], tr, g, q.inputs, passed, worklist)
  }

  lemma ChannelsSettleNext(q: Setup, transitions: (State, seq<MoveView>) -> seq<Transition>, st: State,
                           order: seq<Channel>, n: nat, g: Graph, passed: set<State>, w0: seq<State>,
                           g': Graph, w1: seq<State>)
    requires n < |order| && ChannelsSettled(q, transitions, st, order, n, g, passed, w0)
    requires Grows(g, g') && w0 <= w1
    requires forall tr :: tr in Successors(q, transitions, st, order[n]) ==> Settled(st, order[n], tr, g', q.inputs, passed, w1)
    ensures ChannelsSettled(q, transitions, st, order, n + 1, g', passed, w1)
  {
    forall ci, tr | 0 <= ci < n && tr in Successors(q, transitions, st, order[ci])
      ensures Settled(st, order[ci], tr, g', q.inputs, passed, w1)
    {
      SettledKept(st, order[ci], tr, q.inputs, g, passed, w0, g', w1);
    }
  }

  /** Settledness survives any step that keeps every passed or waiting state seen. */
  lemma ChannelsSettledKept(q: Setup, transitions: (State, seq<MoveView>) -> seq<Transition>, st: State,
                            order: seq<Channel>, g: Graph, passed: set<State>, worklist: seq<State>,
                            g': Graph, passed': set<State>, worklist': seq<State>)
    requires ChannelsSettled(q, transitions, st, order, |order|, g, passed, worklist)
    requires Grows(g, g') && SeenOf(passed, worklist) <= SeenOf(passed', worklist')
    ensures ChannelsSettled(q, transitions, st, order, |order|, g', passed', worklist')
  {
    forall p | p in passed || p in worklist
      ensures p in passed' || p in worklist'
    {
      assert p in SeenOf(passed, worklist);
    }
    forall ci, tr | 0 <= ci < |order| && tr in Successors(q, transitions, st, order[ci])
      ensures Settled(st, order[ci], tr, g', q.inputs, passed', worklist')
    {
      SettledMonotone(st, order[ci], tr, q.inputs, g, passed, worklist, g', passed', worklist');
    }
  }

  /** Moving the head of the worklist to the passed set keeps the seen states. */
  lemma AllChannelsSettledKept(q: Setup, transitions: (State, seq<MoveView>) -> seq<Transition>, explored: set<State>,
                               order: seq<Channel>, g: Graph, passed: set<State>, worklist: seq<State>,
                               g': Graph, passed': set<State>, worklist': seq<State>)
    requires forall x :: x in explored ==> ChannelsSettled(q, transitions, x, order, |order|, g, passed, worklist)
    requires Grows(g, g') && SeenOf(passed, worklist) <= SeenOf(passed', worklist')
    ensures forall x :: x in explored ==> ChannelsSettled(q, transitions, x, order, |order|, g', passed', worklist')
  {
    forall x | x in explored
      ensures ChannelsSettled(q, transitions, x, order, |order|, g', passed', worklist')
    {
      ChannelsSettledKept(q, transitions, x, order, g, passed, worklist, g', passed', worklist');
    }
  }

  lemma PopKeepsSeen(passed: set<State>, worklist: seq<State>)
    requires worklist != []
    ensures SeenOf(passed + {worklist[0]}, worklist[1..]) == SeenOf(passed, worklist)
  {
    assert worklist == [worklist[0]] + worklist[1..];
  }

  /** The state space holds the extrapolated targets of the successors of its states on every channel it is closed for. */
  lemma ClosedStep(q: Setup, channels: set<Channel>, space: set<State>, transitions: (State, seq<MoveView>) -> seq<Transition>,
                   extrapolate: State -> State, st: State, a: Channel)
    requires Closed(q, channels, space, transitions, extrapolate) && st in space && a in channels
    ensures forall tr :: tr in Successors(q, transitions, st, a) ==> extrapolate(tr.target) in space
  {
  }

  /**
   * Once the worklist is empty, a settled transition has its target covered
   * by a passed state and an edge between the locations named like its ends.
   */
  lemma SettledMeaning(st: State, a: Channel, tr: Transition, g: Graph, inputs: set<Channel>, passed: set<State>)
    requires WellFormed(g) && Settled(st, a, tr, g, inputs, passed, [])
    ensures exists p :: p in passed && Covers(p, tr.target)
    ensures exists src, tgt :: (src in g.locations && tgt in g.locations &&
      src.name == st.location.name && tgt.name == tr.target.location.name &&
      Edge(src, tgt, a, a in inputs, tr.guard, tr.updates) in g.edges)
  {
    var src, tgt := g.locationMap[st.location.name], g.locationMap[tr.target.location.name];
    assert Edge(src, tgt, a, a in inputs, tr.guard, tr.updates) == TransitionEdge(st, a, tr, g, inputs);
  }

  /** What a well-formed graph says about its lists alone. */
  lemma GraphShape(g: Graph)
    requires WellFormed(g)
    ensures forall i, j :: 0 <= i < j < |g.locations| ==> g.locations[i].name != g.locations[j].name
    ensures forall k :: 0 <= k < |g.edges| ==> g.edges[k].source in g.locations && g.edges[k].target in g.locations
    ensures forall k, l :: 0 <= k < l < |g.edges| ==> g.edges[k] != g.edges[l]
  {
  }

  /** With the worklist empty, every explored state has all its transitions covered and drawn as edges. */
  lemma ExploredMeaning(q: Setup, transitions: (State, seq<MoveView>) -> seq<Transition>, explored: set<State>,
                        order: seq<Channel>, channels: set<Channel>, g: Graph, passed: set<State>)
    requires IsOrdering(order, channels) && WellFormed(g)
    requires forall x :: x in explored ==> ChannelsSettled(q, transitions, x, order, |order|, g, passed, [])
    ensures forall st, a, tr :: st in explored && a in channels && tr in Successors(q, transitions, st, a) ==>
      (exists p :: p in passed && Covers(p, tr.target)) &&
      exists src, tgt :: (src in g.locations && tgt in g.locations &&
        src.name == st.location.name && tgt.name == tr.target.location.name &&
        Edge(src, tgt, a, a in q.inputs, tr.guard, tr.updates) in g.edges)
  {
    forall st, a, tr | st in explored && a in channels && tr in Successors(q, transitions, st, a)
      ensures (exists p :: p in passed && Covers(p, tr.target)) &&
        exists src, tgt :: (src in g.locations && tgt in g.locations &&
          src.name == st.location.name && tgt.name == tr.target.location.name &&
          Edge(src, tgt, a, a in q.inputs, tr.guard, tr.updates) in g.edges)
    {
      var ci :| 0 <= ci < |order| && order[ci] == a;
      SettledMeaning(st, a, tr, g, q.inputs, passed);
    }
  }

  /** Extrapolation keeps the location and only widens the zone. */
  ghost predicate Extrapolates(extrapolate: State -> State) {
    forall x :: extrapolate(x).location.name == x.location.name && IsSubset(x.zone, extrapolate(x).zone)
  }

  /**
   * The state space: closed under the successors the exploration computes,
   * that is, a transition out of a state of the space on one of `channels`,
   * over the moves of the quotient, followed by extrapolation of its target.
   */
  ghost predicate Closed(q: Setup, channels: set<Channel>, space: set<State>, transitions: (State, seq<MoveView>) -> seq<Transition>,
                         extrapolate: State -> State) {
    forall x, a, tr :: x in space && a in channels && tr in Successors(q, transitions, x, a) ==> extrapolate(tr.target) in space
  }

  /**
   * The quotient's clock container: the new clock comes first and stays
   * first, up to a rename when an operand also declares `quo_new`.
   */
  lemma FirstClock(ts: seq<Clock>, ss: seq<Clock>)
    ensures Added([], QuoNew) == [QuoNew]
    ensures var items := AddedAll(AddedAll([QuoNew], ts), ss);
      |items| >= 1 && SameItem(items[0], QuoNew)
  {
    AddWithoutClash([], QuoNew);
    AddedAllKeepsItems([QuoNew], ts);
    AddedAllKeepsItems(AddedAll([QuoNew], ts), ss);
  }

  // ---------------------------------------------------------------------
  // The quotient object

  class Quotient {
    const t: System
    const s: System
    const inputs: set<Channel>
    const outputs: set<Channel>
    const newChan: Channel
    const newClock: Clock
    const clocks: UniqueNamedContainer<()>
    const bvs: UniqueNamedContainer<bool>
    const maxBounds: map<Clock, int>
    const allResets: seq<Update>
    /** The constraint engine the quotient computes with. */
    const e: Engine
    var passed: set<State>
    var worklist: seq<State>

    /**
     * `Quotient(t, s)`: the new clock first, then T's and S's clocks and
     * variables; the channel algebra; T's clock bounds overridden by S's;
     * and a reset of every clock.
     */
    constructor(t: System, s: System, e: Engine)
      ensures this.t == t && this.s == s && this.e == e
      ensures inputs == QuotientInputs(t, s) && outputs == QuotientOutputs(t, s) && newChan == NewChannel
      ensures fresh(clocks) && fresh(bvs)
      ensures clocks.items == AddedAll(AddedAll([QuoNew], t.clocks), s.clocks)
      ensures bvs.items == AddedAll(AddedAll([], t.bvs), s.bvs)
      ensures newClock == QuoNew && |clocks.items| >= 1 && SameItem(clocks.items[0], newClock)
      ensures maxBounds == t.maxBounds + s.maxBounds
      ensures |allResets| == |clocks.items| && forall i :: 0 <= i < |allResets| ==> allResets[i] == Reset(clocks.items[i])
      ensures passed == {} && worklist == []
    {
      var clockItems := new UniqueNamedContainer<()>.Empty();
      clockItems.Add(QuoNew);
      FirstClock(t.clocks, s.clocks);
      clockItems.AddAll(t.clocks);
      clockItems.AddAll(s.clocks);
      var bvItems := new UniqueNamedContainer<bool>.Empty();
      bvItems.AddAll(t.bvs);
      bvItems.AddAll(s.bvs);
      var resets := ResetAll(clockItems.items);
      this.t := t;
      this.s := s;
      this.e := e;
      this.clocks := clockItems;
      this.bvs := bvItems;
      this.newClock := QuoNew;
      this.inputs := t.inputs + s.outputs + {NewChannel};
      this.newChan := NewChannel;
      this.outputs := (t.outputs - s.outputs) + (s.inputs - t.inputs);
      this.maxBounds := t.maxBounds + s.maxBounds;
      this.allResets := resets;
      this.passed := {};
      this.worklist := [];
    }

    /** `getName()`. */
    function Name(): string {
      QuotientName(t, s)
    }

    /** The fixed parts the moves depend on. */
    function Parts(): Setup {
      Setup(t, s, inputs, newClock, allResets, e)
    }

    // -------------------------------------------------------------------
    // Merging

    /** `merge(specification, component)`. */
    method MergeLocations(spec: Location, comp: Location) returns (l: Location)
      ensures l == MergeSource(spec, comp, e)
    {
      if spec == comp && spec.isUniversal && comp.isInconsistent {
        l := CopyLocation(spec);
      } else {
        var product := CreateProductOfInvariants([spec, comp], e);
        l := product.value;
      }
    }

    /** `merge(new TrueGuard(), specification, component)`. */
    method MergeTargets(spec: Location, comp: Location) returns (l: Location)
      ensures l == MergeTarget(spec, comp)
    {
      if spec == comp && spec.isUniversal && comp.isInconsistent {
        l := CopyLocation(spec);
      } else {
        var product := CreateProductCorrected([spec, comp], TrueGuard);
        l := product.value;
      }
    }

    /** `merge(t_move, s_move)`. */
    method MergeMoves(tm: MoveView, sm: MoveView) returns (m: MoveView)
      ensures m == EagerCombine(tm, sm, e)
    {
      var source := MergeLocations(tm.source, sm.source);
      var target := MergeTargets(tm.target, sm.target);
      var move := new Move(source, target, tm.edges + sm.edges, e);
      var enabled := move.EnabledPart(e);
      move.ConjunctCDD(enabled);
      m := move.View();
    }

    /** `merge(t_location, s_move)` is the merge with T's stay-loop at that location. */
    method MergeStay(l: Location, sm: MoveView) returns (m: MoveView)
      ensures m == EagerCombine(Plain(l, l), sm, e)
    {
      var source := MergeLocations(l, sm.source);
      var target := MergeTargets(l, sm.target);
      var move := new Move(source, target, sm.edges, e);
      var enabled := move.EnabledPart(e);
      move.ConjunctCDD(enabled);
      m := move.View();
      CombineWithLoops(l, sm, sm, e);
    }

    /** `merge(t_move, s_location)` is the merge with S's stay-loop at that location. */
    method MergeWait(tm: MoveView, l: Location) returns (m: MoveView)
      ensures m == EagerCombine(tm, Plain(l, l), e)
    {
      var source := MergeLocations(tm.source, l);
      var target := MergeTargets(tm.target, l);
      var move := new Move(source, target, tm.edges, e);
      var enabled := move.EnabledPart(e);
      move.ConjunctCDD(enabled);
      m := move.View();
      CombineWithLoops(l, tm, tm, e);
    }

    /** `merge(t_moves, s_moves)`: every pair, T's moves outermost, keeping satisfiable guards. */
    method MergeLists(tms: seq<MoveView>, sms: seq<MoveView>) returns (ms: seq<MoveView>)
      ensures ms == Cartesian(tms, sms, Combiner(e))
    {
      ms := [];
      for i := 0 to |tms|
        invariant ms == Cartesian(tms[..i], sms, Combiner(e))
      {
        CartesianStep(tms, sms, Combiner(e), i);
        var row := MergeRow(tms[i], sms);
        ms := ms + row;
      }
      assert tms[..|tms|] == tms;
    }

    /** The inner loop of `merge(t_moves, s_moves)`, for one move of T. */
    method MergeRow(tm: MoveView, sms: seq<MoveView>) returns (ms: seq<MoveView>)
      ensures ms == Row(tm, sms, Combiner(e))
    {
      ms := [];
      for j := 0 to |sms|
        invariant ms == Row(tm, sms[..j], Combiner(e))
      {
        RowStep(tm, sms, Combiner(e), j);
        var m := MergeMoves(tm, sms[j]);
        assert m == Combiner(e)(tm, sms[j]);
        if IsNotFalse(m.guard) {
          ms := ms + [m];
        }
      }
      assert sms[..|sms|] == sms;
    }

    /** `merge(t_location, s_moves)`. */
    method MergeStayList(l: Location, sms: seq<MoveView>) returns (ms: seq<MoveView>)
      ensures ms == Cartesian([Plain(l, l)], sms, Combiner(e))
    {
      ms := [];
      for j := 0 to |sms|
        invariant ms == Row(Plain(l, l), sms[..j], Combiner(e))
      {
        RowStep(Plain(l, l), sms, Combiner(e), j);
        var m := MergeStay(l, sms[j]);
        assert m == Combiner(e)(Plain(l, l), sms[j]);
        if IsNotFalse(m.guard) {
          ms := ms + [m];
        }
      }
      assert sms[..|sms|] == sms;
      CartesianOfOne(Plain(l, l), sms, Combiner(e));
    }

    /** `merge(t_moves, s_location)`. */
    method MergeWaitList(tms: seq<MoveView>, l: Location) returns (ms: seq<MoveView>)
      ensures ms == Cartesian(tms, [Plain(l, l)], Combiner(e))
    {
      ms := [];
      for i := 0 to |tms|
        invariant ms == Cartesian(tms[..i], [Plain(l, l)], Combiner(e))
      {
        CartesianStep(tms, [Plain(l, l)], Combiner(e), i);
        RowOfOne(tms[i], Plain(l, l), Combiner(e));
        var m := MergeWait(tms[i], l);
        assert m == Combiner(e)(tms[i], Plain(l, l));
        if IsNotFalse(m.guard) {
          ms := ms + [m];
        }
      }
      assert tms[..|tms|] == tms;
    }

    // -------------------------------------------------------------------
    // The moves

    /** Rule 6's loop: one move to `inc` per move of S, guarded by S's enabled part and T's blocking. */
    method AddBlockedOutputs(location: Location, tMoves: seq<MoveView>, sMoves: seq<MoveView>, guardT: CDD) returns (ms: seq<MoveView>)
      requires guardT == Blocked(tMoves, e)
      ensures ms == BlockedOutputs(Parts(), location, tMoves, sMoves)
    {
      var inc := Inc(newClock);
      ms := [];
      for j := 0 to |sMoves|
        invariant ms == BlockedOutputs(Parts(), location, tMoves, sMoves[..j])
      {
        var guardS := Enabled(sMoves[j], e);
        var move := new Move.Guarded(location, inc, Conjunction(guardS, guardT), [Reset(newClock)]);
        ms := ms + [move.View()];
      }
      assert sMoves[..|sMoves|] == sMoves;
    }

    /** Rules 3, 4 and 5: the move to `univ`. */
    method MoveToUniversal(location: Location, qs: Location, sMoves: seq<MoveView>, a: Channel) returns (m: MoveView)
      ensures m == UniversalMove(Parts(), location, qs, sMoves, a)
    {
      var univ := Univ();
      if a in s.outputs {
        var guardS := DisjoinEnabledParts(sMoves, e);
        guardS := Reduce(RemoveNegative(Negation(guardS)));
        var outsideS := Reduce(RemoveNegative(Negation(InvariantCDD(qs, e))));
        var move := new Move.Guarded(location, univ, Disjunction(guardS, outsideS), allResets);
        m := move.View();
      } else {
        var outsideS := Reduce(RemoveNegative(Negation(InvariantCDD(qs, e))));
        var move := new Move.Guarded(location, univ, outsideS, allResets);
        m := move.View();
      }
    }

    /** Rules 6 and 7: the moves to `inc` on a common output. */
    method MovesToInc(location: Location, a: Channel, qt: Location, qs: Location, tMoves: seq<MoveView>, sMoves: seq<MoveView>)
      returns (ms: seq<MoveView>)
      ensures ms == ToInconsistent(Parts(), location, a, qt, qs, tMoves, sMoves)
    {
      ms := [];
      if a in Intersect(s.outputs, t.outputs) {
        var guardT := DisjoinEnabledParts(tMoves, e);
        guardT := Reduce(RemoveNegative(Negation(guardT)));
        var blocked := AddBlockedOutputs(location, tMoves, sMoves, guardT);
        ms := ms + blocked;
      }
      if a in Intersect(s.outputs, t.outputs) {
        var guardT := Reduce(RemoveNegative(Negation(InvariantCDD(qt, e))));
        var guardS := Reduce(RemoveNegative(Negation(InvariantCDD(qs, e))));
        var combined := Reduce(RemoveNegative(Conjunction(guardS, guardT)));
        var move := new Move.Guarded(location, Inc(newClock), combined, [Reset(newClock)]);
        ms := ms + [move.View()];
      }
    }

    /** The moves from a pair location, in the order of the rules. */
    method PairMoves(location: Location, a: Channel) returns (moves: seq<MoveView>)
      requires |location.product| >= 2
      ensures moves == ProductMoves(Parts(), location, a)
    {
      var qt := location.product[0];
      var qs := location.product[1];
      var tMoves := t.nextMoves(qt, a);
      var sMoves := s.nextMoves(qs, a);
      moves := [];
      // Rule 1
      if a in Intersect(Actions(s), Actions(t)) {
        var merged := MergeLists(tMoves, sMoves);
        moves := moves + merged;
      }
      assert moves == Synchronised(Parts(), a, tMoves, sMoves);
      // Rule 2
      ghost var before := moves;
      if a in Difference(Actions(s), Actions(t)) {
        var merged := MergeStayList(qt, sMoves);
        moves := moves + merged;
      }
      assert moves == before + ComponentAlone(Parts(), a, qt, sMoves);
      // Rules 3 to 7
      var toUniv := MoveToUniversal(location, qs, sMoves, a);
      var toInc := MovesToInc(location, a, qt, qs, tMoves, sMoves);
      moves := moves + [toUniv] + toInc;
      // Rule 8
      before := moves;
      if a in Difference(Actions(t), Actions(s)) {
        var merged := MergeWaitList(tMoves, qs);
        moves := moves + merged;
      }
      assert moves == before + SpecificationAlone(Parts(), a, tMoves, qs);
    }

    /** `getNextMoves(location, a)`. */
    method NextMoves(location: Location, a: Channel) returns (r: Result<seq<MoveView>>)
      ensures r == EagerMoves(Parts(), location, a)
    {
      var moves: seq<MoveView> := [];
      if IsProduct(location) {
        if |location.product| < 2 {
          return Failure(IndexOutOfBounds(1));
        }
        moves := PairMoves(location, a);
      } else if location.isInconsistent && a in inputs {
        // Rule 10
        var move := new Move.WithUpdates(location, Inc(newClock), [Reset(newClock)]);
        moves := moves + [move.View()];
        assert moves == [MoveView(location, Inc(Parts().newClock), [], True(), [Reset(Parts().newClock)])];
      } else if location.isUniversal {
        // Rule 9
        var move := new Move.Between(location, Univ());
        move.SetUpdates(allResets);
        moves := moves + [move.View()];
        assert moves == [MoveView(location, Univ(), [], True(), Parts().allResets)];
      }
      return Success(moves);
    }

    // -------------------------------------------------------------------
    // Building the automaton

    /** The states passed or waiting. */
    ghost function Seen(): set<State>
      reads this
    {
      SeenOf(passed, worklist)
    }

    /** `havePassed(x)`: some passed state covers x. */
    method HavePassed(x: State) returns (b: bool)
      ensures b <==> exists p :: p in passed && Covers(p, x)
    {
      var rest := passed;
      while rest != {}
        invariant rest <= passed
        invariant forall p :: p in passed && p !in rest ==> !Covers(p, x)
        decreases |rest|
      {
        Pick(rest);
        var p :| p in rest;
        if Covers(p, x) {
          return true;
        }
        rest := rest - {p};
      }
      return false;
    }

    /** `isWaitingFor(x)`: some waiting state covers x. */
    method IsWaitingFor(x: State) returns (b: bool)
      ensures b <==> exists i :: 0 <= i < |worklist| && Covers(worklist[i], x)
    {
      for i := 0 to |worklist|
        invariant forall k :: 0 <= k < i ==> !Covers(worklist[k], x)
      {
        if Covers(worklist[i], x) {
          return true;
        }
      }
      return false;
    }

    /** Queues the extrapolated target of a transition unless a passed or waiting state covers it. */
    method Enqueue(tr: Transition, extrapolate: State -> State, ghost space: set<State>) returns (target: State)
      requires extrapolate(tr.target) in space
      requires extrapolate(tr.target).location.name == tr.target.location.name
      requires IsSubset(tr.target.zone, extrapolate(tr.target).zone)
      modifies this
      ensures passed == old(passed)
      ensures target.location.name == tr.target.location.name
      ensures (worklist == old(worklist) && target == tr.target) ||
        (worklist == old(worklist) + [target] && target == extrapolate(tr.target) && target !in old(Seen()) && target in space)
      ensures exists p :: (p in passed || p in worklist) && Covers(p, tr.target)
    {
      target := tr.target;
      var covered := HavePassed(target);
      if !covered {
        covered := IsWaitingFor(target);
      }
      if !covered {
        target := extrapolate(target);
        worklist := worklist + [target];
        assert Covers(target, tr.target);
        assert worklist[|worklist| - 1] == target;
      }
    }

    /**
     * The body of the innermost loop of `getAutomaton`, for one transition
     * out of `st`: queue the extrapolated target unless it is covered, add
     * its location under its name if new, and add the edge if new.
     */
    method Visit(st: State, a: Channel, tr: Transition, g: Graph, extrapolate: State -> State, ghost space: set<State>)
      returns (g': Graph)
      requires WellFormed(g) && st.location.name in g.locationMap
      requires forall i :: 0 <= i < |worklist| ==> worklist[i] in space && worklist[i].location.name in g.locationMap
      requires extrapolate(tr.target) in space
      requires extrapolate(tr.target).location.name == tr.target.location.name
      requires IsSubset(tr.target.zone, extrapolate(tr.target).zone)
      modifies this
      ensures passed == old(passed)
      ensures WellFormed(g') && Grows(g, g')
      ensures forall i :: 0 <= i < |worklist| ==> worklist[i] in space && worklist[i].location.name in g'.locationMap
      ensures worklist == old(worklist) ||
        (worklist == old(worklist) + [extrapolate(tr.target)] && extrapolate(tr.target) !in old(Seen()))
      ensures Settled(st, a, tr, g', inputs, passed, worklist)
    {
      var target := Enqueue(tr, extrapolate, space);
      g' := Record(st, a, tr, target, g, inputs, e);
    }

    /** The loop over the transitions on one channel. */
    method ExpandChannel(st: State, a: Channel, ts: seq<Transition>, g: Graph, extrapolate: State -> State, ghost space: set<State>)
      returns (g': Graph)
      requires WellFormed(g) && st.location.name in g.locationMap
      requires forall i :: 0 <= i < |worklist| ==> worklist[i] in space && worklist[i].location.name in g.locationMap
      requires Extrapolates(extrapolate)
      requires forall tr :: tr in ts ==> extrapolate(tr.target) in space
      modifies this
      ensures passed == old(passed) && old(worklist) <= worklist
      ensures |space - SeenOf(passed, worklist)| <= old(|space - SeenOf(passed, worklist)|)
      ensures worklist != old(worklist) ==> |space - SeenOf(passed, worklist)| < old(|space - SeenOf(passed, worklist)|)
      ensures WellFormed(g') && Grows(g, g')
      ensures forall i :: 0 <= i < |worklist| ==> worklist[i] in space && worklist[i].location.name in g'.locationMap
      ensures forall tr :: tr in ts ==> Settled(st, a, tr, g', inputs, passed, worklist)
    {
      ghost var pending := |space - SeenOf(passed, worklist)|;
      ghost var w := worklist;
      g' := g;
      for j := 0 to |ts|
        invariant WellFormed(g') && Grows(g, g') && st.location.name in g'.locationMap
        invariant passed == old(passed) && w <= worklist
        invariant |space - SeenOf(passed, worklist)| <= pending
        invariant worklist != w ==> |space - SeenOf(passed, worklist)| < pending
        invariant forall i :: 0 <= i < |worklist| ==> worklist[i] in space && worklist[i].location.name in g'.locationMap
        invariant AllSettled(st, a, ts, j, g', inputs, passed, worklist)
      {
        ghost var g0, w0 := g', worklist;
        assert ts[j] in ts;
        g' := Visit(st, a, ts[j], g', extrapolate, space);
        SettleNext(st, a, ts, j, inputs, g0, passed, w0, g', worklist);
        if worklist != w0 {
          QueueStep(space, passed, w0, extrapolate(ts[j].target));
        }
      }
      AllSettledElements(st, a, ts, g', inputs, passed, worklist);
    }

    /** One pass of the channel loop of `getAutomaton`, for the state just taken off the worklist. */
    method Expand(st: State, order: seq<Channel>, g: Graph, transitions: (State, seq<MoveView>) -> seq<Transition>,
                  extrapolate: State -> State, ghost space: set<State>)
      returns (r: Result<Graph>)
      requires WellFormed(g) && st.location.name in g.locationMap && st in space
      requires forall i :: 0 <= i < |worklist| ==> worklist[i] in space && worklist[i].location.name in g.locationMap
      requires Extrapolates(extrapolate) && Closed(Parts(), inputs + outputs, space, transitions, extrapolate)
      requires forall i :: 0 <= i < |order| ==> order[i] in inputs + outputs
      modifies this
      ensures passed == old(passed) && old(worklist) <= worklist
      ensures |space - SeenOf(passed, worklist)| <= old(|space - SeenOf(passed, worklist)|)
      ensures worklist != old(worklist) ==> |space - SeenOf(passed, worklist)| < old(|space - SeenOf(passed, worklist)|)
      ensures r.Failure? <==> |order| > 0 && |st.location.product| == 1
      ensures r.Failure? ==> r.error == IndexOutOfBounds(1)
      ensures r.Success? ==> WellFormed(r.value) && Grows(g, r.value)
      ensures r.Success? ==> forall i :: 0 <= i < |worklist| ==> worklist[i] in space && worklist[i].location.name in r.value.locationMap
      ensures r.Success? ==> ChannelsSettled(Parts(), transitions, st, order, |order|, r.value, passed, worklist)
    {
      var gr := g;
      ghost var pending := |space - SeenOf(passed, worklist)|;
      ghost var w := worklist;
      for ci := 0 to |order|
        invariant WellFormed(gr) && Grows(g, gr) && st.location.name in gr.locationMap
        invariant passed == old(passed) && w <= worklist
        invariant |space - SeenOf(passed, worklist)| <= pending
        invariant worklist != w ==> |space - SeenOf(passed, worklist)| < pending
        invariant forall i :: 0 <= i < |worklist| ==> worklist[i] in space && worklist[i].location.name in gr.locationMap
        invariant ci > 0 ==> |st.location.product| != 1
        invariant ChannelsSettled(Parts(), transitions, st, order, ci, gr, passed, worklist)
      {
        var moves := NextMoves(st.location, order[ci]);
        EagerMovesFailure(Parts(), st.location, order[ci]);
        if moves.Failure? {
          return Failure(moves.error);
        }
        var ts := transitions(st, moves.value);
        assert ts == Successors(Parts(), transitions, st, order[ci]);
        ClosedStep(Parts(), inputs + outputs, space, transitions, extrapolate, st, order[ci]);
        ghost var g0, w0 := gr, worklist;
        gr := ExpandChannel(st, order[ci], ts, gr, extrapolate, space);
        ChannelsSettleNext(Parts(), transitions, st, order, ci, g0, passed, w0, gr, worklist);
      }
      return Success(gr);
    }

    /** `worklist.remove()`, then `passed.add(state)`. */
    method Pop() returns (st: State)
      requires worklist != []
      modifies this
      ensures st == old(worklist[0]) && worklist == old(worklist[1..]) && passed == old(passed) + {st}
    {
      st := worklist[0];
      worklist := worklist[1..];
      passed := passed + {st};
    }

    /** One round of the outer loop of `getAutomaton`: take the head of the worklist, pass it and expand it. */
    method ExploreStep(order: seq<Channel>, g: Graph, transitions: (State, seq<MoveView>) -> seq<Transition>,
                       extrapolate: State -> State, ghost space: set<State>, ghost explored: set<State>)
      returns (r: Result<Graph>, st: State)
      requires worklist != [] && WellFormed(g)
      requires forall i :: 0 <= i < |worklist| ==> worklist[i] in space && worklist[i].location.name in g.locationMap
      requires Extrapolates(extrapolate) && Closed(Parts(), inputs + outputs, space, transitions, extrapolate)
      requires forall i :: 0 <= i < |order| ==> order[i] in inputs + outputs
      requires forall x :: x in explored ==> ChannelsSettled(Parts(), transitions, x, order, |order|, g, passed, worklist)
      modifies this
      ensures st == old(worklist[0]) && passed == old(passed) + {st}
      ensures |space - SeenOf(passed, worklist)| < old(|space - SeenOf(passed, worklist)|) ||
        (|space - SeenOf(passed, worklist)| == old(|space - SeenOf(passed, worklist)|) && |worklist| < old(|worklist|))
      ensures r.Failure? ==> r.error == IndexOutOfBounds(1) && |st.location.product| == 1
      ensures r.Success? ==> WellFormed(r.value) && Grows(g, r.value)
      ensures r.Success? ==> forall i :: 0 <= i < |worklist| ==> worklist[i] in space && worklist[i].location.name in r.value.locationMap
      ensures r.Success? ==> forall x :: x in explored + {st} ==> ChannelsSettled(Parts(), transitions, x, order, |order|, r.value, passed, worklist)
    {
      ghost var p0, w0 := passed, worklist;
      st := Pop();
      PopKeepsSeen(p0, w0);
      ghost var w1 := worklist;
      r := Expand(st, order, g, transitions, extrapolate, space);
      if r.Success? {
        SeenGrows(passed, w1, worklist);
        AllChannelsSettledKept(Parts(), transitions, explored, order, g, p0, w0, r.value, passed, worklist);
      }
    }

    /** The worklist loop of `getAutomaton`, from the initial state until nothing is waiting. */
    method Explore(initial: Location, initialState: State, order: seq<Channel>, transitions: (State, seq<MoveView>) -> seq<Transition>,
                   extrapolate: State -> State, ghost space: set<State>)
      returns (r: Result<Graph>, ghost explored: set<State>)
      requires worklist == []
      requires initialState in space && initialState.location.name == initial.name
      requires Extrapolates(extrapolate) && Closed(Parts(), inputs + outputs, space, transitions, extrapolate)
      requires forall i :: 0 <= i < |order| ==> order[i] in inputs + outputs
      modifies this
      ensures explored <= passed
      ensures r.Failure? ==> r.error == IndexOutOfBounds(1) && exists st :: st in passed && |st.location.product| == 1
      ensures r.Success? ==> WellFormed(r.value) && initial in r.value.locations && worklist == [] && initialState in explored
      ensures r.Success? ==> forall x :: x in explored ==> ChannelsSettled(Parts(), transitions, x, order, |order|, r.value, passed, [])
    {
      var g := Graph(map[initial.name := initial], [initial], []);
      worklist := worklist + [initialState];
      explored := {};
      while worklist != []
        invariant WellFormed(g) && initial in g.locations
        invariant forall i :: 0 <= i < |worklist| ==> worklist[i] in space && worklist[i].location.name in g.locationMap
        invariant explored <= passed
        invariant initialState in explored || (worklist != [] && worklist[0] == initialState)
        invariant forall x :: x in explored ==> ChannelsSettled(Parts(), transitions, x, order, |order|, g, passed, worklist)
        decreases |space - SeenOf(passed, worklist)|, |worklist|
      {
        var next, st := ExploreStep(order, g, transitions, extrapolate, space, explored);
        if next.Failure? {
          assert st in passed && |st.location.product| == 1;
          return Failure(next.error), explored;
        }
        g := next.value;
        explored := explored + {st};
      }
      return Success(g), explored;
    }

    /**
     * `getAutomaton()`: explores the quotient's symbolic states from the
     * initial one, channel by channel, and builds the automaton whose
     * locations are the location names reached and whose edges are the
     * transitions taken. The exploration is over `space`, a finite set of
     * states that holds the extrapolated successors of its states on the
     * quotient's channels.
     */
    method GetAutomaton(initial: Location, initialState: State, transitions: (State, seq<MoveView>) -> seq<Transition>,
                        extrapolate: State -> State, ghost space: set<State>)
      returns (r: Result<Automaton>, ghost explored: set<State>)
      requires worklist == []
      requires initialState in space && initialState.location.name == initial.name
      requires Extrapolates(extrapolate) && Closed(Parts(), inputs + outputs, space, transitions, extrapolate)
      modifies this
      ensures explored <= passed
      ensures r.Failure? ==> r.error == IndexOutOfBounds(1) && exists st :: st in passed && |st.location.product| == 1
      ensures r.Success? ==> fresh(r.value) && worklist == [] && initialState in explored
      ensures r.Success? ==> r.value.name == Name() && r.value.clocks == clocks.items && r.value.bvs == bvs.items
      ensures r.Success? ==> initial in r.value.locations
      ensures r.Success? ==> forall i, j :: 0 <= i < j < |r.value.locations| ==> r.value.locations[i].name != r.value.locations[j].name
      ensures r.Success? ==> forall k :: 0 <= k < |r.value.edges| ==>
        r.value.edges[k].source in r.value.locations && r.value.edges[k].target in r.value.locations
      ensures r.Success? ==> forall k, l :: 0 <= k < l < |r.value.edges| ==> r.value.edges[k] != r.value.edges[l]
      ensures r.Success? ==> forall st, a, tr :: st in explored && a in inputs + outputs && tr in Successors(Parts(), transitions, st, a) ==>
        (exists p :: p in passed && Covers(p, tr.target)) &&
        exists src, tgt :: (src in r.value.locations && tgt in r.value.locations &&
          src.name == st.location.name && tgt.name == tr.target.location.name &&
          Edge(src, tgt, a, a in inputs, tr.guard, tr.updates) in r.value.edges)
    {
      var order := Ordering(outputs + inputs);
      forall i | 0 <= i < |order|
        ensures order[i] in inputs + outputs
      {
        assert order[i] in order;
      }
      var built;
      built, explored := Explore(initial, initialState, order, transitions, extrapolate, space);
      if built.Failure? {
        return Failure(built.error), explored;
      }
      var g := built.value;
      var automaton := new Automaton(Name(), g.locations, g.edges, clocks.items, bvs.items, false, e);
      assert automaton.locations == g.locations && automaton.edges == g.edges;
      GraphShape(g);
      ExploredMeaning(Parts(), transitions, explored, order, outputs + inputs, g, passed);
      r := Success(automaton);
    }
  }
}
