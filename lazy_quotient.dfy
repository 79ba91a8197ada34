/**
 * The lazy quotient S // T of a specification S by a component T. Unlike
 * the eager quotient it builds no automaton: it only computes the moves out
 * of a pair location on demand. Its sinks are the locations "univ"
 * (universal) and "inc" (urgent and inconsistent), both with invariant
 * true. Pair locations it builds list the specification's location first.
 */
module LazyQuotients {
  import opened Failures
  import opened Zones
  import opened Identifiers
  import opened Iteration
  import opened Guards
  import opened Locations
  import opened Moves
  import opened Systems
  import opened Containers
  import Quotients

  // ---------------------------------------------------------------------
  // Sinks and messages

  /** `universal_location`: "univ", invariant true, universal. */
  function LazyUniv(): (l: Location)
    ensures l.name == "univ" && l.invariantGuard == TrueGuard && l.product == []
    ensures l.isUniversal && !l.isInconsistent && !l.isUrgent && !l.isInitial
  {
    SimpleLocation("univ", TrueGuard, false, false, true, false, 0, 0)
  }

  /** `inconsistent_location`: "inc", invariant true, urgent and inconsistent. */
  function LazyInc(): (l: Location)
    ensures l.name == "inc" && l.invariantGuard == TrueGuard && l.product == []
    ensures l.isInconsistent && l.isUrgent && !l.isUniversal && !l.isInitial
  {
    SimpleLocation("inc", TrueGuard, false, true, false, true, 0, 0)
  }

  /** The channel names, separated by ", ", as `Collectors.joining(", ")` writes them. */
  function JoinNames(order: seq<Channel>): (r: string)
    ensures order == [] ==> r == ""
    ensures |order| == 1 ==> r == order[0].name
  {
    if order == [] then ""
    else if |order| == 1 then order[0].name
    else JoinNames(order[..|order| - 1]) + ", " + order[|order| - 1].name
  }

  /** The length of the joined names: every name and one separator between each two. */
  lemma {:induction false} JoinNamesLength(order: seq<Channel>)
    ensures |JoinNames(order)| == NamesLength(order) + (if order == [] then 0 else 2 * (|order| - 1))
  {
    if |order| > 1 {
      JoinNamesLength(order[..|order| - 1]);
    }
  }

  function NamesLength(order: seq<Channel>): nat {
    if order == [] then 0 else NamesLength(order[..|order| - 1]) + |order[|order| - 1].name|
  }

  const DisjointnessPrefix := "Specification output and component inputs are not disjoint, caused by "

  /** The constructor's message: the offending channels between braces, in the set's iteration order. */
  function DisjointnessMessage(order: seq<Channel>): (m: string)
    ensures |m| == |DisjointnessPrefix| + |JoinNames(order)| + 2
    ensures m[..|DisjointnessPrefix|] == DisjointnessPrefix
    ensures m[|DisjointnessPrefix|] == '{' && m[|m| - 1] == '}'
    ensures m[|DisjointnessPrefix| + 1..|m| - 1] == JoinNames(order)
  {
    DisjointnessPrefix + "{" + JoinNames(order) + "}"
  }

  /** `String.join(delimiter, elements)`: the elements with the delimiter between each two. */
  function JoinWith(delimiter: string, elements: seq<string>): (r: string)
    ensures |elements| == 1 ==> r == elements[0]
  {
    if elements == [] then ""
    else if |elements| == 1 then elements[0]
    else JoinWith(delimiter, elements[..|elements| - 1]) + delimiter + elements[|elements| - 1]
  }

  const ActionMessageFormat := "Action %s is not present in the action set"

  /** The message `getNextMoves` means to raise for an unknown channel: the format filled in with its name. */
  function UnknownActionMessage(a: Channel): (m: string)
    ensures |m| == |a.name| + 40
    ensures m[..7] == "Action " && m[7..7 + |a.name|] == a.name
    ensures m[7 + |a.name|..] == " is not present in the action set"
  {
    "Action " + a.name + " is not present in the action set"
  }

  /**
   * As written, the message is built with `String.join(format, name)`,
   * which joins a single element and so yields the bare channel name: the
   * format text never appears.
   */
  lemma ActionMessageIsBareName(a: Channel)
    ensures JoinWith(ActionMessageFormat, [a.name]) == a.name
    ensures JoinWith(ActionMessageFormat, [a.name]) != UnknownActionMessage(a)
  {
    assert |UnknownActionMessage(a)| > |a.name|;
  }

  // ---------------------------------------------------------------------
  // Merging moves

  /** The lazy quotient's fixed parts its moves depend on: T is the component, S the specification. */
  datatype LazySetup = LazySetup(t: System, s: System, inputs: set<Channel>, outputs: set<Channel>, newClock: Clock, e: Engine)

  /**
   * `merge(s_move, t_move)`: from the pair of sources, with their invariants
   * conjoined, to the pair of targets, with invariant true, along S's edges
   * then T's, the guard narrowed to the enabled part. Unlike the eager
   * quotient, the pair is never collapsed.
   */
  function LazyCombine(sm: MoveView, tm: MoveView, e: Engine): MoveView {
    var m := FromEdges(Product([sm.source, tm.source], e.toGuard(ConjoinInvariants([sm.source, tm.source], e))),
      Product([sm.target, tm.target], e.toGuard(True())), sm.edges + tm.edges, e);
    m.(guard := Conjunction(m.guard, Enabled(m, e)))
  }

  function LazyCombiner(e: Engine): (MoveView, MoveView) -> MoveView {
    (x, y) => LazyCombine(x, y, e)
  }

  /**
   * A merged move runs S's edges then T's, with their updates in that
   * order, and is allowed exactly where its enabled part holds, which lies
   * within the source pair's invariant.
   */
  lemma LazyCombineMeaning(sm: MoveView, tm: MoveView, e: Engine)
    ensures var r := LazyCombine(sm, tm, e);
      r.source.product == [sm.source, tm.source] && r.target.product == [sm.target, tm.target] &&
      r.edges == sm.edges + tm.edges &&
      r.updates == ConcatUpdates(sm.edges) + ConcatUpdates(tm.edges) &&
      forall v :: Contains(r.guard, v) <==>
        (forall i :: 0 <= i < |r.edges| ==> Contains(EdgeGuardCDD(r.edges[i], e), v)) &&
        Contains(InvariantCDD(r.source, e), v) &&
        Contains(e.back(InvariantCDD(r.target, e), ConjoinGuards(r.edges, e), r.updates), v)
  {
    var r := LazyCombine(sm, tm, e);
    ConcatUpdatesAppend(sm.edges, tm.edges);
    ConjoinGuardsMeaning(r.edges, e);
  }

  /**
   * Every merged move has a satisfiable guard inside the source pair's
   * invariant, and goes from a pair of sources to the pair of targets of
   * one S-move and one T-move, specification first.
   */
  lemma LazyMergedMove(xs: seq<MoveView>, ys: seq<MoveView>, e: Engine, m: MoveView)
    requires m in Cartesian(xs, ys, LazyCombiner(e))
    ensures IsNotFalse(m.guard)
    ensures forall v :: Contains(m.guard, v) ==> Contains(InvariantCDD(m.source, e), v)
    ensures exists i, j :: (0 <= i < |xs| && 0 <= j < |ys| &&
      m.source.product == [xs[i].source, ys[j].source] &&
      m.target.product == [xs[i].target, ys[j].target] &&
      m.edges == xs[i].edges + ys[j].edges)
  {
    CartesianMemberIsCombination(xs, ys, LazyCombiner(e), m);
    var i, j :| 0 <= i < |xs| && 0 <= j < |ys| && m == LazyCombiner(e)(xs[i], ys[j]);
    LazyCombineMeaning(xs[i], ys[j], e);
  }

  /** A merged move always ends in a pair location, so never in a sink. */
  lemma LazyMergedAvoid(xs: seq<MoveView>, ys: seq<MoveView>, e: Engine, l: Location)
    requires l.product == []
    ensures Towards(Cartesian(xs, ys, LazyCombiner(e)), l) == []
  {
    forall m | m in Cartesian(xs, ys, LazyCombiner(e))
      ensures m.target != l
    {
      LazyMergedMove(xs, ys, e, m);
    }
    TowardsNone(Cartesian(xs, ys, LazyCombiner(e)), l);
  }

  // ---------------------------------------------------------------------
  // The rules

  /** Rule 1: a channel of both operands, S's and T's moves merged pairwise, S's outermost. */
  function Synchronised(q: LazySetup, a: Channel, sMoves: seq<MoveView>, tMoves: seq<MoveView>): seq<MoveView> {
    if a in Actions(q.s) && a in Actions(q.t) then Cartesian(sMoves, tMoves, LazyCombiner(q.e)) else []
  }

  /** Rule 2: a channel of S only; the loop at the second operand location merged with T's moves. */
  function SecondStays(q: LazySetup, a: Channel, qs: Location, tMoves: seq<MoveView>): seq<MoveView> {
    if a in Actions(q.s) && a !in Actions(q.t) then Cartesian([Plain(qs, qs)], tMoves, LazyCombiner(q.e)) else []
  }

  /**
   * Rules 3 to 5: the single move to `univ`, on an output of S guarded by
   * the part where none of T's moves is enabled, otherwise unguarded; it
   * resets nothing.
   */
  function UniversalMove(q: LazySetup, location: Location, a: Channel, tMoves: seq<MoveView>): MoveView {
    if a in q.s.outputs then MoveView(location, LazyUniv(), [], Quotients.Blocked(tMoves, q.e), [])
    else Plain(location, LazyUniv())
  }

  /** Rule 6: per move of S, a move to `inc` where it is enabled and no move of T is. */
  function BlockedOutputs(q: LazySetup, location: Location, tMoves: seq<MoveView>, sMoves: seq<MoveView>): seq<MoveView> {
    seq(|sMoves|, i requires 0 <= i < |sMoves| =>
      MoveView(location, LazyInc(), [], Conjunction(Enabled(sMoves[i], q.e), Quotients.Blocked(tMoves, q.e)),
        [Quotients.Reset(q.newClock)]))
  }

  /** Rule 7: a move to `inc` where the second operand's invariant fails and the first's holds. */
  function InvariantViolation(q: LazySetup, location: Location, qt: Location, qs: Location): MoveView {
    MoveView(location, LazyInc(), [], Conjunction(Negation(InvariantCDD(qs, q.e)), InvariantCDD(qt, q.e)),
      [Quotients.Reset(q.newClock)])
  }

  /** Rules 6 and 7, on an output of both operands only. */
  function ToInconsistent(q: LazySetup, location: Location, a: Channel, qt: Location, qs: Location,
                          tMoves: seq<MoveView>, sMoves: seq<MoveView>): seq<MoveView> {
    if a in q.s.outputs && a in q.t.outputs then BlockedOutputs(q, location, tMoves, sMoves) + [InvariantViolation(q, location, qt, qs)]
    else []
  }

  /** Rule 8: a channel of T only; S's moves merged with the loop at the first operand location. */
  function FirstStays(q: LazySetup, a: Channel, qt: Location, sMoves: seq<MoveView>): seq<MoveView> {
    if a in Actions(q.t) && a !in Actions(q.s) then Cartesian(sMoves, [Plain(qt, qt)], LazyCombiner(q.e)) else []
  }

  /** Rules 9 and 10: the loops of a universal location to `univ` and of an inconsistent one to `inc` on inputs. */
  function SinkLoops(q: LazySetup, location: Location, a: Channel): seq<MoveView> {
    (if location.isUniversal then [Plain(location, LazyUniv())] else []) +
    (if location.isInconsistent && a in q.inputs then [MoveView(location, LazyInc(), [], True(), [Quotients.Reset(q.newClock)])] else [])
  }

  /**
   * The moves from a location with at least two operands, rule by rule in
   * the order the source adds them; the first operand is handed to T and
   * the second to S.
   */
  function PairMoves(q: LazySetup, location: Location, a: Channel): seq<MoveView>
    requires |location.product| >= 2
  {
    var qt := location.product[0];
    var qs := location.product[1];
    var tMoves := q.t.nextMoves(qt, a);
    var sMoves := q.s.nextMoves(qs, a);
    Synchronised(q, a, sMoves, tMoves) + SecondStays(q, a, qs, tMoves) + [UniversalMove(q, location, a, tMoves)] +
    ToInconsistent(q, location, a, qt, qs, tMoves, sMoves) + FirstStays(q, a, qt, sMoves) + SinkLoops(q, location, a)
  }

  /**
   * `getNextMoves(location, a)`: an unknown channel is refused; then the
   * location's first and second operands are read, which fails for a
   * location with fewer than two.
   */
  function LazyMoves(q: LazySetup, location: Location, a: Channel): Result<seq<MoveView>> {
    if a !in q.inputs + q.outputs then Failure(IllegalArgument(UnknownActionMessage(a)))
    else if |location.product| == 0 then Failure(IndexOutOfBounds(0))
    else if |location.product| == 1 then Failure(IndexOutOfBounds(1))
    else Success(PairMoves(q, location, a))
  }

  // ---------------------------------------------------------------------
  // What the rules promise

  /**
   * The move computation fails exactly on an unknown channel or a location
   * with fewer than two operands, and says which.
   */
  lemma LazyMovesFailure(q: LazySetup, location: Location, a: Channel)
    ensures LazyMoves(q, location, a).Failure? <==> a !in q.inputs + q.outputs || |location.product| < 2
    ensures a !in q.inputs + q.outputs ==> LazyMoves(q, location, a).error == IllegalArgument(UnknownActionMessage(a))
    ensures a in q.inputs + q.outputs && |location.product| < 2 ==>
      LazyMoves(q, location, a).error == IndexOutOfBounds(|location.product|)
  {
  }

  /**
   * The sinks are not pairs, so asking for their moves fails: the loops of
   * rules 9 and 10 are reached only from pair locations that are universal
   * or inconsistent.
   */
  lemma SinksHaveNoMoves(q: LazySetup, a: Channel)
    ensures LazyMoves(q, LazyUniv(), a).Failure? && LazyMoves(q, LazyInc(), a).Failure?
  {
  }

  /** Only parts three, four and six contribute when the others have no move towards the location. */
  lemma TowardsOnlySome(p1: seq<MoveView>, p2: seq<MoveView>, p3: seq<MoveView>, p4: seq<MoveView>, p5: seq<MoveView>,
                        p6: seq<MoveView>, l: Location)
    requires Towards(p1, l) == [] && Towards(p2, l) == [] && Towards(p5, l) == []
    ensures Towards(p1 + p2 + p3 + p4 + p5 + p6, l) == Towards(p3, l) + Towards(p4, l) + Towards(p6, l)
  {
    var t3, t4, t6 := Towards(p3, l), Towards(p4, l), Towards(p6, l);
    TowardsAppend(p1, p2, l);
    TowardsAppend(p1 + p2, p3, l);
    assert Towards(p1 + p2 + p3, l) == t3;
    TowardsAppend(p1 + p2 + p3, p4, l);
    TowardsAppend(p1 + p2 + p3 + p4, p5, l);
    assert Towards(p1 + p2 + p3 + p4 + p5, l) == t3 + t4;
    TowardsAppend(p1 + p2 + p3 + p4 + p5, p6, l);
  }

  /** The merged parts of a pair location's moves (rules 1, 2 and 8) never reach a sink. */
  lemma MergedPartsAvoid(q: LazySetup, a: Channel, qt: Location, qs: Location, tMoves: seq<MoveView>, sMoves: seq<MoveView>, l: Location)
    requires l.product == []
    ensures Towards(Synchronised(q, a, sMoves, tMoves), l) == []
    ensures Towards(SecondStays(q, a, qs, tMoves), l) == []
    ensures Towards(FirstStays(q, a, qt, sMoves), l) == []
  {
    LazyMergedAvoid(sMoves, tMoves, q.e, l);
    LazyMergedAvoid([Plain(qs, qs)], tMoves, q.e, l);
    LazyMergedAvoid(sMoves, [Plain(qt, qt)], q.e, l);
  }

  /** The loop of rule 9 goes to `univ` and the loop of rule 10 to `inc`. */
  lemma SinkLoopsTowards(q: LazySetup, location: Location, a: Channel)
    ensures Towards(SinkLoops(q, location, a), LazyUniv()) == (if location.isUniversal then [Plain(location, LazyUniv())] else [])
    ensures Towards(SinkLoops(q, location, a), LazyInc()) ==
      (if location.isInconsistent && a in q.inputs then [MoveView(location, LazyInc(), [], True(), [Quotients.Reset(q.newClock)])] else [])
  {
    var univ, inc := LazyUniv(), LazyInc();
    var loop: seq<MoveView> := if location.isUniversal then [Plain(location, univ)] else [];
    var incLoop: seq<MoveView> := if location.isInconsistent && a in q.inputs then [MoveView(location, inc, [], True(), [Quotients.Reset(q.newClock)])] else [];
    assert SinkLoops(q, location, a) == loop + incLoop;
    assert univ.name != inc.name;
    TowardsAppend(loop, incLoop, univ);
    TowardsAppend(loop, incLoop, inc);
    assert Towards(loop, univ) == loop && Towards(incLoop, univ) == [];
    assert Towards(loop, inc) == [] && Towards(incLoop, inc) == incLoop;
    assert loop + [] == loop && [] + incLoop == incLoop;
  }

  lemma JoinParts(t: seq<MoveView>, t3: seq<MoveView>, t4: seq<MoveView>, t6: seq<MoveView>,
                  r3: seq<MoveView>, r4: seq<MoveView>, r6: seq<MoveView>)
    requires t == t3 + t4 + t6 && t3 == r3 && t4 == r4 && t6 == r6
    ensures r3 == [] ==> t == r4 + r6
    ensures r4 == [] ==> t == r3 + r6
  {
    assert r3 == [] ==> r3 + r4 == r4;
    assert r4 == [] ==> r3 + r4 == r3;
  }

  /** The moves of a pair location towards a sink come only from rules 3 to 7, 9 and 10. */
  lemma TowardsSink(q: LazySetup, location: Location, a: Channel, l: Location)
    requires |location.product| >= 2 && l.product == []
    ensures var qt, qs := location.product[0], location.product[1];
      var tMoves, sMoves := q.t.nextMoves(qt, a), q.s.nextMoves(qs, a);
      Towards(PairMoves(q, location, a), l) ==
        Towards([UniversalMove(q, location, a, tMoves)], l) + Towards(ToInconsistent(q, location, a, qt, qs, tMoves, sMoves), l) +
        Towards(SinkLoops(q, location, a), l)
  {
    var qt, qs := location.product[0], location.product[1];
    var tMoves, sMoves := q.t.nextMoves(qt, a), q.s.nextMoves(qs, a);
    var p1, p2, p3 := Synchronised(q, a, sMoves, tMoves), SecondStays(q, a, qs, tMoves), [UniversalMove(q, location, a, tMoves)];
    var p4, p5, p6 := ToInconsistent(q, location, a, qt, qs, tMoves, sMoves), FirstStays(q, a, qt, sMoves), SinkLoops(q, location, a);
    assert PairMoves(q, location, a) == p1 + p2 + p3 + p4 + p5 + p6;
    MergedPartsAvoid(q, a, qt, qs, tMoves, sMoves, l);
    TowardsOnlySome(p1, p2, p3, p4, p5, p6, l);
  }

  /** The moves of rules 6 and 7 all go to `inc`, none to `univ`. */
  lemma ToInconsistentTowards(q: LazySetup, location: Location, a: Channel, qt: Location, qs: Location,
                              tMoves: seq<MoveView>, sMoves: seq<MoveView>)
    ensures var p := ToInconsistent(q, location, a, qt, qs, tMoves, sMoves);
      Towards(p, LazyInc()) == p && Towards(p, LazyUniv()) == []
  {
    var p := ToInconsistent(q, location, a, qt, qs, tMoves, sMoves);
    assert forall i :: 0 <= i < |p| ==> p[i].target == LazyInc();
    assert LazyInc().name != LazyUniv().name;
    TowardsEvery(p, LazyInc());
    TowardsNone(p, LazyUniv());
  }

  /** The move of rules 3 to 5 goes to `univ`, not to `inc`. */
  lemma UniversalMoveTowards(q: LazySetup, location: Location, a: Channel, tMoves: seq<MoveView>)
    ensures var p := [UniversalMove(q, location, a, tMoves)];
      Towards(p, LazyUniv()) == p && Towards(p, LazyInc()) == []
  {
    var p := [UniversalMove(q, location, a, tMoves)];
    assert LazyInc().name != LazyUniv().name;
    TowardsEvery(p, LazyUniv());
    TowardsNone(p, LazyInc());
  }

  /** A pair location has one move to `univ` from rules 3 to 5, and one more when it is universal (rule 9). */
  lemma MovesToUniversal(q: LazySetup, location: Location, a: Channel)
    requires |location.product| >= 2
    ensures var qt := location.product[0];
      Towards(PairMoves(q, location, a), LazyUniv()) ==
        [UniversalMove(q, location, a, q.t.nextMoves(qt, a))] +
        (if location.isUniversal then [Plain(location, LazyUniv())] else [])
  {
    var qt, qs := location.product[0], location.product[1];
    var tMoves, sMoves := q.t.nextMoves(qt, a), q.s.nextMoves(qs, a);
    var u := LazyUniv();
    var p3, p4 := [UniversalMove(q, location, a, tMoves)], ToInconsistent(q, location, a, qt, qs, tMoves, sMoves);
    TowardsSink(q, location, a, u);
    UniversalMoveTowards(q, location, a, tMoves);
    ToInconsistentTowards(q, location, a, qt, qs, tMoves, sMoves);
    SinkLoopsTowards(q, location, a);
    var loops: seq<MoveView> := if location.isUniversal then [Plain(location, u)] else [];
    JoinParts(Towards(PairMoves(q, location, a), u), Towards(p3, u), Towards(p4, u), Towards(SinkLoops(q, location, a), u), p3, [], loops);
  }

  /**
   * The moves of a pair location to `inc`: those of rules 6 and 7 on a
   * common output, then the loop of rule 10 when the location is
   * inconsistent and the channel an input.
   */
  lemma MovesToInconsistent(q: LazySetup, location: Location, a: Channel)
    requires |location.product| >= 2
    ensures var qt, qs := location.product[0], location.product[1];
      Towards(PairMoves(q, location, a), LazyInc()) ==
        ToInconsistent(q, location, a, qt, qs, q.t.nextMoves(qt, a), q.s.nextMoves(qs, a)) +
        (if location.isInconsistent && a in q.inputs then [MoveView(location, LazyInc(), [], True(), [Quotients.Reset(q.newClock)])] else [])
  {
    var qt, qs := location.product[0], location.product[1];
    var tMoves, sMoves := q.t.nextMoves(qt, a), q.s.nextMoves(qs, a);
    var u := LazyInc();
    var p3, p4 := [UniversalMove(q, location, a, tMoves)], ToInconsistent(q, location, a, qt, qs, tMoves, sMoves);
    TowardsSink(q, location, a, u);
    UniversalMoveTowards(q, location, a, tMoves);
    ToInconsistentTowards(q, location, a, qt, qs, tMoves, sMoves);
    SinkLoopsTowards(q, location, a);
    var loops: seq<MoveView> := if location.isInconsistent && a in q.inputs then [MoveView(location, u, [], True(), [Quotients.Reset(q.newClock)])] else [];
    JoinParts(Towards(PairMoves(q, location, a), u), Towards(p3, u), Towards(p4, u), Towards(SinkLoops(q, location, a), u), [], p4, loops);
  }

  /**
   * The move to `univ`: on an output of S it is allowed exactly where none
   * of T's moves is enabled, otherwise everywhere.
   */
  lemma UniversalGuardMeaning(q: LazySetup, location: Location, a: Channel, tMoves: seq<MoveView>)
    ensures a !in q.s.outputs ==> UniversalMove(q, location, a, tMoves).guard == True()
    ensures a in q.s.outputs ==> forall v :: Contains(UniversalMove(q, location, a, tMoves).guard, v) <==>
      forall i :: 0 <= i < |tMoves| ==> !Contains(Enabled(tMoves[i], q.e), v)
  {
    Quotients.BlockedMeaning(tMoves, q.e);
  }

  /** Rule 6: the i-th move is allowed exactly where S's i-th move is enabled and none of T's moves is. */
  lemma BlockedOutputsMeaning(q: LazySetup, location: Location, tMoves: seq<MoveView>, sMoves: seq<MoveView>, i: int)
    requires 0 <= i < |sMoves|
    ensures var r := BlockedOutputs(q, location, tMoves, sMoves);
      |r| == |sMoves| && r[i].target == LazyInc() && r[i].updates == [Quotients.Reset(q.newClock)] &&
      forall v :: Contains(r[i].guard, v) <==>
        Contains(Enabled(sMoves[i], q.e), v) && forall j :: 0 <= j < |tMoves| ==> !Contains(Enabled(tMoves[j], q.e), v)
  {
    Quotients.BlockedMeaning(tMoves, q.e);
  }

  /** Rule 7: allowed exactly where the second operand's invariant fails and the first's holds. */
  lemma InvariantViolationMeaning(q: LazySetup, location: Location, qt: Location, qs: Location)
    ensures forall v :: Contains(InvariantViolation(q, location, qt, qs).guard, v) <==>
      !Contains(InvariantCDD(qs, q.e), v) && Contains(InvariantCDD(qt, q.e), v)
  {
  }

  /** On a channel neither operand knows (such as `i_new`), a pair location has only the unguarded move to `univ` and its sink loops. */
  lemma ForeignChannel(q: LazySetup, location: Location, a: Channel)
    requires |location.product| >= 2
    requires a !in Actions(q.s) && a !in Actions(q.t)
    ensures PairMoves(q, location, a) == [Plain(location, LazyUniv())] + SinkLoops(q, location, a)
  {
  }

  /**
   * A synchronised move (rule 1) ends in a pair whose first operand is a
   * target of S and whose second is a target of T: the reverse of the
   * order `getNextMoves` reads a pair in.
   */
  lemma SynchronisedTargetOrder(q: LazySetup, a: Channel, sMoves: seq<MoveView>, tMoves: seq<MoveView>, m: MoveView)
    requires m in Synchronised(q, a, sMoves, tMoves)
    ensures exists i, j :: (0 <= i < |sMoves| && 0 <= j < |tMoves| &&
      m.target.product == [sMoves[i].target, tMoves[j].target])
  {
    LazyMergedMove(sMoves, tMoves, q.e, m);
  }

  // ---------------------------------------------------------------------
  // The lazy quotient object

  /** `LazyQuotient(t, s)`: refuses operands where an output of S is an input of T. */
  method NewLazyQuotient(t: System, s: System, e: Engine) returns (r: Result<LazyQuotient>)
    ensures r.Failure? <==> exists c :: c in s.outputs && c in t.inputs
    ensures r.Failure? ==> exists order :: (IsOrdering(order, Intersect(s.outputs, t.inputs)) &&
      r.error == IllegalArgument(DisjointnessMessage(order)))
    ensures r.Success? ==> fresh(r.value) && r.value.specification == s && r.value.component == t && r.value.e == e
    ensures r.Success? ==>
      r.value.inputs == QuotientInputs(t, s) && r.value.outputs == QuotientOutputs(t, s) &&
      r.value.newAction == NewChannel && r.value.universal == LazyUniv() && r.value.inconsistent == LazyInc() &&
      r.value.newClock == Quotients.QuoNew &&
      r.value.clocks.items == AddedAll(AddedAll([Quotients.QuoNew], s.clocks), t.clocks) &&
      r.value.bvs.items == AddedAll(AddedAll([], s.bvs), t.bvs)
  {
    var common := Intersect(s.outputs, t.inputs);
    if common != {} {
      var order := Ordering(common);
      Pick(common);
      return Failure(IllegalArgument(DisjointnessMessage(order)));
    }
    assert forall c :: c in s.outputs ==> c !in t.inputs by {
      forall c | c in s.outputs
        ensures c !in t.inputs
      {
        assert c in t.inputs ==> c in common;
      }
    }
    var q := new LazyQuotient(t, s, e);
    return Success(q);
  }

  class LazyQuotient {
    const specification: System
    const component: System
    const inputs: set<Channel>
    const outputs: set<Channel>
    const universal: Location := LazyUniv()
    const inconsistent: Location := LazyInc()
    const newAction: Channel := NewChannel
    const newClock: Clock
    const clocks: UniqueNamedContainer<()>
    const bvs: UniqueNamedContainer<bool>
    /** The constraint engine the quotient computes with. */
    const e: Engine

    /**
     * The checked constructor body: the channel algebra, the sinks, the new
     * clock first, then S's and T's clocks and variables.
     */
    constructor(t: System, s: System, e: Engine)
      requires s.outputs !! t.inputs
      ensures specification == s && component == t && this.e == e
      ensures inputs == QuotientInputs(t, s) && outputs == QuotientOutputs(t, s) && newAction == NewChannel
      ensures universal == LazyUniv() && inconsistent == LazyInc()
      ensures fresh(clocks) && fresh(bvs)
      ensures clocks.items == AddedAll(AddedAll([Quotients.QuoNew], s.clocks), t.clocks)
      ensures bvs.items == AddedAll(AddedAll([], s.bvs), t.bvs)
      ensures newClock == Quotients.QuoNew && |clocks.items| >= 1 && SameItem(clocks.items[0], newClock)
    {
      var clockItems := new UniqueNamedContainer<()>.Empty();
      clockItems.Add(Quotients.QuoNew);
      Quotients.FirstClock(s.clocks, t.clocks);
      clockItems.AddAll(s.clocks);
      clockItems.AddAll(t.clocks);
      var bvItems := new UniqueNamedContainer<bool>.Empty();
      bvItems.AddAll(s.bvs);
      bvItems.AddAll(t.bvs);
      this.inputs := t.inputs + s.outputs + {NewChannel};
      this.outputs := (t.outputs - s.outputs) + (s.inputs - t.inputs);
      this.newClock := Quotients.QuoNew;
      this.clocks := clockItems;
      this.bvs := bvItems;
      this.specification := s;
      this.component := t;
      this.e := e;
    }

    /** `getName()`: the specification's name, "//", the component's name. */
    function Name(): string {
      QuotientName(specification, component)
    }

    /** `getActions()`. */
    function GetActions(): set<Channel> {
      inputs + outputs
    }

    /** The fixed parts the moves depend on. */
    function Parts(): LazySetup {
      LazySetup(component, specification, inputs, outputs, newClock, e)
    }

    /** `createNewClockReset()`. */
    function NewClockReset(): Update {
      Quotients.Reset(newClock)
    }

    /** `merge(specification, component)` on locations (not used by the moves). */
    method MergeLocations(spec: Location, comp: Location) returns (l: Location)
      ensures l == Quotients.MergeTarget(spec, comp)
    {
      if spec == comp && spec.isUniversal && comp.isInconsistent {
        l := CopyLocation(spec);
      } else {
        var product := CreateProductCorrected([spec, comp], TrueGuard);
        l := product.value;
      }
    }

    /** `merge(s_move, t_move)`. */
    method MergeMoves(sm: MoveView, tm: MoveView) returns (m: MoveView)
      ensures m == LazyCombine(sm, tm, e)
    {
      var source := CreateProductOfInvariants([sm.source, tm.source], e);
      var target := CreateProductCorrected([sm.target, tm.target], e.toGuard(True()));
      var move := new Move(source.value, target.value, sm.edges + tm.edges, e);
      var enabled := move.EnabledPart(e);
      move.ConjunctCDD(enabled);
      m := move.View();
    }

    /** `merge(s_moves, t_moves)`: every pair, S's moves outermost, keeping satisfiable guards. */
    method MergeLists(sms: seq<MoveView>, tms: seq<MoveView>) returns (ms: seq<MoveView>)
      ensures ms == Cartesian(sms, tms, LazyCombiner(e))
    {
      ms := [];
      for i := 0 to |sms|
        invariant ms == Cartesian(sms[..i], tms, LazyCombiner(e))
      {
        CartesianStep(sms, tms, LazyCombiner(e), i);
        var row := MergeRow(sms[i], tms);
        ms := ms + row;
      }
      assert sms[..|sms|] == sms;
    }

    /** The inner loop of `merge(s_moves, t_moves)`, for one move of S. */
    method MergeRow(sm: MoveView, tms: seq<MoveView>) returns (ms: seq<MoveView>)
      ensures ms == Row(sm, tms, LazyCombiner(e))
    {
      ms := [];
      for j := 0 to |tms|
        invariant ms == Row(sm, tms[..j], LazyCombiner(e))
      {
        RowStep(sm, tms, LazyCombiner(e), j);
        var m := MergeMoves(sm, tms[j]);
        assert m == LazyCombiner(e)(sm, tms[j]);
        if IsNotFalse(m.guard) {
          ms := ms + [m];
        }
      }
      assert tms[..|tms|] == tms;
    }

    /** The negated, non-negative, reduced disjunction of the enabled parts of T's moves. */
    method BlockedGuard(tMoves: seq<MoveView>) returns (g: CDD)
      ensures g == Quotients.Blocked(tMoves, e)
    {
      g := DisjoinEnabledParts(tMoves, e);
      g := Reduce(RemoveNegative(Negation(g)));
    }

    /** Rules 3 to 5: the move to `univ`. */
    method MoveToUniversal(location: Location, a: Channel, tMoves: seq<MoveView>) returns (m: MoveView)
      ensures m == UniversalMove(Parts(), location, a, tMoves)
    {
      if a in specification.outputs {
        var guardS := BlockedGuard(tMoves);
        var move := new Move.Guarded(location, universal, guardS, []);
        m := move.View();
      } else {
        var move := new Move.Between(location, universal);
        m := move.View();
      }
    }

    /** Rule 6's loop: one move to `inc` per move of S. */
    method AddBlockedOutputs(location: Location, tMoves: seq<MoveView>, sMoves: seq<MoveView>, guardT: CDD) returns (ms: seq<MoveView>)
      requires guardT == Quotients.Blocked(tMoves, e)
      ensures ms == BlockedOutputs(Parts(), location, tMoves, sMoves)
    {
      ms := [];
      for j := 0 to |sMoves|
        invariant ms == BlockedOutputs(Parts(), location, tMoves, sMoves[..j])
      {
        var guard := Conjunction(Enabled(sMoves[j], e), guardT);
        var move := new Move.Guarded(location, inconsistent, guard, [NewClockReset()]);
        ms := ms + [move.View()];
      }
      assert sMoves[..|sMoves|] == sMoves;
    }

    /** Rules 6 and 7: the moves to `inc` on a common output. */
    method MovesToInc(location: Location, a: Channel, qt: Location, qs: Location, tMoves: seq<MoveView>, sMoves: seq<MoveView>)
      returns (ms: seq<MoveView>)
      ensures ms == ToInconsistent(Parts(), location, a, qt, qs, tMoves, sMoves)
    {
      ms := [];
      if a in Intersect(specification.outputs, component.outputs) {
        var guardT := BlockedGuard(tMoves);
        var blocked := AddBlockedOutputs(location, tMoves, sMoves, guardT);
        ms := ms + blocked;
      }
      if a in Intersect(specification.outputs, component.outputs) {
        var guardS := Negation(InvariantCDD(qs, e));
        var guardT := InvariantCDD(qt, e);
        var move := new Move.Guarded(location, inconsistent, Conjunction(guardS, guardT), [NewClockReset()]);
        ms := ms + [move.View()];
      }
    }

    /** Rules 9 and 10: the loops of the sinks. */
    method SinkMoves(location: Location, a: Channel) returns (ms: seq<MoveView>)
      ensures ms == SinkLoops(Parts(), location, a)
    {
      ms := [];
      if location.isUniversal {
        var move := new Move.Between(location, universal);
        ms := ms + [move.View()];
      }
      if location.isInconsistent && a in inputs {
        var move := new Move.WithUpdates(location, inconsistent, [NewClockReset()]);
        ms := ms + [move.View()];
      }
    }

    /** The moves from a pair location, in the order of the rules. */
    method PairMovesOf(location: Location, a: Channel) returns (moves: seq<MoveView>)
      requires |location.product| >= 2
      ensures moves == PairMoves(Parts(), location, a)
    {
      var qt := location.product[0];
      var qs := location.product[1];
      var tMoves := component.nextMoves(qt, a);
      var sMoves := specification.nextMoves(qs, a);
      moves := [];
      // Rule 1
      if a in Intersect(Actions(specification), Actions(component)) {
        var merged := MergeLists(sMoves, tMoves);
        moves := moves + merged;
      }
      assert moves == Synchronised(Parts(), a, sMoves, tMoves);
      // Rule 2
      ghost var before := moves;
      if a in Difference(Actions(specification), Actions(component)) {
        var loop := new Move.Between(qs, qs);
        var merged := MergeLists([loop.View()], tMoves);
        moves := moves + merged;
      }
      assert moves == before + SecondStays(Parts(), a, qs, tMoves);
      // Rules 3 to 7
      var toUniv := MoveToUniversal(location, a, tMoves);
      var toInc := MovesToInc(location, a, qt, qs, tMoves, sMoves);
      moves := moves + [toUniv] + toInc;
      // Rule 8
      before := moves;
      if a in Difference(Actions(component), Actions(specification)) {
        var loop := new Move.Between(qt, qt);
        var merged := MergeLists(sMoves, [loop.View()]);
        moves := moves + merged;
      }
      assert moves == before + FirstStays(Parts(), a, qt, sMoves);
      // Rules 9 and 10
      var loops := SinkMoves(location, a);
      moves := moves + loops;
    }

    /** `getNextMoves(location, a)`. */
    method NextMoves(location: Location, a: Channel) returns (r: Result<seq<MoveView>>)
      ensures r == LazyMoves(Parts(), location, a)
    {
      if a !in GetActions() {
        return Failure(IllegalArgument(UnknownActionMessage(a)));
      }
      var product := location.product;
      if |product| == 0 {
        return Failure(IndexOutOfBounds(0));
      }
      if |product| == 1 {
        return Failure(IndexOutOfBounds(1));
      }
      var moves := PairMovesOf(location, a);
      return Success(moves);
    }
  }
}
