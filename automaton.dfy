/**
 * An automaton: locations, edges, clocks and boolean variables, with the
 * input, output and full action sets derived from the edges. On request the
 * constructor strengthens every edge guard with its target's invariant and
 * then makes the automaton input-enabled by adding input self-loops.
 */
module Automata {
  import opened Failures
  import opened Zones
  import opened Identifiers
  import opened Iteration
  import opened Guards
  import opened Locations
  import opened Moves

  // ---------------------------------------------------------------------
  // Action sets

  /** The channels of the input edges. */
  function InputChannels(edges: seq<Edge>): set<Channel> {
    set i | 0 <= i < |edges| && edges[i].isInput :: edges[i].channel
  }

  /** The channels of the other edges. */
  function OutputChannels(edges: seq<Edge>): set<Channel> {
    set i | 0 <= i < |edges| && !edges[i].isInput :: edges[i].channel
  }

  /** `setActions(edges)`: one pass over the edges fills the three sets. */
  method SetActions(edges: seq<Edge>) returns (inputAct: set<Channel>, outputAct: set<Channel>, actions: set<Channel>)
    ensures inputAct == InputChannels(edges) && outputAct == OutputChannels(edges)
    ensures actions == inputAct + outputAct
  {
    inputAct, outputAct, actions := {}, {}, {};
    for i := 0 to |edges|
      invariant forall ch :: ch in inputAct <==> exists k :: 0 <= k < i && edges[k].isInput && edges[k].channel == ch
      invariant forall ch :: ch in outputAct <==> exists k :: 0 <= k < i && !edges[k].isInput && edges[k].channel == ch
      invariant actions == inputAct + outputAct
    {
      var action := edges[i].channel;
      actions := actions + {action};
      if edges[i].isInput {
        inputAct := inputAct + {action};
      } else {
        outputAct := outputAct + {action};
      }
    }
  }

  /** A channel is an action exactly when some edge carries it. */
  lemma ActionsAreEdgeChannels(edges: seq<Edge>, ch: Channel)
    ensures ch in InputChannels(edges) + OutputChannels(edges) <==> exists i :: 0 <= i < |edges| && edges[i].channel == ch
    ensures ch in InputChannels(edges) <==> exists i :: 0 <= i < |edges| && edges[i].isInput && edges[i].channel == ch
  {
    if exists i :: 0 <= i < |edges| && edges[i].channel == ch {
      var i :| 0 <= i < |edges| && edges[i].channel == ch;
      if edges[i].isInput {
        assert ch in InputChannels(edges);
      } else {
        assert ch in OutputChannels(edges);
      }
    }
  }

  // ---------------------------------------------------------------------
  // Initial location

  /** The first location flagged initial, if any. */
  function FirstInitial(ls: seq<Location>): (r: Option<Location>)
    ensures r.None? <==> forall i :: 0 <= i < |ls| ==> !ls[i].isInitial
    ensures r.Some? ==> exists i :: (0 <= i < |ls| && ls[i] == r.value && ls[i].isInitial &&
      forall j :: 0 <= j < i ==> !ls[j].isInitial)
  {
    if ls == [] then None
    else if ls[0].isInitial then Some(ls[0])
    else
      var r := FirstInitial(ls[1..]);
      assert forall i :: 1 <= i < |ls| ==> ls[i] == ls[1..][i - 1];
      if r.Some? then
        var i :| 0 <= i < |ls[1..]| && ls[1..][i] == r.value && ls[1..][i].isInitial &&
          forall j :: 0 <= j < i ==> !ls[1..][j].isInitial;
        assert ls[i + 1] == r.value;
        r
      else r
  }

  /** The constructor's search: stops at the first initial location. */
  method FindInitial(ls: seq<Location>) returns (r: Option<Location>)
    ensures r == FirstInitial(ls)
  {
    var i := 0;
    while i < |ls|
      invariant 0 <= i <= |ls|
      invariant FirstInitial(ls) == FirstInitial(ls[i..])
    {
      if ls[i].isInitial {
        return Some(ls[i]);
      }
      assert ls[i..][1..] == ls[i + 1..];
      i := i + 1;
    }
    return None;
  }

  /** The last location flagged initial, if any: the copy constructor keeps overwriting. */
  function LastInitial(ls: seq<Location>): (r: Option<Location>)
    ensures r.None? <==> forall i :: 0 <= i < |ls| ==> !ls[i].isInitial
    ensures r.Some? ==> exists i :: (0 <= i < |ls| && ls[i] == r.value && ls[i].isInitial &&
      forall j :: i < j < |ls| ==> !ls[j].isInitial)
  {
    if ls == [] then None
    else if ls[|ls| - 1].isInitial then Some(ls[|ls| - 1])
    else
      var r := LastInitial(ls[..|ls| - 1]);
      assert forall i :: 0 <= i < |ls| - 1 ==> ls[i] == ls[..|ls| - 1][i];
      r
  }

  // ---------------------------------------------------------------------
  // Clock bounds

  function EdgesMax(edges: seq<Edge>, clock: Clock): (m: int)
    ensures m >= 0
    ensures forall i :: 0 <= i < |edges| ==> MaxConstant(edges[i].guard, clock) <= m
    ensures m == 0 || exists i :: 0 <= i < |edges| && m == MaxConstant(edges[i].guard, clock)
  {
    if edges == [] then 0
    else
      var init := EdgesMax(edges[..|edges| - 1], clock);
      assert forall i :: 0 <= i < |edges| - 1 ==> edges[i] == edges[..|edges| - 1][i];
      Max(init, MaxConstant(edges[|edges| - 1].guard, clock))
  }

  function LocationsMax(ls: seq<Location>, clock: Clock): (m: int)
    ensures m >= 0
    ensures forall i :: 0 <= i < |ls| ==> LocationMaxConstant(ls[i], clock) <= m
    ensures m == 0 || exists i :: 0 <= i < |ls| && m == LocationMaxConstant(ls[i], clock)
  {
    if ls == [] then 0
    else
      var init := LocationsMax(ls[..|ls| - 1], clock);
      assert forall i :: 0 <= i < |ls| - 1 ==> ls[i] == ls[..|ls| - 1][i];
      Max(init, LocationMaxConstant(ls[|ls| - 1], clock))
  }

  /**
   * One `compute` call of the bound fold: an entry already holding the
   * larger of the start and the constants so far takes the larger of that
   * and the new constant; an absent entry takes the new constant.
   */
  lemma FoldStep(before: map<Clock, int>, clock: Clock, start: int, prev: int, bound: int, touched: bool, result: map<Clock, int>)
    requires start == (if clock in before then before[clock] else 0) && start >= 0 && prev >= 0 && bound >= 0
    requires touched ==> result == before[clock := Max(start, prev)]
    requires !touched ==> result == before && clock !in before && prev == 0
    ensures var value := if clock in result then result[clock] else bound;
      result[clock := Max(value, bound)] == before[clock := Max(start, Max(prev, bound))]
  {
    var value := if clock in result then result[clock] else bound;
    assert Max(value, bound) == Max(start, Max(prev, bound));
    assert result[clock := Max(value, bound)] == before[clock := Max(value, bound)];
  }

  lemma UpdateTwice(m: map<Clock, int>, k: Clock, x: int, y: int)
    ensures m[k := x][k := y] == m[k := y]
  {
  }

  /** The entry folded from a previous bound (or nothing) and the two maxima is the bound again. */
  lemma BoundOfFolds(start: int, em: int, lm: int, b: int)
    requires em >= 0 && lm >= 0 && b == (if Max(em, lm) == 0 then 1 else Max(em, lm))
    requires start == 0 || start == b
    ensures var m := Max(Max(start, em), lm); (if m == 0 then 1 else m) == b
  {
  }

  /** Folding one more edge into the maximum. */
  lemma EdgesMaxStep(edges: seq<Edge>, k: int, clock: Clock)
    requires 0 <= k < |edges|
    ensures EdgesMax(edges[..k + 1], clock) == Max(EdgesMax(edges[..k], clock), MaxConstant(edges[k].guard, clock))
  {
    assert edges[..k + 1][..k] == edges[..k];
  }

  /** Folding one more location into the maximum. */
  lemma LocationsMaxStep(ls: seq<Location>, k: int, clock: Clock)
    requires 0 <= k < |ls|
    ensures LocationsMax(ls[..k + 1], clock) == Max(LocationsMax(ls[..k], clock), LocationMaxConstant(ls[k], clock))
  {
    assert ls[..k + 1][..k] == ls[..k];
  }

  /**
   * The bound of one clock: the largest constant any edge guard or location
   * invariant compares it with, or 1 when that largest constant is 0.
   */
  function ClockBound(edges: seq<Edge>, ls: seq<Location>, clock: Clock): (b: int)
    ensures b >= 1
    ensures forall i :: 0 <= i < |edges| ==> MaxConstant(edges[i].guard, clock) <= b
    ensures forall i :: 0 <= i < |ls| ==> LocationMaxConstant(ls[i], clock) <= b
    ensures b == 1 ||
      (exists i :: 0 <= i < |edges| && b == MaxConstant(edges[i].guard, clock)) ||
      (exists i :: 0 <= i < |ls| && b == LocationMaxConstant(ls[i], clock))
  {
    var m := Max(EdgesMax(edges, clock), LocationsMax(ls, clock));
    if m == 0 then 1 else m
  }

  // ---------------------------------------------------------------------
  // Edges leaving a location

  /** The self-loop a universal location offers on an action. */
  function UniversalLoop(loc: Location, action: Channel, isInput: bool): Edge {
    Edge(loc, loc, action, isInput, TrueGuard, [])
  }

  /** One universal self-loop per action, in the given order. */
  function Loops(loc: Location, order: seq<Channel>, inputAct: set<Channel>): seq<Edge> {
    seq(|order|, i requires 0 <= i < |order| => UniversalLoop(loc, order[i], order[i] in inputAct))
  }

  /** The stored edges whose source equals the location, in list order. */
  function FromLocation(edges: seq<Edge>, loc: Location): (r: seq<Edge>)
    ensures forall x :: x in r <==> x in edges && LocationEquals(x.source, loc)
  {
    if edges == [] then []
    else
      var last := edges[|edges| - 1];
      FromLocation(edges[..|edges| - 1], loc) + if LocationEquals(last.source, loc) then [last] else []
  }

  /** The edges whose channel has the given name, in list order. */
  function WithChannelName(edges: seq<Edge>, name: string): (r: seq<Edge>)
    ensures forall x :: x in r <==> x in edges && x.channel.name == name
  {
    if edges == [] then []
    else
      var last := edges[|edges| - 1];
      WithChannelName(edges[..|edges| - 1], name) + if last.channel.name == name then [last] else []
  }

  /**
   * `getEdgesFromLocationAndSignal(loc, signal)`: a universal location has
   * exactly the self-loop on the signal, when the signal is an action; any
   * other location has its stored edges on a channel of that name.
   */
  function SignalEdges(edges: seq<Edge>, actions: set<Channel>, inputAct: set<Channel>, loc: Location, signal: Channel): seq<Edge> {
    if loc.isUniversal then
      if signal in actions then [UniversalLoop(loc, signal, signal in inputAct)] else []
    else WithChannelName(FromLocation(edges, loc), signal.name)
  }

  lemma SignalEdgesMeaning(edges: seq<Edge>, actions: set<Channel>, inputAct: set<Channel>, loc: Location, signal: Channel)
    ensures loc.isUniversal ==> forall x :: x in SignalEdges(edges, actions, inputAct, loc, signal) <==>
      signal in actions && x == Edge(loc, loc, signal, signal in inputAct, TrueGuard, [])
    ensures !loc.isUniversal ==> forall x :: x in SignalEdges(edges, actions, inputAct, loc, signal) <==>
      x in edges && LocationEquals(x.source, loc) && x.channel.name == signal.name
  {
  }

  /** Among distinct actions, the loops on channels named like the signal are the loop on the signal. */
  lemma {:induction false} LoopsWithName(loc: Location, order: seq<Channel>, inputAct: set<Channel>, signal: Channel)
    requires forall i, j :: 0 <= i < j < |order| ==> order[i] != order[j]
    ensures WithChannelName(Loops(loc, order, inputAct), signal.name) ==
      if signal in order then [UniversalLoop(loc, signal, signal in inputAct)] else []
  {
    if order != [] {
      var init := order[..|order| - 1];
      assert Loops(loc, order, inputAct)[..|order| - 1] == Loops(loc, init, inputAct);
      LoopsWithName(loc, init, inputAct, signal);
      assert signal in order <==> signal in init || signal == order[|order| - 1];
      if signal == order[|order| - 1] {
        assert signal !in init;
      }
    }
  }

  // ---------------------------------------------------------------------
  // Target-invariant strengthening

  /** The points from which the edge can be taken into its target's invariant. */
  function BackImage(edge: Edge, e: Engine): CDD {
    e.back(InvariantCDD(edge.target, e), EdgeGuardCDD(edge, e), edge.updates)
  }

  /**
   * One edge after `addTargetInvariantToEdges`: when the back-image of the
   * target invariant is not everything, the guard becomes that back-image
   * conjoined with the old guard.
   */
  function Strengthened(edge: Edge, e: Engine): Edge {
    var past := BackImage(edge, e);
    if !Equiv(past, True()) then edge.(guard := e.toGuard(Conjunction(past, EdgeGuardCDD(edge, e)))) else edge
  }

  function StrengthenAll(edges: seq<Edge>, e: Engine): seq<Edge> {
    seq(|edges|, i requires 0 <= i < |edges| => Strengthened(edges[i], e))
  }

  /**
   * Strengthening touches only the guard, changes it only when the back-image
   * is not everything, and the new guard admits exactly the points of the
   * old guard from which the target invariant is reachable.
   */
  lemma StrengthenedMeaning(edge: Edge, e: Engine)
    requires Faithful(e)
    ensures Strengthened(edge, e).(guard := edge.guard) == edge
    ensures Equiv(BackImage(edge, e), True()) ==> Strengthened(edge, e) == edge
    ensures forall v :: Contains(EdgeGuardCDD(Strengthened(edge, e), e), v) <==>
      Contains(BackImage(edge, e), v) && Contains(EdgeGuardCDD(edge, e), v)
    ensures IsSubset(EdgeGuardCDD(Strengthened(edge, e), e), EdgeGuardCDD(edge, e))
  {
    var past := BackImage(edge, e);
    if Equiv(past, True()) {
      assert forall v :: Contains(past, v);
    } else {
      assert ToCDD(e.toGuard(Conjunction(past, EdgeGuardCDD(edge, e))), e) == Conjunction(past, EdgeGuardCDD(edge, e));
    }
    IsSubsetMeansInclusion(EdgeGuardCDD(Strengthened(edge, e), e), EdgeGuardCDD(edge, e));
  }

  // ---------------------------------------------------------------------
  // Input enabling

  /** The back-images of the given edges, joined from false in list order. */
  function BackImages(edges: seq<Edge>, e: Engine): CDD {
    if edges == [] then False() else Disjunction(BackImages(edges[..|edges| - 1], e), BackImage(edges[|edges| - 1], e))
  }

  lemma {:induction false} BackImagesMeaning(edges: seq<Edge>, e: Engine)
    ensures forall v :: Contains(BackImages(edges, e), v) <==> exists k :: 0 <= k < |edges| && Contains(BackImage(edges[k], e), v)
  {
    if edges != [] {
      var init := edges[..|edges| - 1];
      BackImagesMeaning(init, e);
      assert forall k :: 0 <= k < |init| ==> init[k] == edges[k];
    }
  }

  /**
   * The part of a location's invariant from which no input edge on the
   * channel can be taken: the whole invariant when there is no such edge.
   */
  function Remainder(loc: Location, inputEdges: seq<Edge>, e: Engine): CDD {
    if inputEdges == [] then InvariantCDD(loc, e)
    else Minus(InvariantCDD(loc, e), Reduce(RemoveNegative(BackImages(inputEdges, e))))
  }

  lemma RemainderMeaning(loc: Location, inputEdges: seq<Edge>, e: Engine)
    ensures forall v :: Contains(Remainder(loc, inputEdges, e), v) <==>
      Contains(InvariantCDD(loc, e), v) && forall k :: 0 <= k < |inputEdges| ==> !Contains(BackImage(inputEdges[k], e), v)
    ensures IsSubset(Remainder(loc, inputEdges, e), InvariantCDD(loc, e))
  {
    BackImagesMeaning(inputEdges, e);
    IsSubsetMeansInclusion(Remainder(loc, inputEdges, e), InvariantCDD(loc, e));
  }

  /** The self-loop that accepts the input wherever no edge does. */
  function InputLoop(loc: Location, input: Channel, remainder: CDD, e: Engine): Edge {
    Edge(loc, loc, input, true, e.toGuard(remainder), [])
  }

  /** One (location, input) step of `makeInputEnabled`, on the edges as they stand. */
  function EnableStep(edges: seq<Edge>, actions: set<Channel>, inputAct: set<Channel>, loc: Location, input: Channel, e: Engine): seq<Edge> {
    var remainder := Remainder(loc, SignalEdges(edges, actions, inputAct, loc, input), e);
    if IsNotFalse(remainder) then edges + [InputLoop(loc, input, remainder, e)] else edges
  }

  /** The steps for one location, over the inputs in the given order. */
  function EnableLocation(edges: seq<Edge>, actions: set<Channel>, inputAct: set<Channel>, loc: Location, inputs: seq<Channel>, e: Engine): seq<Edge> {
    if inputs == [] then edges
    else EnableStep(EnableLocation(edges, actions, inputAct, loc, inputs[..|inputs| - 1], e), actions, inputAct, loc, inputs[|inputs| - 1], e)
  }

  /** The steps for every location in list order. */
  function EnableAll(edges: seq<Edge>, actions: set<Channel>, inputAct: set<Channel>, ls: seq<Location>, inputs: seq<Channel>, e: Engine): seq<Edge> {
    if ls == [] then edges
    else EnableLocation(EnableAll(edges, actions, inputAct, ls[..|ls| - 1], inputs, e), actions, inputAct, ls[|ls| - 1], inputs, e)
  }

  /** A new edge of input enabling: an update-free input self-loop. */
  predicate IsInputLoop(x: Edge, ls: seq<Location>, inputs: seq<Channel>) {
    x.isInput && x.source == x.target && x.updates == [] && x.source in ls && x.channel in inputs
  }

  /** One step appends nothing or a single update-free input self-loop on the location, on the input. */
  lemma EnableStepShape(edges: seq<Edge>, actions: set<Channel>, inputAct: set<Channel>, loc: Location, input: Channel, e: Engine)
    ensures var r := EnableStep(edges, actions, inputAct, loc, input, e);
      r == edges || (|r| == |edges| + 1 && r[..|edges|] == edges && IsInputLoop(r[|edges|], [loc], [input]))
  {
  }

  /** The steps over a prefix one input longer are one more step. */
  lemma EnableLocationStep(edges: seq<Edge>, actions: set<Channel>, inputAct: set<Channel>, loc: Location, inputs: seq<Channel>, j: int, e: Engine)
    requires 0 <= j < |inputs|
    ensures EnableLocation(edges, actions, inputAct, loc, inputs[..j + 1], e) ==
      EnableStep(EnableLocation(edges, actions, inputAct, loc, inputs[..j], e), actions, inputAct, loc, inputs[j], e)
  {
    assert inputs[..j + 1][..j] == inputs[..j];
  }

  lemma {:induction false} EnableLocationAppends(edges: seq<Edge>, actions: set<Channel>, inputAct: set<Channel>, loc: Location, inputs: seq<Channel>, e: Engine)
    ensures var r := EnableLocation(edges, actions, inputAct, loc, inputs, e);
      |edges| <= |r| <= |edges| + |inputs| && r[..|edges|] == edges &&
      forall k :: |edges| <= k < |r| ==> IsInputLoop(r[k], [loc], inputs)
  {
    EnableLocationLength(edges, actions, inputAct, loc, inputs, e);
    if inputs != [] {
      var init, input := inputs[..|inputs| - 1], inputs[|inputs| - 1];
      EnableLocationAppends(edges, actions, inputAct, loc, init, e);
      var mid := EnableLocation(edges, actions, inputAct, loc, init, e);
      var r := EnableLocation(edges, actions, inputAct, loc, inputs, e);
      assert r == EnableStep(mid, actions, inputAct, loc, input, e);
      EnableStepShape(mid, actions, inputAct, loc, input, e);
      assert forall c :: c in init ==> c in inputs;
      forall k | |edges| <= k < |r|
        ensures IsInputLoop(r[k], [loc], inputs)
      {
        if k < |mid| {
          assert r[k] == r[..|mid|][k];
          assert IsInputLoop(mid[k], [loc], init);
        } else {
          assert IsInputLoop(r[k], [loc], [input]);
        }
      }
    }
  }

  lemma {:induction false} EnableLocationLength(edges: seq<Edge>, actions: set<Channel>, inputAct: set<Channel>, loc: Location, inputs: seq<Channel>, e: Engine)
    ensures var r := EnableLocation(edges, actions, inputAct, loc, inputs, e);
      |edges| <= |r| <= |edges| + |inputs| && r[..|edges|] == edges
  {
    if inputs != [] {
      EnableLocationLength(edges, actions, inputAct, loc, inputs[..|inputs| - 1], e);
    }
  }

  lemma ProductStep(n: nat, m: nat)
    requires n > 0
    ensures n * m == (n - 1) * m + m
  {
  }

  /**
   * Input enabling only appends: the old edges stay in front, and there is
   * at most one new edge per (location, input).
   */
  lemma {:induction false} EnableAllLength(edges: seq<Edge>, actions: set<Channel>, inputAct: set<Channel>, ls: seq<Location>, inputs: seq<Channel>, e: Engine)
    ensures var r := EnableAll(edges, actions, inputAct, ls, inputs, e);
      |edges| <= |r| <= |edges| + |ls| * |inputs| && r[..|edges|] == edges
  {
    if ls != [] {
      var init := ls[..|ls| - 1];
      EnableAllLength(edges, actions, inputAct, init, inputs, e);
      var mid := EnableAll(edges, actions, inputAct, init, inputs, e);
      EnableLocationLength(mid, actions, inputAct, ls[|ls| - 1], inputs, e);
      ProductStep(|ls|, |inputs|);
      var r := EnableAll(edges, actions, inputAct, ls, inputs, e);
      assert r[..|edges|] == r[..|mid|][..|edges|];
    }
  }

  /** Every edge input enabling appends is an update-free input self-loop on a listed location. */
  lemma {:induction false} EnableAllAddsInputLoops(edges: seq<Edge>, actions: set<Channel>, inputAct: set<Channel>, ls: seq<Location>, inputs: seq<Channel>, e: Engine, k: int)
    requires |edges| <= k < |EnableAll(edges, actions, inputAct, ls, inputs, e)|
    ensures IsInputLoop(EnableAll(edges, actions, inputAct, ls, inputs, e)[k], ls, inputs)
  {
    var init := ls[..|ls| - 1];
    var loc := ls[|ls| - 1];
    var mid := EnableAll(edges, actions, inputAct, init, inputs, e);
    var r := EnableAll(edges, actions, inputAct, ls, inputs, e);
    assert r == EnableLocation(mid, actions, inputAct, loc, inputs, e);
    EnableLocationLength(mid, actions, inputAct, loc, inputs, e);
    if k < |mid| {
      EnableAllAddsInputLoops(edges, actions, inputAct, init, inputs, e, k);
      assert r[k] == r[..|mid|][k];
      assert mid[k].source in init;
    } else {
      EnableLocationAppends(mid, actions, inputAct, loc, inputs, e);
    }
  }

  /**
   * After the step for (location, input), every point of the location's
   * invariant is covered: some input edge on the channel can be taken from
   * it, or the appended self-loop's guard admits it.
   */
  lemma EnableStepCovers(edges: seq<Edge>, actions: set<Channel>, inputAct: set<Channel>, loc: Location, input: Channel, e: Engine)
    requires Faithful(e)
    ensures var signal := SignalEdges(edges, actions, inputAct, loc, input);
      var r := EnableStep(edges, actions, inputAct, loc, input, e);
      forall v :: Contains(InvariantCDD(loc, e), v) ==>
        (exists k :: 0 <= k < |signal| && Contains(BackImage(signal[k], e), v)) ||
        (|r| == |edges| + 1 && r[|edges|].channel == input && Contains(EdgeGuardCDD(r[|edges|], e), v))
  {
    var signal := SignalEdges(edges, actions, inputAct, loc, input);
    var remainder := Remainder(loc, signal, e);
    RemainderMeaning(loc, signal, e);
    IsNotFalseMeansNonEmpty(remainder);
    if IsNotFalse(remainder) {
      assert ToCDD(e.toGuard(remainder), e) == remainder;
    }
  }

  /**
   * A point of a location's invariant is covered for an input when some edge
   * of the location on that signal can be taken from it, or an input
   * self-loop on the location admits it.
   */
  ghost predicate Covered(edges: seq<Edge>, actions: set<Channel>, inputAct: set<Channel>, loc: Location, input: Channel, v: Valuation, e: Engine) {
    (exists x :: x in SignalEdges(edges, actions, inputAct, loc, input) && Contains(BackImage(x, e), v)) ||
    (exists x :: x in edges && x.source == loc && x.channel == input && x.isInput && Contains(EdgeGuardCDD(x, e), v))
  }

  /** Appending edges never uncovers a point. */
  lemma CoveredGrows(edges: seq<Edge>, r: seq<Edge>, actions: set<Channel>, inputAct: set<Channel>, loc: Location, input: Channel, v: Valuation, e: Engine)
    requires |edges| <= |r| && r[..|edges|] == edges
    requires Covered(edges, actions, inputAct, loc, input, v, e)
    ensures Covered(r, actions, inputAct, loc, input, v, e)
  {
    assert forall x :: x in edges ==> x in r by {
      forall x | x in edges ensures x in r {
        var k :| 0 <= k < |edges| && edges[k] == x;
        assert r[k] == r[..|edges|][k];
      }
    }
    SignalEdgesMeaning(edges, actions, inputAct, loc, input);
    SignalEdgesMeaning(r, actions, inputAct, loc, input);
  }

  /** After the step for (location, input), every point of the invariant is covered for that input. */
  lemma EnableStepCovered(edges: seq<Edge>, actions: set<Channel>, inputAct: set<Channel>, loc: Location, input: Channel, v: Valuation, e: Engine)
    requires Faithful(e) && Contains(InvariantCDD(loc, e), v)
    ensures Covered(EnableStep(edges, actions, inputAct, loc, input, e), actions, inputAct, loc, input, v, e)
  {
    var r := EnableStep(edges, actions, inputAct, loc, input, e);
    var signal := SignalEdges(edges, actions, inputAct, loc, input);
    EnableStepCovers(edges, actions, inputAct, loc, input, e);
    EnableStepShape(edges, actions, inputAct, loc, input, e);
    if exists k :: 0 <= k < |signal| && Contains(BackImage(signal[k], e), v) {
      var k :| 0 <= k < |signal| && Contains(BackImage(signal[k], e), v);
      assert signal[k] in signal;
      CoveredGrows(edges, r, actions, inputAct, loc, input, v, e);
    } else {
      assert r[|edges|] in r;
    }
  }

  /** After the steps for a location, every point of its invariant is covered for every input. */
  lemma {:induction false} EnableLocationCovered(edges: seq<Edge>, actions: set<Channel>, inputAct: set<Channel>, loc: Location, inputs: seq<Channel>, j: int, v: Valuation, e: Engine)
    requires Faithful(e) && 0 <= j < |inputs| && Contains(InvariantCDD(loc, e), v)
    ensures Covered(EnableLocation(edges, actions, inputAct, loc, inputs, e), actions, inputAct, loc, inputs[j], v, e)
  {
    var init := inputs[..|inputs| - 1];
    var mid := EnableLocation(edges, actions, inputAct, loc, init, e);
    var r := EnableLocation(edges, actions, inputAct, loc, inputs, e);
    assert r == EnableStep(mid, actions, inputAct, loc, inputs[|inputs| - 1], e);
    if j < |init| {
      EnableLocationCovered(edges, actions, inputAct, loc, init, j, v, e);
      EnableStepShape(mid, actions, inputAct, loc, inputs[|inputs| - 1], e);
      assert init[j] == inputs[j];
      CoveredGrows(mid, r, actions, inputAct, loc, inputs[j], v, e);
    } else {
      assert j == |inputs| - 1;
      EnableStepCovered(mid, actions, inputAct, loc, inputs[|inputs| - 1], v, e);
    }
  }

  /**
   * The end result of `makeInputEnabled`: for every listed location and every
   * input, every point of the location's invariant is covered.
   */
  lemma {:induction false} EnableAllCovered(edges: seq<Edge>, actions: set<Channel>, inputAct: set<Channel>, ls: seq<Location>, inputs: seq<Channel>, i: int, j: int, v: Valuation, e: Engine)
    requires Faithful(e) && 0 <= i < |ls| && 0 <= j < |inputs| && Contains(InvariantCDD(ls[i], e), v)
    ensures Covered(EnableAll(edges, actions, inputAct, ls, inputs, e), actions, inputAct, ls[i], inputs[j], v, e)
  {
    var init := ls[..|ls| - 1];
    var mid := EnableAll(edges, actions, inputAct, init, inputs, e);
    var r := EnableAll(edges, actions, inputAct, ls, inputs, e);
    assert r == EnableLocation(mid, actions, inputAct, ls[|ls| - 1], inputs, e);
    if i < |init| {
      EnableAllCovered(edges, actions, inputAct, init, inputs, i, j, v, e);
      EnableLocationLength(mid, actions, inputAct, ls[|ls| - 1], inputs, e);
      assert init[i] == ls[i];
      CoveredGrows(mid, r, actions, inputAct, ls[i], inputs[j], v, e);
    } else {
      assert i == |ls| - 1;
      EnableLocationCovered(mid, actions, inputAct, ls[|ls| - 1], inputs, j, v, e);
    }
  }

  // ---------------------------------------------------------------------
  // Copying

  /** `locations.indexOf(l)`: the first index of an equal location, or -1. */
  function IndexOf(ls: seq<Location>, l: Location): (i: int)
    ensures -1 <= i < |ls|
    ensures i == -1 <==> forall j :: 0 <= j < |ls| ==> !LocationEquals(ls[j], l)
    ensures i >= 0 ==> LocationEquals(ls[i], l) && forall j :: 0 <= j < i ==> !LocationEquals(ls[j], l)
  {
    if ls == [] then -1
    else if LocationEquals(ls[0], l) then 0
    else
      var i := IndexOf(ls[1..], l);
      assert forall j :: 1 <= j < |ls| ==> ls[j] == ls[1..][j - 1];
      if i == -1 then -1 else i + 1
  }

  /** Both endpoints of the edge equal some location, so `indexOf` finds them. */
  predicate EndpointsFound(ls: seq<Location>, edge: Edge) {
    IndexOf(ls, edge.source) >= 0 && IndexOf(ls, edge.target) >= 0
  }

  /** The copy of a location: the guard copied, the rest kept, no product. */
  function CopiedLocation(l: Location, copyGuard: Guard -> Guard): Location {
    SimpleLocation(l.name, copyGuard(l.invariantGuard), l.isInitial, l.isUrgent, l.isUniversal, l.isInconsistent, l.x, l.y)
  }

  /**
   * The copy of one edge, between the copies of the locations at the
   * indices of its endpoints; an endpoint equal to no location makes the
   * lookup at index -1 fail.
   */
  function CopiedEdge(oldLocs: seq<Location>, newLocs: seq<Location>, edge: Edge, copyGuard: Guard -> Guard): (r: Result<Edge>)
    requires |oldLocs| == |newLocs|
    ensures r.Success? <==> EndpointsFound(oldLocs, edge)
    ensures r.Failure? ==> r.error == IndexOutOfBounds(-1)
    ensures r.Success? ==>
      r.value.source == newLocs[IndexOf(oldLocs, edge.source)] &&
      r.value.target == newLocs[IndexOf(oldLocs, edge.target)] &&
      r.value.channel == edge.channel && r.value.isInput == edge.isInput &&
      r.value.guard == copyGuard(edge.guard) && r.value.updates == edge.updates
  {
    if !EndpointsFound(oldLocs, edge) then Failure(IndexOutOfBounds(-1))
    else
      var si, ti := IndexOf(oldLocs, edge.source), IndexOf(oldLocs, edge.target);
      Success(Edge(newLocs[si], newLocs[ti], edge.channel, edge.isInput, copyGuard(edge.guard), edge.updates))
  }

  /** The copies of the edges in order; the first edge that cannot be copied fails the whole copy. */
  function CopiedEdges(oldLocs: seq<Location>, newLocs: seq<Location>, edges: seq<Edge>, copyGuard: Guard -> Guard): Result<seq<Edge>>
    requires |oldLocs| == |newLocs|
  {
    if edges == [] then Success([])
    else
      var init :- CopiedEdges(oldLocs, newLocs, edges[..|edges| - 1], copyGuard);
      var last :- CopiedEdge(oldLocs, newLocs, edges[|edges| - 1], copyGuard);
      Success(init + [last])
  }

  /** Copying edges succeeds exactly when every endpoint equals some location. */
  lemma {:induction false} CopiedEdgesSucceeds(oldLocs: seq<Location>, newLocs: seq<Location>, edges: seq<Edge>, copyGuard: Guard -> Guard)
    requires |oldLocs| == |newLocs|
    ensures CopiedEdges(oldLocs, newLocs, edges, copyGuard).Success? <==>
      forall k :: 0 <= k < |edges| ==> EndpointsFound(oldLocs, edges[k])
    ensures CopiedEdges(oldLocs, newLocs, edges, copyGuard).Failure? ==>
      CopiedEdges(oldLocs, newLocs, edges, copyGuard).error == IndexOutOfBounds(-1)
  {
    if edges != [] {
      var init, last := edges[..|edges| - 1], edges[|edges| - 1];
      CopiedEdgesSucceeds(oldLocs, newLocs, init, copyGuard);
      CopiedEdgesUnfold(oldLocs, newLocs, edges, init, copyGuard);
      SplitLast(edges, init, e => EndpointsFound(oldLocs, e));
    }
  }

  /** One step of the edge copy: the copy of all but the last edge, then the copy of the last. */
  lemma CopiedEdgesUnfold(oldLocs: seq<Location>, newLocs: seq<Location>, edges: seq<Edge>, init: seq<Edge>, copyGuard: Guard -> Guard)
    requires |oldLocs| == |newLocs| && edges != [] && init == edges[..|edges| - 1]
    ensures var prefix, copy := CopiedEdges(oldLocs, newLocs, init, copyGuard), CopiedEdge(oldLocs, newLocs, edges[|edges| - 1], copyGuard);
      CopiedEdges(oldLocs, newLocs, edges, copyGuard) ==
        if prefix.Failure? then Failure(prefix.error)
        else if copy.Failure? then Failure(copy.error)
        else Success(prefix.value + [copy.value])
  {
  }

  /** Every element satisfies `p` exactly when every element but the last does and the last does. */
  lemma SplitLast<T>(xs: seq<T>, init: seq<T>, p: T -> bool)
    requires xs != [] && init == xs[..|xs| - 1]
    ensures (forall k :: 0 <= k < |xs| ==> p(xs[k])) <==>
      (forall k :: 0 <= k < |init| ==> p(init[k])) && p(xs[|xs| - 1])
  {
    assert forall k :: 0 <= k < |init| ==> init[k] == xs[k];
  }

  lemma {:induction false} CopiedEdgesLength(oldLocs: seq<Location>, newLocs: seq<Location>, edges: seq<Edge>, copyGuard: Guard -> Guard)
    requires |oldLocs| == |newLocs|
    requires CopiedEdges(oldLocs, newLocs, edges, copyGuard).Success?
    ensures |CopiedEdges(oldLocs, newLocs, edges, copyGuard).value| == |edges|
  {
    if edges != [] {
      CopiedEdgesLength(oldLocs, newLocs, edges[..|edges| - 1], copyGuard);
    }
  }

  /** The k-th copied edge is the copy of the k-th edge. */
  lemma {:induction false} CopiedEdgeAt(oldLocs: seq<Location>, newLocs: seq<Location>, edges: seq<Edge>, copyGuard: Guard -> Guard, k: int)
    requires |oldLocs| == |newLocs|
    requires CopiedEdges(oldLocs, newLocs, edges, copyGuard).Success?
    requires 0 <= k < |edges|
    ensures |CopiedEdges(oldLocs, newLocs, edges, copyGuard).value| == |edges|
    ensures CopiedEdge(oldLocs, newLocs, edges[k], copyGuard).Success?
    ensures CopiedEdges(oldLocs, newLocs, edges, copyGuard).value[k] == CopiedEdge(oldLocs, newLocs, edges[k], copyGuard).value
  {
    CopiedEdgesLength(oldLocs, newLocs, edges, copyGuard);
    var init, last := edges[..|edges| - 1], edges[|edges| - 1];
    CopiedEdgesUnfold(oldLocs, newLocs, edges, init, copyGuard);
    var prefix, copy := CopiedEdges(oldLocs, newLocs, init, copyGuard), CopiedEdge(oldLocs, newLocs, last, copyGuard);
    var r := CopiedEdges(oldLocs, newLocs, edges, copyGuard).value;
    CopiedEdgesLength(oldLocs, newLocs, init, copyGuard);
    if k < |init| {
      CopiedEdgeAt(oldLocs, newLocs, init, copyGuard, k);
      assert r[k] == prefix.value[k] && init[k] == edges[k];
    } else {
      assert r[k] == copy.value && k == |edges| - 1;
    }
  }

  // ---------------------------------------------------------------------
  // The automaton

  class Automaton {
    var name: string
    const locations: seq<Location>
    const bvs: seq<BoolVar>
    var edges: seq<Edge>
    const clocks: seq<Clock>
    const inputAct: set<Channel>
    const outputAct: set<Channel>
    const actions: set<Channel>
    const initLoc: Option<Location>

    /**
     * `Automaton(name, locations, edges, clocks, BVs, makeInpEnabled)`: the
     * initial location is the first one flagged initial and the action sets
     * come from the edges; when asked, every guard is strengthened with its
     * target invariant and then input self-loops are appended.
     */
    constructor(name: string, locations: seq<Location>, edges: seq<Edge>, clocks: seq<Clock>, bvs: seq<BoolVar>,
                makeInpEnabled: bool, e: Engine)
      ensures this.name == name && this.locations == locations && this.clocks == clocks && this.bvs == bvs
      ensures initLoc == FirstInitial(locations)
      ensures inputAct == InputChannels(edges) && outputAct == OutputChannels(edges) && actions == inputAct + outputAct
      ensures !makeInpEnabled ==> this.edges == edges
      ensures makeInpEnabled ==> exists order :: (IsOrdering(order, inputAct) &&
        this.edges == EnableAll(StrengthenAll(edges, e), actions, inputAct, locations, order, e))
    {
      var initial := FindInitial(locations);
      var inputs, outputs, all := SetActions(edges);
      this.name := name;
      this.locations := locations;
      this.initLoc := initial;
      this.edges := edges;
      this.inputAct := inputs;
      this.outputAct := outputs;
      this.actions := all;
      this.clocks := clocks;
      this.bvs := bvs;
      new;
      if makeInpEnabled {
        AddTargetInvariantToEdges(e);
        MakeInputEnabled(e);
      }
    }

    /** The copy constructor's final step: every field given. */
    constructor Assemble(name: string, locations: seq<Location>, edges: seq<Edge>, clocks: seq<Clock>, bvs: seq<BoolVar>,
                         inputAct: set<Channel>, outputAct: set<Channel>, actions: set<Channel>, initLoc: Option<Location>)
      ensures this.name == name && this.locations == locations && this.edges == edges
      ensures this.clocks == clocks && this.bvs == bvs && this.initLoc == initLoc
      ensures this.inputAct == inputAct && this.outputAct == outputAct && this.actions == actions
    {
      this.name := name;
      this.locations := locations;
      this.edges := edges;
      this.clocks := clocks;
      this.bvs := bvs;
      this.inputAct := inputAct;
      this.outputAct := outputAct;
      this.actions := actions;
      this.initLoc := initLoc;
    }

    method SetName(n: string)
      modifies this
      ensures name == n && edges == old(edges)
    {
      name := n;
    }

    /**
     * `getMaxBoundsForAllClocks()`: every clock, with its bound; a clock
     * listed twice is folded twice to the same bound.
     */
    method MaxBoundsForAllClocks() returns (result: map<Clock, int>)
      ensures forall c :: c in result <==> c in clocks
      ensures forall c :: c in result ==> result[c] == ClockBound(edges, locations, c)
    {
      result := map[];
      for i := 0 to |clocks|
        invariant forall c :: c in result <==> c in clocks[..i]
        invariant forall c :: c in result ==> result[c] == ClockBound(edges, locations, c)
      {
        result := BoundOneClock(result, clocks[i]);
        assert clocks[..i + 1] == clocks[..i] + [clocks[i]];
      }
      assert clocks[..|clocks|] == clocks;
    }

    /** The body of the outer loop: folds every edge, then every location, into the clock's entry. */
    method BoundOneClock(before: map<Clock, int>, clock: Clock) returns (result: map<Clock, int>)
      requires clock in before ==> before[clock] == ClockBound(edges, locations, clock)
      ensures result == before[clock := ClockBound(edges, locations, clock)]
    {
      ghost var start := if clock in before then before[clock] else 0;
      ghost var em, lm := EdgesMax(edges, clock), LocationsMax(locations, clock);
      result := FoldEdgeBounds(before, clock);
      ghost var mid := result;
      result := FoldLocationBounds(result, clock);
      BoundOfFolds(start, em, lm, ClockBound(edges, locations, clock));
      if clock in before || |edges| > 0 {
        assert mid == before[clock := Max(start, em)];
        assert result == before[clock := Max(start, em)][clock := Max(Max(start, em), lm)];
        UpdateTwice(before, clock, Max(start, em), Max(Max(start, em), lm));
      } else if |locations| > 0 {
        assert mid == before && em == 0;
      } else {
        assert result == before && em == 0 && lm == 0;
      }
      if clock !in result || result[clock] == 0 {
        result := result[clock := 1];
      }
    }

    /** `result.compute(clock, ...)` over the edges: the entry becomes the larger of its value and each edge's constant. */
    method FoldEdgeBounds(before: map<Clock, int>, clock: Clock) returns (result: map<Clock, int>)
      requires clock in before ==> before[clock] >= 0
      ensures clock in before || |edges| > 0 ==>
        result == before[clock := Max(if clock in before then before[clock] else 0, EdgesMax(edges, clock))]
      ensures !(clock in before || |edges| > 0) ==> result == before
    {
      var start := if clock in before then before[clock] else 0;
      result := before;
      for k := 0 to |edges|
        invariant clock in before || k > 0 ==> result == before[clock := Max(start, EdgesMax(edges[..k], clock))]
        invariant !(clock in before || k > 0) ==> result == before
      {
        EdgesMaxStep(edges, k, clock);
        var bound := MaxConstant(edges[k].guard, clock);
        FoldStep(before, clock, start, EdgesMax(edges[..k], clock), bound, clock in before || k > 0, result);
        var value := if clock in result then result[clock] else bound;
        result := result[clock := Max(value, bound)];
      }
      assert edges[..|edges|] == edges;
    }

    /** The same fold over the locations' invariant constants. */
    method FoldLocationBounds(before: map<Clock, int>, clock: Clock) returns (result: map<Clock, int>)
      requires clock in before ==> before[clock] >= 0
      ensures clock in before || |locations| > 0 ==>
        result == before[clock := Max(if clock in before then before[clock] else 0, LocationsMax(locations, clock))]
      ensures !(clock in before || |locations| > 0) ==> result == before
    {
      var start := if clock in before then before[clock] else 0;
      result := before;
      for k := 0 to |locations|
        invariant clock in before || k > 0 ==> result == before[clock := Max(start, LocationsMax(locations[..k], clock))]
        invariant !(clock in before || k > 0) ==> result == before
      {
        LocationsMaxStep(locations, k, clock);
        var bound := LocationMaxConstant(locations[k], clock);
        FoldStep(before, clock, start, LocationsMax(locations[..k], clock), bound, clock in before || k > 0, result);
        var value := if clock in result then result[clock] else bound;
        result := result[clock := Max(value, bound)];
      }
      assert locations[..|locations|] == locations;
    }

    /**
     * `getEdgesFromLocation(loc)`: a universal location offers one
     * true-guarded, update-free self-loop per action, in the set's
     * iteration order, and ignores the stored edges; any other location has
     * its stored outgoing edges.
     */
    method EdgesFromLocation(loc: Location) returns (r: seq<Edge>)
      ensures loc.isUniversal ==> exists order :: IsOrdering(order, actions) && r == Loops(loc, order, inputAct)
      ensures !loc.isUniversal ==> r == FromLocation(edges, loc)
    {
      if loc.isUniversal {
        var order := Ordering(actions);
        r := [];
        for i := 0 to |order|
          invariant r == Loops(loc, order[..i], inputAct)
        {
          r := r + [UniversalLoop(loc, order[i], order[i] in inputAct)];
        }
        assert order[..|order|] == order;
        return;
      }
      r := FromLocation(edges, loc);
    }

    method EdgesFromLocationAndSignal(loc: Location, signal: Channel) returns (r: seq<Edge>)
      ensures r == SignalEdges(edges, actions, inputAct, loc, signal)
    {
      var fromLocation := EdgesFromLocation(loc);
      r := WithChannelName(fromLocation, signal.name);
      if loc.isUniversal {
        ghost var order :| IsOrdering(order, actions) && fromLocation == Loops(loc, order, inputAct);
        LoopsWithName(loc, order, inputAct, signal);
      }
    }

    /**
     * `addTargetInvariantToEdges()`: each edge's guard is strengthened with
     * the back-image of its target invariant; no edge is added or removed.
     */
    method AddTargetInvariantToEdges(e: Engine)
      modifies this
      ensures name == old(name)
      ensures edges == StrengthenAll(old(edges), e)
    {
      var i := 0;
      while i < |edges|
        invariant 0 <= i <= |edges| == |old(edges)|
        invariant name == old(name)
        invariant forall k :: 0 <= k < i ==> edges[k] == Strengthened(old(edges)[k], e)
        invariant forall k :: i <= k < |edges| ==> edges[k] == old(edges)[k]
      {
        var edge := edges[i];
        var past := BackImage(edge, e);
        if !Equiv(past, True()) {
          edges := edges[i := edge.(guard := e.toGuard(Conjunction(past, EdgeGuardCDD(edge, e))))];
        }
        i := i + 1;
      }
    }

    /**
     * `makeInputEnabled()`: for every location and every input channel (in
     * the set's iteration order), the part of the invariant where no input
     * edge on the channel can be taken gets an input self-loop, when it is
     * not empty.
     */
    method MakeInputEnabled(e: Engine)
      modifies this
      ensures name == old(name)
      ensures exists order :: (IsOrdering(order, inputAct) &&
        edges == EnableAll(old(edges), actions, inputAct, locations, order, e))
    {
      var order := Ordering(inputAct);
      for i := 0 to |locations|
        invariant name == old(name)
        invariant edges == EnableAll(old(edges), actions, inputAct, locations[..i], order, e)
      {
        EnableInputs(locations[i], order, e);
        assert locations[..i + 1][..i] == locations[..i];
      }
      assert locations[..|locations|] == locations;
    }

    /** The middle loop of `makeInputEnabled()`: every input of one location, in the given order. */
    method EnableInputs(loc: Location, order: seq<Channel>, e: Engine)
      modifies this
      ensures name == old(name)
      ensures edges == EnableLocation(old(edges), actions, inputAct, loc, order, e)
    {
      var sourceInvariant := InvariantCDD(loc, e);
      for j := 0 to |order|
        invariant name == old(name)
        invariant edges == EnableLocation(old(edges), actions, inputAct, loc, order[..j], e)
      {
        EnableLocationStep(old(edges), actions, inputAct, loc, order, j, e);
        EnableInput(loc, sourceInvariant, order[j], e);
      }
      assert order[..|order|] == order;
    }

    /**
     * The body of the inner loop of `makeInputEnabled()`: the input edges of
     * the location on the channel, the union of their back-images with the
     * negative part removed, and a self-loop on what the invariant has left.
     */
    method EnableInput(loc: Location, sourceInvariant: CDD, input: Channel, e: Engine)
      requires sourceInvariant == InvariantCDD(loc, e)
      modifies this
      ensures name == old(name)
      ensures edges == EnableStep(old(edges), actions, inputAct, loc, input, e)
    {
      var inputEdges := EdgesFromLocationAndSignal(loc, input);
      var remainder;
      if inputEdges != [] {
        var all := UnionOfBackImages(inputEdges, e);
        all := Reduce(RemoveNegative(all));
        remainder := Minus(sourceInvariant, all);
      } else {
        remainder := sourceInvariant;
      }
      if IsNotFalse(remainder) {
        edges := edges + [InputLoop(loc, input, remainder, e)];
      }
    }
  }

  /** The disjunction of the edges' back-images, folded from `false` in list order. */
  method UnionOfBackImages(inputEdges: seq<Edge>, e: Engine) returns (all: CDD)
    ensures all == BackImages(inputEdges, e)
  {
    all := False();
    for k := 0 to |inputEdges|
      invariant all == BackImages(inputEdges[..k], e)
    {
      assert inputEdges[..k + 1][..k] == inputEdges[..k];
      all := Disjunction(all, BackImage(inputEdges[k], e));
    }
    assert inputEdges[..|inputEdges|] == inputEdges;
  }

  /**
   * The copy constructor `Automaton(origin)`: named origin + "Copy", with
   * fresh clocks and variables named after the originals + "Copy" and owned
   * by the copy, copied locations (the last initial one becomes the initial
   * location), edges between the copied locations at the same indices, and
   * the origin's action sets. An edge endpoint equal to no location fails
   * the list lookup at index -1.
   */
  method CopyOf(origin: Automaton, copyGuard: Guard -> Guard) returns (r: Result<Automaton>)
    ensures r.Failure? <==> exists k :: 0 <= k < |origin.edges| && !EndpointsFound(origin.locations, origin.edges[k])
    ensures r.Failure? ==> r.error == IndexOutOfBounds(-1)
    ensures r.Success? ==> fresh(r.value)
    ensures r.Success? ==> var copy := r.value;
      copy.name == origin.name + "Copy" &&
      |copy.clocks| == |origin.clocks| && |copy.bvs| == |origin.bvs| &&
      (forall i :: 0 <= i < |origin.clocks| ==>
        copy.clocks[i] == NewClock(origin.clocks[i].originalName + "Copy", copy.name)) &&
      (forall i :: 0 <= i < |origin.bvs| ==>
        copy.bvs[i] == NewBoolVar(origin.bvs[i].originalName + "Copy", copy.name, origin.bvs[i].data)) &&
      |copy.locations| == |origin.locations| &&
      (forall i :: 0 <= i < |origin.locations| ==> copy.locations[i] == CopiedLocation(origin.locations[i], copyGuard)) &&
      copy.initLoc == LastInitial(copy.locations) &&
      |copy.edges| == |origin.edges| &&
      (forall k :: 0 <= k < |origin.edges| ==>
        0 <= IndexOf(origin.locations, origin.edges[k].source) && 0 <= IndexOf(origin.locations, origin.edges[k].target) &&
        copy.edges[k].source == copy.locations[IndexOf(origin.locations, origin.edges[k].source)] &&
        copy.edges[k].target == copy.locations[IndexOf(origin.locations, origin.edges[k].target)] &&
        copy.edges[k].channel == origin.edges[k].channel && copy.edges[k].isInput == origin.edges[k].isInput &&
        copy.edges[k].guard == copyGuard(origin.edges[k].guard) && copy.edges[k].updates == origin.edges[k].updates) &&
      copy.inputAct == origin.inputAct && copy.outputAct == origin.outputAct && copy.actions == origin.actions
  {
    var name := origin.name + "Copy";
    var clocks := CopyClocks(origin.clocks, name);
    var bvs := CopyBoolVars(origin.bvs, name);
    var locations, initLoc := CopyLocations(origin.locations, copyGuard);
    var copied := CopyEdges(origin.locations, locations, origin.edges, copyGuard);
    CopiedEdgesSucceeds(origin.locations, locations, origin.edges, copyGuard);
    if copied.Failure? {
      return Failure(copied.error);
    }
    var edges := copied.value;
    CopiedEdgesLength(origin.locations, locations, origin.edges, copyGuard);
    forall k | 0 <= k < |origin.edges|
      ensures edges[k] == CopiedEdge(origin.locations, locations, origin.edges[k], copyGuard).value
    {
      CopiedEdgeAt(origin.locations, locations, origin.edges, copyGuard, k);
    }
    var copy := new Automaton.Assemble(name, locations, edges, clocks, bvs, origin.inputAct, origin.outputAct, origin.actions, initLoc);
    r := Success(copy);
  }

  method CopyClocks(clocks: seq<Clock>, owner: string) returns (r: seq<Clock>)
    ensures |r| == |clocks|
    ensures forall i :: 0 <= i < |clocks| ==> r[i] == NewClock(clocks[i].originalName + "Copy", owner)
  {
    r := [];
    for i := 0 to |clocks|
      invariant |r| == i
      invariant forall j :: 0 <= j < i ==> r[j] == NewClock(clocks[j].originalName + "Copy", owner)
    {
      r := r + [NewClock(clocks[i].originalName + "Copy", owner)];
    }
  }

  method CopyBoolVars(bvs: seq<BoolVar>, owner: string) returns (r: seq<BoolVar>)
    ensures |r| == |bvs|
    ensures forall i :: 0 <= i < |bvs| ==> r[i] == NewBoolVar(bvs[i].originalName + "Copy", owner, bvs[i].data)
  {
    r := [];
    for i := 0 to |bvs|
      invariant |r| == i
      invariant forall j :: 0 <= j < i ==> r[j] == NewBoolVar(bvs[j].originalName + "Copy", owner, bvs[j].data)
    {
      r := r + [NewBoolVar(bvs[i].originalName + "Copy", owner, bvs[i].data)];
    }
  }

  /** The copied locations, and the last copied one flagged initial. */
  method CopyLocations(ls: seq<Location>, copyGuard: Guard -> Guard) returns (r: seq<Location>, initLoc: Option<Location>)
    ensures |r| == |ls|
    ensures forall i :: 0 <= i < |ls| ==> r[i] == CopiedLocation(ls[i], copyGuard)
    ensures initLoc == LastInitial(r)
  {
    r := [];
    initLoc := None;
    for i := 0 to |ls|
      invariant |r| == i
      invariant forall j :: 0 <= j < i ==> r[j] == CopiedLocation(ls[j], copyGuard)
      invariant initLoc == LastInitial(r)
    {
      var copied := CopiedLocation(ls[i], copyGuard);
      r := r + [copied];
      assert r[..|r| - 1] == r[..i];
      if ls[i].isInitial {
        initLoc := Some(copied);
      }
    }
  }

  /** The edge loop of the copy constructor, stopping at the first failed lookup. */
  method CopyEdges(oldLocs: seq<Location>, newLocs: seq<Location>, edges: seq<Edge>, copyGuard: Guard -> Guard) returns (r: Result<seq<Edge>>)
    requires |oldLocs| == |newLocs|
    ensures r == CopiedEdges(oldLocs, newLocs, edges, copyGuard)
  {
    var copied := [];
    for k := 0 to |edges|
      invariant CopiedEdges(oldLocs, newLocs, edges[..k], copyGuard) == Success(copied)
    {
      assert edges[..k + 1][..k] == edges[..k];
      var edge := edges[k];
      var sourceIndex := IndexOf(oldLocs, edge.source);
      var targetIndex := IndexOf(oldLocs, edge.target);
      if sourceIndex < 0 || targetIndex < 0 {
        CopiedEdgesFailsFrom(oldLocs, newLocs, edges, copyGuard, k + 1);
        return Failure(IndexOutOfBounds(-1));
      }
      copied := copied + [Edge(newLocs[sourceIndex], newLocs[targetIndex], edge.channel, edge.isInput, copyGuard(edge.guard), edge.updates)];
    }
    assert edges[..|edges|] == edges;
    return Success(copied);
  }

  /** Once a prefix of the edges fails to copy, the whole list does, with the same error. */
  lemma {:induction false} CopiedEdgesFailsFrom(oldLocs: seq<Location>, newLocs: seq<Location>, edges: seq<Edge>, copyGuard: Guard -> Guard, n: nat)
    requires |oldLocs| == |newLocs| && n <= |edges|
    requires CopiedEdges(oldLocs, newLocs, edges[..n], copyGuard).Failure?
    ensures CopiedEdges(oldLocs, newLocs, edges, copyGuard) == CopiedEdges(oldLocs, newLocs, edges[..n], copyGuard)
    decreases |edges|
  {
    if n < |edges| {
      assert edges[..|edges| - 1][..n] == edges[..n];
      CopiedEdgesFailsFrom(oldLocs, newLocs, edges[..|edges| - 1], copyGuard, n);
    } else {
      assert edges[..n] == edges;
    }
  }
}
