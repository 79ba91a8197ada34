/**
 * Guards and invariants over clocks and boolean variables (the abstract class
 * Guard and its subclasses), and the bridge between guards and the constraint
 * engine. TrueGuard, FalseGuard and OrGuard are modelled from their source;
 * ClockGuard, BoolGuard and AndGuard are not part of this model's source and
 * are kept as plain records; OtherGuard stands for any further subclass.
 */
module Guards {
  import opened Failures
  import opened Zones
  import opened Identifiers

  datatype Relation = Less | LessEqual | Equal | GreaterEqual | Greater

  datatype Guard =
    | TrueGuard
    | FalseGuard
    | ClockGuard(clock: Clock, bound: nat, relation: Relation)
    | BoolGuard(variable: BoolVar, value: bool)
    | AndGuard(conjuncts: seq<Guard>)
    | OrGuard(guards: seq<Guard>)
    | OtherGuard(kind: string)

  /**
   * The native engine's operations that the core calls but that this model
   * does not define: the zone of an atomic guard, the conversion of a
   * constraint back into a guard (`getGuard`, `toGuardList`), and
   * `transitionBack`, which pulls a target invariant backwards across a guard
   * and its updates, and the constant `cddZero()`.
   */
  datatype Engine = Engine(
    atom: Guard -> CDD,
    toGuard: CDD -> Guard,
    back: (CDD, CDD, seq<Update>) -> CDD,
    zero: CDD)

  /** `new CDD(guard)`: the constraint a guard denotes. */
  function ToCDD(g: Guard, e: Engine): CDD
    decreases g, 1
  {
    match g
    case TrueGuard => True()
    case FalseGuard => False()
    case AndGuard(gs) => ConjoinAll(gs, e)
    case OrGuard(gs) => DisjoinAll(gs, e)
    case _ => e.atom(g)
  }

  function ConjoinAll(gs: seq<Guard>, e: Engine): CDD
    decreases gs, 0
  {
    if gs == [] then True() else Conjunction(ConjoinAll(gs[..|gs| - 1], e), ToCDD(gs[|gs| - 1], e))
  }

  function DisjoinAll(gs: seq<Guard>, e: Engine): CDD
    decreases gs, 0
  {
    if gs == [] then False() else Disjunction(DisjoinAll(gs[..|gs| - 1], e), ToCDD(gs[|gs| - 1], e))
  }

  /** An engine whose guard rendering of a constraint denotes that same constraint. */
  ghost predicate Faithful(e: Engine) {
    forall c :: ToCDD(e.toGuard(c), e) == c
  }

  function Max(a: int, b: int): int {
    if a < b then b else a
  }

  /**
   * `getMaxConstant(clock)`: 0 for TrueGuard and FalseGuard, the largest
   * child constant (and at least 0) for OrGuard; AndGuard is read the same
   * way and a clock guard gives its bound for its own clock.
   */
  function MaxConstant(g: Guard, clock: Clock): (r: int)
    ensures r >= 0
    decreases g, 1
  {
    match g
    case ClockGuard(c, bound, _) => if c == clock then bound else 0
    case AndGuard(gs) => MaxOver(gs, clock)
    case OrGuard(gs) => MaxOver(gs, clock)
    case _ => 0
  }

  /** The fold `max = 0; for (guard : guards) max = Math.max(max, ...)`. */
  function MaxOver(gs: seq<Guard>, clock: Clock): (r: int)
    ensures r >= 0
    decreases gs, 0
  {
    if gs == [] then 0 else Max(MaxOver(gs[..|gs| - 1], clock), MaxConstant(gs[|gs| - 1], clock))
  }

  lemma {:induction false} MaxOverIsMaximum(gs: seq<Guard>, clock: Clock)
    ensures forall i :: 0 <= i < |gs| ==> MaxConstant(gs[i], clock) <= MaxOver(gs, clock)
    ensures MaxOver(gs, clock) == 0 || exists i :: 0 <= i < |gs| && MaxConstant(gs[i], clock) == MaxOver(gs, clock)
  {
    if gs != [] {
      var init := gs[..|gs| - 1];
      MaxOverIsMaximum(init, clock);
      assert forall i :: 0 <= i < |init| ==> gs[i] == init[i];
    }
  }

  /** `OrGuard.getMaxConstant`: the max-accumulating loop. */
  method OrMaxConstant(guards: seq<Guard>, clock: Clock) returns (max: int)
    ensures max >= 0
    ensures forall i :: 0 <= i < |guards| ==> MaxConstant(guards[i], clock) <= max
    ensures max == 0 || exists i :: 0 <= i < |guards| && MaxConstant(guards[i], clock) == max
    ensures max == MaxConstant(OrGuard(guards), clock)
  {
    max := 0;
    var i := 0;
    while i < |guards|
      invariant 0 <= i <= |guards|
      invariant max == MaxOver(guards[..i], clock)
    {
      assert guards[..i + 1][..i] == guards[..i];
      max := Max(max, MaxConstant(guards[i], clock));
      i := i + 1;
    }
    assert guards[..i] == guards;
    MaxOverIsMaximum(guards, clock);
  }

  /**
   * `equals`: a TrueGuard equals exactly the TrueGuards, a FalseGuard exactly
   * the FalseGuards, an OrGuard the OrGuards whose lists are equal element by
   * element in order; the other kinds compare their fields.
   */
  predicate GuardEquals(g: Guard, h: Guard)
    decreases g, 1
  {
    match g
    case TrueGuard => h.TrueGuard?
    case FalseGuard => h.FalseGuard?
    case OrGuard(gs) => h.OrGuard? && ListEquals(gs, h.guards)
    case _ => g == h
  }

  /** `Arrays.equals` over two guard lists. */
  predicate ListEquals(gs: seq<Guard>, hs: seq<Guard>)
    decreases gs, 0
  {
    |gs| == |hs| && forall i :: 0 <= i < |gs| ==> GuardEquals(gs[i], hs[i])
  }

  /** Guard equality is structural equality. */
  lemma {:induction false} GuardEqualsIsEquality(g: Guard, h: Guard)
    ensures GuardEquals(g, h) <==> g == h
    decreases g
  {
    if g.OrGuard? && h.OrGuard? {
      var gs, hs := g.guards, h.guards;
      if |gs| == |hs| {
        forall i | 0 <= i < |gs|
          ensures GuardEquals(gs[i], hs[i]) <==> gs[i] == hs[i]
        {
          GuardEqualsIsEquality(gs[i], hs[i]);
        }
        if ListEquals(gs, hs) {
          assert gs == hs;
        }
      }
    }
  }

  /** `hashCode` of the three classes modelled from source: `Objects.hash(true)` or `Objects.hash(false)`. */
  function HashCode(g: Guard): int
    requires g.TrueGuard? || g.FalseGuard? || g.OrGuard?
  {
    if g.TrueGuard? then 31 + 1231 else 31 + 1237
  }

  /** `toString` of the two constant guards. */
  function ConstantString(g: Guard): string
    requires g.TrueGuard? || g.FalseGuard?
  {
    if g.TrueGuard? then "true" else "false"
  }

  /** What TrueGuard promises: no clock constant, equal to every TrueGuard and nothing else, rendered "true". */
  lemma TrueGuardBehaviour(h: Guard, clock: Clock)
    ensures MaxConstant(TrueGuard, clock) == 0
    ensures GuardEquals(TrueGuard, h) <==> h.TrueGuard?
    ensures ConstantString(TrueGuard) == "true"
    ensures h.TrueGuard? ==> HashCode(h) == HashCode(TrueGuard)
    ensures HashCode(TrueGuard) != HashCode(FalseGuard)
  {
  }

  /**
   * What FalseGuard promises: no clock constant, equal to every FalseGuard and
   * nothing else, rendered "false"; an OrGuard hashes like a FalseGuard.
   */
  lemma FalseGuardBehaviour(h: Guard, clock: Clock)
    ensures MaxConstant(FalseGuard, clock) == 0
    ensures GuardEquals(FalseGuard, h) <==> h.FalseGuard?
    ensures ConstantString(FalseGuard) == "false"
    ensures h.FalseGuard? || h.OrGuard? ==> HashCode(h) == HashCode(FalseGuard)
  {
  }

  // ---------------------------------------------------------------------
  // The normalising OrGuard constructor

  predicate HasTrueGuard(gs: seq<Guard>) {
    exists i :: 0 <= i < |gs| && gs[i].TrueGuard?
  }

  /** The stream filter that drops every FalseGuard, keeping the order. */
  function WithoutFalse(gs: seq<Guard>): seq<Guard> {
    if gs == [] then []
    else if gs[|gs| - 1].FalseGuard? then WithoutFalse(gs[..|gs| - 1])
    else WithoutFalse(gs[..|gs| - 1]) + [gs[|gs| - 1]]
  }

  /** The guard list the OrGuard constructor keeps, as the source computes it. */
  function Normalised(gs: seq<Guard>): seq<Guard> {
    var kept := if HasTrueGuard(gs) then [TrueGuard] else gs;
    var filtered := WithoutFalse(kept);
    if filtered == [] then [TrueGuard] else filtered
  }

  /** `new OrGuard(guards)`: clear-and-add when a TrueGuard is present, then filter. */
  method NewOrGuard(guards: seq<Guard>) returns (g: Guard)
    ensures g.OrGuard? && g.guards == Normalised(guards)
  {
    var list := guards;
    if HasTrueGuard(list) {
      list := [TrueGuard];
    }
    var filtered := [];
    var i := 0;
    while i < |list|
      invariant 0 <= i <= |list|
      invariant filtered == WithoutFalse(list[..i])
    {
      assert list[..i + 1][..i] == list[..i];
      if !list[i].FalseGuard? {
        filtered := filtered + [list[i]];
      }
      i := i + 1;
    }
    assert list[..i] == list;
    if filtered == [] {
      filtered := [TrueGuard];
    }
    g := OrGuard(filtered);
  }

  /** `Iterables.concat` of several guard lists. */
  function Concat(lists: seq<seq<Guard>>): seq<Guard> {
    if lists == [] then [] else Concat(lists[..|lists| - 1]) + lists[|lists| - 1]
  }

  lemma {:induction false} ConcatMembers(lists: seq<seq<Guard>>)
    ensures forall g :: g in Concat(lists) <==> exists i :: 0 <= i < |lists| && g in lists[i]
  {
    if lists != [] {
      var init := lists[..|lists| - 1];
      ConcatMembers(init);
      assert forall i :: 0 <= i < |init| ==> init[i] == lists[i];
    }
  }

  /** `new OrGuard(List<Guard>... lists)`: the lists joined in order, then normalised. */
  method NewOrGuardOfLists(lists: seq<seq<Guard>>) returns (g: Guard)
    ensures g.OrGuard? && g.guards == Normalised(Concat(lists))
    ensures (exists i :: 0 <= i < |lists| && TrueGuard in lists[i]) ==> g.guards == [TrueGuard]
  {
    ConcatMembers(lists);
    var all := Concat(lists);
    if exists i :: 0 <= i < |lists| && TrueGuard in lists[i] {
      var i :| 0 <= i < |lists| && TrueGuard in lists[i];
      assert TrueGuard in all;
      var k :| 0 <= k < |all| && all[k] == TrueGuard;
      NormalisedTrueAbsorbs(all);
    }
    g := NewOrGuard(all);
  }

  /**
   * As written, `new OrGuard(Guard... guards)` hands the constructor the
   * fixed-size view `Arrays.asList(guards)`; when a TrueGuard is present the
   * constructor's `clear()` on that view throws UnsupportedOperationException.
   */
  function OrGuardOfGuardsAsWritten(guards: seq<Guard>): (r: Result<Guard>)
    ensures r.Failure? <==> HasTrueGuard(guards)
    ensures r.Failure? ==> r.error == UnsupportedOperation
    ensures r.Success? ==> r.value.OrGuard? && r.value.guards == WithoutFalse(guards) + (if WithoutFalse(guards) == [] then [TrueGuard] else [])
  {
    if HasTrueGuard(guards) then Failure(UnsupportedOperation)
    else Success(OrGuard(Normalised(guards)))
  }

  /** A single TrueGuard argument is enough to make the varargs constructor throw. */
  lemma TrueGuardArgumentThrows()
    ensures OrGuardOfGuardsAsWritten([TrueGuard]) == Failure(UnsupportedOperation)
    ensures OrGuardOfGuardsAsWritten([FalseGuard]).Success?
  {
    assert [TrueGuard][0].TrueGuard?;
  }

  /**
   * Corrected `new OrGuard(Guard... guards)`: the arguments are copied into a
   * mutable list first, so the varargs form behaves like the list form.
   */
  method NewOrGuardOfGuards(guards: seq<Guard>) returns (g: Guard)
    ensures g.OrGuard? && g.guards == Normalised(guards)
    ensures HasTrueGuard(guards) ==> g.guards == [TrueGuard]
    ensures !HasTrueGuard(guards) ==> OrGuardOfGuardsAsWritten(guards) == Success(g)
  {
    if HasTrueGuard(guards) {
      NormalisedTrueAbsorbs(guards);
    }
    g := NewOrGuard(guards);
  }

  /** `toString`: the children's strings joined by " or ", in parentheses. */
  function OrString(gs: seq<Guard>, show: Guard -> string): (s: string)
    ensures |s| >= 2 && s[0] == '(' && s[|s| - 1] == ')'
    ensures |gs| == 1 ==> s == "(" + show(gs[0]) + ")"
  {
    "(" + Joined(gs, show) + ")"
  }

  function Joined(gs: seq<Guard>, show: Guard -> string): string {
    if gs == [] then ""
    else if |gs| == 1 then show(gs[0])
    else Joined(gs[..|gs| - 1], show) + " or " + show(gs[|gs| - 1])
  }

  /**
   * The children are rendered in order and separated by " or ": one more
   * child appends " or " and its rendering, and two children give
   * "(a or b)".
   */
  lemma OrStringJoins(gs: seq<Guard>, g: Guard, a: Guard, b: Guard, show: Guard -> string)
    ensures gs != [] ==> Joined(gs + [g], show) == Joined(gs, show) + " or " + show(g)
    ensures OrString([a, b], show) == "(" + show(a) + " or " + show(b) + ")"
  {
    assert (gs + [g])[..|gs|] == gs;
    assert [a, b][..1] == [a];
    assert Joined([a], show) == show(a);
    assert Joined([a, b], show) == show(a) + " or " + show(b);
  }

  lemma {:induction false} WithoutFalseMembers(gs: seq<Guard>)
    ensures forall g :: g in WithoutFalse(gs) <==> g in gs && !g.FalseGuard?
  {
    if gs != [] {
      WithoutFalseMembers(gs[..|gs| - 1]);
      assert gs == gs[..|gs| - 1] + [gs[|gs| - 1]];
    }
  }

  /** Filtering distributes over concatenation: surviving guards keep their relative order. */
  lemma {:induction false} WithoutFalseAppend(a: seq<Guard>, b: seq<Guard>)
    ensures WithoutFalse(a + b) == WithoutFalse(a) + WithoutFalse(b)
    decreases |b|
  {
    if b == [] {
      assert a + b == a;
    } else {
      var b' := b[..|b| - 1];
      assert (a + b)[..|a + b| - 1] == a + b';
      WithoutFalseAppend(a, b');
    }
  }

  /** If the input holds a TrueGuard, the list is exactly [TrueGuard]. */
  lemma NormalisedTrueAbsorbs(gs: seq<Guard>)
    requires HasTrueGuard(gs)
    ensures Normalised(gs) == [TrueGuard]
  {
    assert WithoutFalse([TrueGuard]) == WithoutFalse([]) + [TrueGuard];
  }

  /** The list is never empty and holds no FalseGuard. */
  lemma NormalisedShape(gs: seq<Guard>)
    ensures |Normalised(gs)| >= 1
    ensures forall g :: g in Normalised(gs) ==> !g.FalseGuard?
  {
    WithoutFalseMembers(if HasTrueGuard(gs) then [TrueGuard] else gs);
  }

  /** An empty or all-false input yields [TrueGuard]. */
  lemma NormalisedEmptyOrAllFalse(gs: seq<Guard>)
    requires forall g :: g in gs ==> g.FalseGuard?
    ensures Normalised(gs) == [TrueGuard]
  {
    AllFalseFilteredAway(gs);
  }

  lemma {:induction false} AllFalseFilteredAway(gs: seq<Guard>)
    requires forall g :: g in gs ==> g.FalseGuard?
    ensures WithoutFalse(gs) == []
  {
    if gs != [] {
      assert gs[|gs| - 1] in gs;
      assert forall g :: g in gs[..|gs| - 1] ==> g in gs;
      AllFalseFilteredAway(gs[..|gs| - 1]);
    }
  }

  /** Without a TrueGuard, the list is the input minus its FalseGuards, in input order. */
  lemma NormalisedKeepsOrder(gs: seq<Guard>)
    requires !HasTrueGuard(gs)
    requires exists g :: g in gs && !g.FalseGuard?
    ensures Normalised(gs) == WithoutFalse(gs)
    ensures forall g :: g in Normalised(gs) <==> g in gs && !g.FalseGuard?
  {
    WithoutFalseMembers(gs);
    var g :| g in gs && !g.FalseGuard?;
    assert g in WithoutFalse(gs);
  }

  // ---------------------------------------------------------------------
  // Finding: an OrGuard of FalseGuards only becomes a tautology

  /** Adding `false` to a disjunction changes nothing; adding `true` makes it `true`. */
  lemma {:induction false} DisjoinWithoutFalse(gs: seq<Guard>, e: Engine)
    ensures DisjoinAll(WithoutFalse(gs), e) == DisjoinAll(gs, e)
  {
    if gs != [] {
      DisjoinWithoutFalse(gs[..|gs| - 1], e);
      var w := WithoutFalse(gs[..|gs| - 1]);
      if gs[|gs| - 1].FalseGuard? {
        DisjoinFalse(DisjoinAll(gs[..|gs| - 1], e));
      } else {
        assert (w + [gs[|gs| - 1]])[..|w|] == w;
      }
    }
  }

  /** A `false` disjunct leaves the constraint as it is. */
  lemma DisjoinFalse(c: CDD)
    ensures Disjunction(c, False()) == c
  {
    match c
    case Finite(x) => assert x + {} == x;
    case Cofinite(x) => assert x - {} == x;
  }

  lemma {:induction false} DisjoinWithTrue(gs: seq<Guard>, e: Engine)
    requires HasTrueGuard(gs)
    ensures DisjoinAll(gs, e) == True()
  {
    var init := gs[..|gs| - 1];
    if !gs[|gs| - 1].TrueGuard? {
      var i :| 0 <= i < |gs| && gs[i].TrueGuard?;
      assert init[i].TrueGuard?;
      DisjoinWithTrue(init, e);
    }
  }

  /**
   * As written: a disjunction of FalseGuards denotes `false`, yet the
   * constructor turns it into [TrueGuard], which denotes `true`.
   */
  lemma AllFalseOrBecomesTrue(e: Engine)
    ensures ToCDD(OrGuard([FalseGuard, FalseGuard]), e) == False()
    ensures ToCDD(OrGuard(Normalised([FalseGuard, FalseGuard])), e) == True()
  {
    NormalisedEmptyOrAllFalse([FalseGuard, FalseGuard]);
    assert [FalseGuard, FalseGuard][..1] == [FalseGuard];
  }

  /** Corrected normalisation: an all-false, non-empty input stays `false`. */
  function SoundNormalised(gs: seq<Guard>): seq<Guard> {
    if gs != [] && !HasTrueGuard(gs) && WithoutFalse(gs) == [] then [FalseGuard] else Normalised(gs)
  }

  /** The corrected normalisation never changes what a non-empty disjunction denotes. */
  lemma SoundNormalisedPreservesMeaning(gs: seq<Guard>, e: Engine)
    requires gs != []
    ensures ToCDD(OrGuard(SoundNormalised(gs)), e) == ToCDD(OrGuard(gs), e)
  {
    if HasTrueGuard(gs) {
      NormalisedTrueAbsorbs(gs);
      DisjoinWithTrue(gs, e);
      DisjoinConstant(TrueGuard, e);
    } else if WithoutFalse(gs) == [] {
      DisjoinWithoutFalse(gs, e);
      DisjoinConstant(FalseGuard, e);
    } else {
      DisjoinWithoutFalse(gs, e);
    }
  }

  /** A one-guard disjunction of a constant guard denotes that constant. */
  lemma DisjoinConstant(g: Guard, e: Engine)
    requires g.TrueGuard? || g.FalseGuard?
    ensures DisjoinAll([g], e) == ToCDD(g, e)
  {
    assert [g][..0] == [];
  }

  // ---------------------------------------------------------------------
  // The OrGuard copy constructor

  predicate SameKind(g: Guard, h: Guard) {
    match g
    case TrueGuard => h.TrueGuard?
    case FalseGuard => h.FalseGuard?
    case ClockGuard(_, _, _) => h.ClockGuard?
    case BoolGuard(_, _) => h.BoolGuard?
    case AndGuard(_) => h.AndGuard?
    case OrGuard(_) => h.OrGuard?
    case OtherGuard(_) => h.OtherGuard?
  }

  /**
   * The per-child mapping of the copy constructor. Clock, variable and
   * conjunction guards are copied unchanged: their own copy constructors
   * (which rename clocks and variables) are not part of this model's source.
   */
  function CopyChild(g: Guard): Result<Guard>
    decreases g, 1
  {
    match g
    case ClockGuard(_, _, _) => Success(g)
    case BoolGuard(_, _) => Success(g)
    case FalseGuard => Success(FalseGuard)
    case TrueGuard => Success(TrueGuard)
    case AndGuard(_) => Success(g)
    case OrGuard(gs) =>
      var copied :- CopyAll(gs);
      Success(OrGuard(SoundNormalised(copied)))
    case OtherGuard(_) => Failure(ClassCast("Could not find a castable class for the guard"))
  }

  /** The stream map over the children, stopping at the first failure. */
  function CopyAll(gs: seq<Guard>): Result<seq<Guard>>
    decreases gs, 0
  {
    if gs == [] then Success([])
    else
      var init :- CopyAll(gs[..|gs| - 1]);
      var last :- CopyChild(gs[|gs| - 1]);
      Success(init + [last])
  }

  /** A guard the copy constructor cannot map: an unknown kind, directly or inside a nested OrGuard. */
  predicate Uncastable(g: Guard)
    decreases g, 1
  {
    match g
    case OtherGuard(_) => true
    case OrGuard(gs) => AnyUncastable(gs)
    case _ => false
  }

  predicate AnyUncastable(gs: seq<Guard>)
    decreases gs, 0
  {
    exists i :: 0 <= i < |gs| && Uncastable(gs[i])
  }

  /**
   * `new OrGuard(copy, ...)`: maps every child, then normalises; the corrected
   * normalisation keeps an all-false copy `false`.
   */
  function CopyOrGuard(g: Guard): Result<Guard>
    requires g.OrGuard?
  {
    var copied :- CopyAll(g.guards);
    Success(OrGuard(SoundNormalised(copied)))
  }

  /** The copy succeeds exactly when no child is of an unknown kind, and then maps each child to its own kind. */
  lemma {:induction false} CopyAllKeepsKinds(gs: seq<Guard>)
    ensures CopyAll(gs).Success? <==> !AnyUncastable(gs)
    ensures CopyAll(gs).Success? ==>
      |CopyAll(gs).value| == |gs| &&
      forall i :: 0 <= i < |gs| ==>
        SameKind(gs[i], CopyAll(gs).value[i]) && CopyChild(gs[i]).Success? &&
        CopyAll(gs).value[i] == CopyChild(gs[i]).value
    ensures CopyAll(gs).Failure? ==> CopyAll(gs).error.ClassCast?
    decreases gs, 0
  {
    if gs != [] {
      var init := gs[..|gs| - 1];
      var last := gs[|gs| - 1];
      CopyAllKeepsKinds(init);
      CopyChildKeepsKind(last);
      assert forall i :: 0 <= i < |init| ==> gs[i] == init[i];
      assert AnyUncastable(gs) <==> AnyUncastable(init) || Uncastable(last);
    }
  }

  lemma {:induction false} CopyChildKeepsKind(g: Guard)
    ensures CopyChild(g).Success? <==> !Uncastable(g)
    ensures CopyChild(g).Success? ==> SameKind(g, CopyChild(g).value)
    ensures !g.OrGuard? && !g.OtherGuard? ==> CopyChild(g) == Success(g)
    ensures CopyChild(g).Failure? ==> CopyChild(g).error.ClassCast?
    decreases g, 1
  {
    if g.OrGuard? {
      CopyAllKeepsKinds(g.guards);
    }
  }

  /**
   * The copy constructor throws ClassCastException exactly on an unknown kind
   * of child; an OrGuard whose children are all of the plain kinds is rebuilt
   * from those very children.
   */
  lemma CopyOrGuardFailsOnUnknownKind(g: Guard)
    requires g.OrGuard?
    ensures CopyOrGuard(g).Failure? <==> AnyUncastable(g.guards)
    ensures CopyOrGuard(g).Failure? ==> CopyOrGuard(g).error.ClassCast?
    ensures CopyOrGuard(g).Success? ==> CopyOrGuard(g).value.OrGuard?
    ensures (forall i :: 0 <= i < |g.guards| ==> !g.guards[i].OrGuard? && !g.guards[i].OtherGuard?) ==>
      CopyOrGuard(g) == Success(OrGuard(SoundNormalised(g.guards)))
  {
    CopyAllKeepsKinds(g.guards);
    if forall i :: 0 <= i < |g.guards| ==> !g.guards[i].OrGuard? && !g.guards[i].OtherGuard? {
      assert !AnyUncastable(g.guards);
      forall i | 0 <= i < |g.guards|
        ensures CopyAll(g.guards).value[i] == g.guards[i]
      {
        CopyChildKeepsKind(g.guards[i]);
      }
      assert CopyAll(g.guards).value == g.guards;
    }
  }

  /** No OrGuard, at any depth of nested disjunctions, has an empty list of children. */
  predicate NoEmptyOr(g: Guard)
    decreases g, 1
  {
    match g
    case OrGuard(gs) => gs != [] && AllNoEmptyOr(gs)
    case _ => true
  }

  predicate AllNoEmptyOr(gs: seq<Guard>)
    decreases gs, 0
  {
    forall i :: 0 <= i < |gs| ==> NoEmptyOr(gs[i])
  }

  /**
   * With the corrected normalisation, a successful copy denotes the same
   * constraint as the original, provided no nested disjunction is empty.
   */
  lemma {:induction false} CopyChildKeepsMeaning(g: Guard, e: Engine)
    requires !Uncastable(g) && NoEmptyOr(g)
    ensures CopyChild(g).Success? && ToCDD(CopyChild(g).value, e) == ToCDD(g, e)
    decreases g, 1
  {
    CopyChildKeepsKind(g);
    if g.OrGuard? {
      CopyAllKeepsMeaning(g.guards, e);
      CopyAllKeepsKinds(g.guards);
      var copied := CopyAll(g.guards).value;
      SoundNormalisedPreservesMeaning(copied, e);
    }
  }

  lemma {:induction false} CopyAllKeepsMeaning(gs: seq<Guard>, e: Engine)
    requires !AnyUncastable(gs) && AllNoEmptyOr(gs)
    ensures CopyAll(gs).Success? && DisjoinAll(CopyAll(gs).value, e) == DisjoinAll(gs, e)
    decreases gs, 0
  {
    CopyAllKeepsKinds(gs);
    if gs != [] {
      var init := gs[..|gs| - 1];
      var last := gs[|gs| - 1];
      assert forall i :: 0 <= i < |init| ==> gs[i] == init[i];
      CopyAllKeepsMeaning(init, e);
      CopyChildKeepsMeaning(last, e);
      var copied := CopyAll(gs).value;
      assert copied == CopyAll(init).value + [CopyChild(last).value];
      assert copied[..|copied| - 1] == CopyAll(init).value;
    }
  }

  /** The copy constructor keeps the meaning of an OrGuard with no empty disjunction inside. */
  lemma CopyOrGuardKeepsMeaning(g: Guard, e: Engine)
    requires g.OrGuard? && !AnyUncastable(g.guards) && NoEmptyOr(g)
    ensures CopyOrGuard(g).Success? && ToCDD(CopyOrGuard(g).value, e) == ToCDD(g, e)
  {
    CopyChildKeepsMeaning(g, e);
  }
}
