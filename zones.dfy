/**
 * The symbolic constraint engine (CDD, a federation of clock zones) is a
 * native library the quotient only consumes. It is modelled here as an
 * abstract set of valuations: the valuation domain is infinite (one point per
 * integer) and a constraint is either a finite set of points or the
 * complement of one. That family is closed under every operation the core
 * uses, so conjunction, disjunction, negation and subtraction are the exact
 * set operations and the subset, equivalence and emptiness tests are the
 * exact set relations.
 */
module Zones {

  /** An abstract clock/variable valuation. */
  type Valuation = int

  /** A constraint: the points listed, or every point except those listed. */
  datatype CDD = Finite(points: set<Valuation>) | Cofinite(excluded: set<Valuation>)

  /** The meaning of a constraint: the valuations it admits. */
  ghost predicate Contains(c: CDD, v: Valuation) {
    match c
    case Finite(s) => v in s
    case Cofinite(s) => v !in s
  }

  /** `CDD.cddTrue()`. */
  function True(): (r: CDD)
    ensures forall v :: Contains(r, v)
  {
    Cofinite({})
  }

  /** `CDD.cddFalse()`. */
  function False(): (r: CDD)
    ensures forall v :: !Contains(r, v)
  {
    Finite({})
  }

  function Conjunction(a: CDD, b: CDD): (r: CDD)
    ensures forall v :: Contains(r, v) <==> Contains(a, v) && Contains(b, v)
  {
    match (a, b)
    case (Finite(x), Finite(y)) => Finite(x * y)
    case (Finite(x), Cofinite(y)) => Finite(x - y)
    case (Cofinite(x), Finite(y)) => Finite(y - x)
    case (Cofinite(x), Cofinite(y)) => Cofinite(x + y)
  }

  function Disjunction(a: CDD, b: CDD): (r: CDD)
    ensures forall v :: Contains(r, v) <==> Contains(a, v) || Contains(b, v)
  {
    match (a, b)
    case (Finite(x), Finite(y)) => Finite(x + y)
    case (Finite(x), Cofinite(y)) => Cofinite(y - x)
    case (Cofinite(x), Finite(y)) => Cofinite(x - y)
    case (Cofinite(x), Cofinite(y)) => Cofinite(x * y)
  }

  function Negation(a: CDD): (r: CDD)
    ensures forall v :: Contains(r, v) <==> !Contains(a, v)
  {
    match a
    case Finite(x) => Cofinite(x)
    case Cofinite(x) => Finite(x)
  }

  function Minus(a: CDD, b: CDD): (r: CDD)
    ensures forall v :: Contains(r, v) <==> Contains(a, v) && !Contains(b, v)
  {
    Conjunction(a, Negation(b))
  }

  /** `removeNegative()` and `reduce()` only canonicalise: semantically the identity. */
  function RemoveNegative(a: CDD): (r: CDD)
    ensures forall v :: Contains(r, v) <==> Contains(a, v)
  {
    a
  }

  function Reduce(a: CDD): (r: CDD)
    ensures forall v :: Contains(r, v) <==> Contains(a, v)
  {
    a
  }

  predicate IsNotFalse(a: CDD) {
    a != Finite({})
  }

  predicate IsSubset(a: CDD, b: CDD) {
    match (a, b)
    case (Finite(x), Finite(y)) => x <= y
    case (Finite(x), Cofinite(y)) => x !! y
    case (Cofinite(x), Finite(y)) => false
    case (Cofinite(x), Cofinite(y)) => y <= x
  }

  /** `equiv` (and `equals`): the representation is canonical. */
  predicate Equiv(a: CDD, b: CDD) {
    a == b
  }

  /** `isUnrestrained()`: the constraint admits everything. */
  predicate IsUnrestrained(a: CDD) {
    a == True()
  }

  /** A non-empty set has a member. */
  lemma MemberOf(s: set<Valuation>)
    ensures s != {} ==> exists x :: x in s
  {
    if !(exists x :: x in s) {
      assert forall x :: x !in s;
      assert s == {};
    }
  }

  /** Two sets that are not included one in the other differ at some point. */
  lemma NotIncluded(x: set<Valuation>, y: set<Valuation>)
    ensures !(x <= y) ==> exists p :: p in x && p !in y
  {
    if !(exists p :: p in x && p !in y) {
      assert forall p :: p in x ==> p in y;
    }
  }

  /** Two sets that are not disjoint share a point. */
  lemma Overlapping(x: set<Valuation>, y: set<Valuation>)
    ensures !(x !! y) ==> exists p :: p in x && p in y
  {
    if !(exists p :: p in x && p in y) {
      assert forall p :: !(p in x && p in y);
    }
  }

  /** Every finite set of points has an upper bound outside it. */
  lemma {:induction false} Above(s: set<Valuation>) returns (b: Valuation)
    ensures forall y :: y in s ==> y < b
    decreases |s|
  {
    MemberOf(s);
    if s == {} {
      b := 0;
    } else {
      var x :| x in s;
      var b' := Above(s - {x});
      b := if x + 1 > b' then x + 1 else b';
      assert forall y :: y in s ==> y == x || y in s - {x};
    }
  }

  lemma IsNotFalseMeansNonEmpty(a: CDD)
    ensures IsNotFalse(a) <==> exists v :: Contains(a, v)
  {
    if a.Cofinite? {
      var b := Above(a.excluded);
      assert Contains(a, b);
    } else {
      MemberOf(a.points);
      if a.points != {} {
        var x :| x in a.points;
        assert Contains(a, x);
      }
    }
  }

  lemma IsSubsetMeansInclusion(a: CDD, b: CDD)
    ensures IsSubset(a, b) <==> forall v :: Contains(a, v) ==> Contains(b, v)
  {
    match (a, b)
    case (Finite(x), Finite(y)) =>
      NotIncluded(x, y);
      if !(x <= y) {
        var p :| p in x && p !in y;
        assert Contains(a, p) && !Contains(b, p);
      }
    case (Finite(x), Cofinite(y)) =>
      Overlapping(x, y);
      if !(x !! y) {
        var p :| p in x && p in y;
        assert Contains(a, p) && !Contains(b, p);
      }
    case (Cofinite(x), Finite(y)) =>
      var p := Above(x + y);
      assert Contains(a, p) && !Contains(b, p);
    case (Cofinite(x), Cofinite(y)) =>
      NotIncluded(y, x);
      if !(y <= x) {
        var p :| p in y && p !in x;
        assert Contains(a, p) && !Contains(b, p);
      }
  }

  lemma EquivMeansSameValuations(a: CDD, b: CDD)
    ensures Equiv(a, b) <==> forall v :: Contains(a, v) <==> Contains(b, v)
  {
    IsSubsetMeansInclusion(a, b);
    IsSubsetMeansInclusion(b, a);
    if !Equiv(a, b) {
      match (a, b)
      case (Finite(x), Finite(y)) =>
        assert !(x <= y && y <= x);
      case (Cofinite(x), Cofinite(y)) =>
        assert !(x <= y && y <= x);
      case (Finite(x), Cofinite(y)) =>
        var p := Above(x + y);
        assert !Contains(a, p) && Contains(b, p);
      case (Cofinite(x), Finite(y)) =>
        var p := Above(x + y);
        assert Contains(a, p) && !Contains(b, p);
    }
  }

  lemma IsUnrestrainedMeansEverything(a: CDD)
    ensures IsUnrestrained(a) <==> forall v :: Contains(a, v)
  {
    EquivMeansSameValuations(a, True());
  }
}
