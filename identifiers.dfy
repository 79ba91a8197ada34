/** The exceptions the core throws, as values. */
module Failures {

  datatype Error =
    | IllegalArgument(message: string)
    | IndexOutOfBounds(index: int)
    | ClassCast(message: string)
    | NullPointer
    | UnsupportedOperation

  datatype Result<T> = Success(value: T) | Failure(error: Error) {
    predicate IsFailure() { Failure? }
    function PropagateFailure<U>(): Result<U>
      requires Failure?
    {
      Failure(error)
    }
    function Extract(): T
      requires Success?
    {
      value
    }
  }

  datatype Option<T> = None | Some(value: T)
}

/**
 * The identifier model: signal channels, and clocks and boolean variables as
 * named entities owned by the system that declared them. The classes Clock,
 * BoolVar, Channel and Update are not part of this model's source; they become
 * records here.
 */
module Identifiers {

  datatype Channel = Channel(name: string)

  /**
   * A uniquely named item (clock or boolean variable): the name it was
   * declared with, the system that owns it, the name it currently carries in
   * a merged container, whether it is a process-wide singleton, and the data
   * of its kind (nothing for a clock, the initial value for a variable).
   */
  datatype Named<T> = Named(
    originalName: string,
    ownerName: string,
    uniqueName: string,
    isSingleton: bool,
    data: T)

  type Clock = Named<()>

  type BoolVar = Named<bool>

  datatype Update =
    | ClockUpdate(clock: Clock, value: int)
    | BoolUpdate(variable: BoolVar, newValue: bool)

  /** A freshly declared clock carries its own name as its unique name. */
  function NewClock(name: string, owner: string): (c: Clock)
    ensures c.originalName == c.uniqueName == name && c.ownerName == owner && !c.isSingleton
  {
    Named(name, owner, name, false, ())
  }

  /** A freshly declared boolean variable, with its initial value. */
  function NewBoolVar(name: string, owner: string, initial: bool): (b: BoolVar)
    ensures b.originalName == b.uniqueName == name && b.ownerName == owner && !b.isSingleton && b.data == initial
  {
    Named(name, owner, name, false, initial)
  }

  /** Decimal rendering of a natural number. */
  function NatToString(n: nat): (s: string)
    ensures |s| >= 1
    ensures |s| == 1 <==> n < 10
    ensures forall i :: 0 <= i < |s| ==> '0' <= s[i] <= '9'
    decreases n
  {
    var digit := [('0' as int + n % 10) as char];
    if n < 10 then digit else NatToString(n / 10) + digit
  }

  /** The unique name `setUniqueName()` gives: owner-qualified. */
  function QualifiedName<T>(x: Named<T>): string {
    x.ownerName + "." + x.originalName
  }

  /** The unique name `setUniqueName(index)` gives: owner, index and original name. */
  function IndexedName<T>(x: Named<T>, index: nat): string {
    x.ownerName + "." + NatToString(index) + "." + x.originalName
  }
}

/**
 * Iteration over a Java hash set visits every element once, in an order the
 * program does not control: an ordering of the set.
 */
module Iteration {
  /** `order` lists every element of `s` exactly once. */
  ghost predicate IsOrdering<T(!new)>(order: seq<T>, s: set<T>) {
    (forall x :: x in order <==> x in s) &&
    forall i, j :: 0 <= i < j < |order| ==> order[i] != order[j]
  }

  lemma Pick<T(!new)>(s: set<T>)
    ensures s != {} ==> exists x :: x in s
  {
    if !(exists x :: x in s) {
      assert forall x :: x !in s;
      assert s == {};
    }
  }

  /** Visits the set in some order and records it. */
  method Ordering<T(!new)>(s: set<T>) returns (order: seq<T>)
    ensures IsOrdering(order, s)
    ensures |order| == |s|
  {
    order := [];
    var rest := s;
    while rest != {}
      invariant rest <= s
      invariant forall x :: x in order <==> x in s && x !in rest
      invariant forall i, j :: 0 <= i < j < |order| ==> order[i] != order[j]
      invariant |order| + |rest| == |s|
      decreases |rest|
    {
      Pick(rest);
      var x :| x in rest;
      order := order + [x];
      rest := rest - {x};
    }
  }
}
