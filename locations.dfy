/**
 * Locations of automata and of composed systems. A location of a composed
 * system is a product: it records the operand locations it was built from.
 * The fields the source mutates through setters (invariant, inconsistency
 * flag, inconsistent part) are replaced by functions returning the updated
 * value.
 */
module Locations {
  import opened Failures
  import opened Zones
  import opened Identifiers
  import opened Guards

  datatype Location = Location(
    name: string,
    invariantGuard: Guard,
    isInitial: bool,
    isUrgent: bool,
    isUniversal: bool,
    isInconsistent: bool,
    inconsistentPart: Option<CDD>,
    x: int,
    y: int,
    product: seq<Location>)

  /** The full constructor: a location named "inc" is always inconsistent. */
  function NewLocation(
    name: string, inv: Guard, isInitial: bool, isUrgent: bool, isUniversal: bool,
    isInconsistent: bool, inconsistentPart: Option<CDD>, x: int, y: int, product: seq<Location>): (l: Location)
    ensures l.isInconsistent <==> isInconsistent || name == "inc"
    ensures l.name == name && l.invariantGuard == inv && l.product == product
    ensures l.isInitial == isInitial && l.isUrgent == isUrgent && l.isUniversal == isUniversal
    ensures l.inconsistentPart == inconsistentPart && l.x == x && l.y == y
  {
    Location(name, inv, isInitial, isUrgent, isUniversal, isInconsistent || name == "inc",
      inconsistentPart, x, y, product)
  }

  /** The shorter constructors: no inconsistent part and no product. */
  function SimpleLocation(
    name: string, inv: Guard, isInitial: bool, isUrgent: bool, isUniversal: bool,
    isInconsistent: bool, x: int, y: int): (l: Location)
    ensures l.isInconsistent <==> isInconsistent || name == "inc"
    ensures l.inconsistentPart.None? && l.product == [] && l.x == x && l.y == y
  {
    NewLocation(name, inv, isInitial, isUrgent, isUniversal, isInconsistent, None, x, y, [])
  }

  /** `new Location(location)`: keeps name, invariant, flags and position; drops product and inconsistent part. */
  function CopyLocation(l: Location): (r: Location)
    ensures r.product == [] && r.inconsistentPart.None?
  {
    SimpleLocation(l.name, l.invariantGuard, l.isInitial, l.isUrgent, l.isUniversal, l.isInconsistent, l.x, l.y)
  }

  predicate IsProduct(l: Location) {
    |l.product| != 0
  }

  /** `getInvariantCDD()`. */
  function InvariantCDD(l: Location, e: Engine): CDD {
    ToCDD(l.invariantGuard, e)
  }

  /** `equals`: flags, name and invariant; position, product and inconsistent part are ignored. */
  predicate LocationEquals(a: Location, b: Location) {
    a.isInitial == b.isInitial && a.isUrgent == b.isUrgent && a.isUniversal == b.isUniversal &&
    a.isInconsistent == b.isInconsistent && a.name == b.name && GuardEquals(a.invariantGuard, b.invariantGuard)
  }

  /** Location equality is an equivalence, and it ignores position, product and inconsistent part. */
  lemma LocationEqualsIsEquivalence(a: Location, b: Location, c: Location)
    ensures LocationEquals(a, a)
    ensures LocationEquals(a, b) <==> LocationEquals(b, a)
    ensures LocationEquals(a, b) && LocationEquals(b, c) ==> LocationEquals(a, c)
    ensures LocationEquals(a, b) <==>
      a.(x := 0, y := 0, product := [], inconsistentPart := None) ==
      b.(x := 0, y := 0, product := [], inconsistentPart := None)
  {
    GuardEqualsIsEquality(a.invariantGuard, a.invariantGuard);
    GuardEqualsIsEquality(a.invariantGuard, b.invariantGuard);
    GuardEqualsIsEquality(b.invariantGuard, a.invariantGuard);
    GuardEqualsIsEquality(b.invariantGuard, c.invariantGuard);
    GuardEqualsIsEquality(a.invariantGuard, c.invariantGuard);
  }

  /** A copy equals its original, unless the original was named "inc" without being inconsistent. */
  lemma CopyEqualsOriginal(l: Location)
    requires l.name == "inc" ==> l.isInconsistent
    ensures LocationEquals(CopyLocation(l), l)
  {
    GuardEqualsIsEquality(l.invariantGuard, l.invariantGuard);
  }

  // ---------------------------------------------------------------------
  // Setters, as updated values

  function SetInvariantGuard(l: Location, g: Guard): (r: Location)
    ensures r.invariantGuard == g && r.(invariantGuard := l.invariantGuard) == l
  {
    l.(invariantGuard := g)
  }

  function SetInconsistent(l: Location, b: bool): (r: Location)
    ensures r.isInconsistent == b && r.(isInconsistent := l.isInconsistent) == l
  {
    l.(isInconsistent := b)
  }

  function SetInconsistentPart(l: Location, c: CDD): (r: Location)
    ensures r.inconsistentPart == Some(c) && r.(inconsistentPart := l.inconsistentPart) == l
  {
    l.(inconsistentPart := Some(c))
  }

  /** Recording an inconsistent part never changes which locations a location equals. */
  lemma SetInconsistentPartKeepsEquality(l: Location, c: CDD, other: Location)
    ensures LocationEquals(SetInconsistentPart(l, c), other) <==> LocationEquals(l, other)
  {
  }

  // ---------------------------------------------------------------------
  // Products

  /** Java's `/` on int: truncation toward zero. */
  function JavaDiv(a: int, n: int): (q: int)
    requires n > 0
    ensures a >= 0 ==> q == a / n
    ensures a < 0 ==> q == -((-a) / n)
  {
    if a >= 0 then a / n else -((-a) / n)
  }

  function SumX(ls: seq<Location>): int {
    if ls == [] then 0 else SumX(ls[..|ls| - 1]) + ls[|ls| - 1].x
  }

  function SumY(ls: seq<Location>): int {
    if ls == [] then 0 else SumY(ls[..|ls| - 1]) + ls[|ls| - 1].y
  }

  /** The names of the operand locations joined with no separator. */
  function JoinedNames(ls: seq<Location>): (s: string)
    ensures ls != [] ==> |s| >= |ls[|ls| - 1].name|
  {
    if ls == [] then "" else JoinedNames(ls[..|ls| - 1]) + ls[|ls| - 1].name
  }

  predicate AllInitial(ls: seq<Location>) {
    forall i :: 0 <= i < |ls| ==> ls[i].isInitial
  }

  predicate AnyUrgent(ls: seq<Location>) {
    exists i :: 0 <= i < |ls| && ls[i].isUrgent
  }

  predicate AllUniversal(ls: seq<Location>) {
    forall i :: 0 <= i < |ls| ==> ls[i].isUniversal
  }

  predicate AnyInconsistent(ls: seq<Location>) {
    exists i :: 0 <= i < |ls| && ls[i].isInconsistent
  }

  /**
   * The product location as `createProduct(product, invariant)` writes it:
   * x is the truncated average of the operands' x, but y is the LAST
   * operand's y divided by the number of operands.
   */
  function ProductAsWritten(product: seq<Location>, inv: Guard): (l: Location)
    requires product != []
    ensures l.y == JavaDiv(product[|product| - 1].y, |product|)
  {
    NewLocation(JoinedNames(product), inv, AllInitial(product), AnyUrgent(product),
      AllUniversal(product), AnyInconsistent(product), None,
      JavaDiv(SumX(product), |product|), JavaDiv(product[|product| - 1].y, |product|), product)
  }

  /** The product location with both coordinates averaged (the corrected layout). */
  function Product(product: seq<Location>, inv: Guard): (l: Location)
    requires product != []
    ensures l.name == JoinedNames(product) && l.invariantGuard == inv && l.product == product
    ensures l.isInitial <==> forall i :: 0 <= i < |product| ==> product[i].isInitial
    ensures l.isUrgent <==> exists i :: 0 <= i < |product| && product[i].isUrgent
    ensures l.isUniversal <==> forall i :: 0 <= i < |product| ==> product[i].isUniversal
    ensures l.isInconsistent <==> (exists i :: 0 <= i < |product| && product[i].isInconsistent) || l.name == "inc"
    ensures l.inconsistentPart.None?
    ensures l.x == JavaDiv(SumX(product), |product|) && l.y == JavaDiv(SumY(product), |product|)
  {
    ProductAsWritten(product, inv).(y := JavaDiv(SumY(product), |product|))
  }

  /** `createProduct(product, invariant)`: the coordinate loop, as written. */
  method CreateProduct(product: seq<Location>, inv: Guard) returns (r: Result<Location>)
    ensures product == [] ==> r == Failure(IllegalArgument("At least a single location is required"))
    ensures product != [] ==> r == Success(ProductAsWritten(product, inv))
  {
    if |product| == 0 {
      return Failure(IllegalArgument("At least a single location is required"));
    }
    var x, y := 0, 0;
    var i := 0;
    while i < |product|
      invariant 0 <= i <= |product|
      invariant x == SumX(product[..i])
      invariant i > 0 ==> y == product[i - 1].y
    {
      assert product[..i + 1][..i] == product[..i];
      x := x + product[i].x;
      y := product[i].y;
      i := i + 1;
    }
    assert product[..i] == product;
    x := JavaDiv(x, |product|);
    y := JavaDiv(y, |product|);
    r := Success(NewLocation(JoinedNames(product), inv, AllInitial(product), AnyUrgent(product),
      AllUniversal(product), AnyInconsistent(product), None, x, y, product));
  }

  /** The corrected loop: both coordinates are summed, then averaged. */
  method CreateProductCorrected(product: seq<Location>, inv: Guard) returns (r: Result<Location>)
    ensures product == [] ==> r == Failure(IllegalArgument("At least a single location is required"))
    ensures product != [] ==> r == Success(Product(product, inv))
  {
    if |product| == 0 {
      return Failure(IllegalArgument("At least a single location is required"));
    }
    var x, y := 0, 0;
    var i := 0;
    while i < |product|
      invariant 0 <= i <= |product|
      invariant x == SumX(product[..i]) && y == SumY(product[..i])
    {
      assert product[..i + 1][..i] == product[..i];
      x := x + product[i].x;
      y := y + product[i].y;
      i := i + 1;
    }
    assert product[..i] == product;
    r := Success(Product(product, inv));
    assert r.value.x == JavaDiv(x, |product|) && r.value.y == JavaDiv(y, |product|);
  }

  /**
   * Two operands both at y = 10: as written the product sits at y = 5,
   * whereas the average is 10.
   */
  lemma ProductYIsNotAveraged(a: Location, b: Location, g: Guard)
    requires a.y == 10 && b.y == 10
    ensures ProductAsWritten([a, b], g).y == 5
    ensures Product([a, b], g).y == 10
  {
    assert [a, b][..1] == [a];
    assert [a][..0] == [];
    assert SumY([a, b]) == SumY([a]) + 10 == 20;
  }

  /** A product location of two operands keeps them in order: specification first, component second. */
  lemma ProductOfTwo(a: Location, b: Location, g: Guard)
    ensures Product([a, b], g).product == [a, b]
    ensures Product([a, b], g).name == a.name + b.name
    ensures IsProduct(Product([a, b], g))
    ensures Product([a, b], g).isUniversal <==> a.isUniversal && b.isUniversal
    ensures Product([a, b], g).isInconsistent <==> a.isInconsistent || b.isInconsistent || a.name + b.name == "inc"
  {
    assert [a, b][..1] == [a];
    assert [a][..0] == [];
    assert JoinedNames([a]) == JoinedNames([]) + a.name == a.name;
  }

  /** The conjunction of the operands' invariants. */
  function ConjoinInvariants(ls: seq<Location>, e: Engine): (c: CDD)
  {
    if ls == [] then True() else Conjunction(ConjoinInvariants(ls[..|ls| - 1], e), InvariantCDD(ls[|ls| - 1], e))
  }

  lemma {:induction false} ConjoinInvariantsMeaning(ls: seq<Location>, e: Engine)
    ensures forall v :: Contains(ConjoinInvariants(ls, e), v) <==>
      forall i :: 0 <= i < |ls| ==> Contains(InvariantCDD(ls[i], e), v)
  {
    if ls != [] {
      var init := ls[..|ls| - 1];
      ConjoinInvariantsMeaning(init, e);
      assert forall i :: 0 <= i < |init| ==> init[i] == ls[i];
    }
  }

  /** `createProduct(product)`: the invariant is the conjunction of the operands' invariants. */
  method CreateProductOfInvariants(product: seq<Location>, e: Engine) returns (r: Result<Location>)
    ensures product == [] ==> r == Failure(IllegalArgument("At least a single location is required"))
    ensures product != [] ==> r == Success(Product(product, e.toGuard(ConjoinInvariants(product, e))))
  {
    var inv := True();
    var i := 0;
    while i < |product|
      invariant 0 <= i <= |product|
      invariant inv == ConjoinInvariants(product[..i], e)
    {
      assert product[..i + 1][..i] == product[..i];
      inv := Conjunction(inv, InvariantCDD(product[i], e));
      i := i + 1;
    }
    assert product[..i] == product;
    r := CreateProductCorrected(product, e.toGuard(inv));
  }

  /** With a faithful engine, the product's invariant admits exactly what every operand's invariant admits. */
  lemma ProductInvariantMeaning(product: seq<Location>, e: Engine)
    requires product != [] && Faithful(e)
    ensures forall v :: Contains(InvariantCDD(Product(product, e.toGuard(ConjoinInvariants(product, e))), e), v) <==>
      forall i :: 0 <= i < |product| ==> Contains(InvariantCDD(product[i], e), v)
  {
    ConjoinInvariantsMeaning(product, e);
  }

  // ---------------------------------------------------------------------
  // Universal and inconsistent sink locations

  /** `createUniversalLocation(name, x, y)`: invariant true, universal, nothing else. */
  function UniversalLocation(name: string, x: int, y: int): (l: Location)
    ensures l.isUniversal && !l.isInitial && !l.isUrgent && l.invariantGuard == TrueGuard
    ensures l.isInconsistent <==> name == "inc"
  {
    SimpleLocation(name, TrueGuard, false, false, true, false, x, y)
  }

  const DefaultUniversalName := "univ-loc"
  const DefaultInconsistentName := "inc-loc"

  /** `createInconsistentLocation(name, x, y)`: inconsistent, with the engine's zero constraint as invariant. */
  function InconsistentLocation(name: string, x: int, y: int, e: Engine): (l: Location)
    ensures l.isInconsistent && !l.isUniversal && !l.isInitial && !l.isUrgent
    ensures l.invariantGuard == e.toGuard(e.zero)
  {
    SimpleLocation(name, e.toGuard(e.zero), false, false, false, true, x, y)
  }

  /**
   * `createInconsistentLocation(location, clocks)`: only for an inconsistent
   * location; its invariant loses the inconsistent part (or becomes false
   * when that part is everything). A missing inconsistent part is a null
   * dereference.
   */
  function InconsistentFrom(l: Location, e: Engine): (r: Result<Location>)
    ensures !l.isInconsistent ==> r == Failure(IllegalArgument("Location must be inconsistent"))
    ensures l.isInconsistent && l.inconsistentPart.None? ==> r == Failure(NullPointer)
    ensures r.Success? ==>
      r.value.name == l.name && r.value.isInconsistent && r.value.product == [] &&
      r.value.isInitial == l.isInitial && r.value.isUrgent == l.isUrgent && r.value.isUniversal == l.isUniversal &&
      r.value.x == l.x && r.value.y == l.y && r.value.inconsistentPart.None?
  {
    if !l.isInconsistent then Failure(IllegalArgument("Location must be inconsistent"))
    else if l.inconsistentPart.None? then Failure(NullPointer)
    else
      var part := l.inconsistentPart.value;
      var inv := if IsUnrestrained(part) then False() else Minus(InvariantCDD(l, e), part);
      Success(SimpleLocation(l.name, e.toGuard(inv), l.isInitial, l.isUrgent, l.isUniversal,
        l.isInconsistent, l.x, l.y))
  }

  /** With a faithful engine, the new invariant keeps exactly the old invariant's points outside the inconsistent part. */
  lemma InconsistentFromMeaning(l: Location, e: Engine)
    requires Faithful(e) && l.isInconsistent && l.inconsistentPart.Some?
    ensures forall v :: Contains(InvariantCDD(InconsistentFrom(l, e).value, e), v) <==>
      Contains(InvariantCDD(l, e), v) && !Contains(l.inconsistentPart.value, v)
  {
    var part := l.inconsistentPart.value;
    if IsUnrestrained(part) {
      IsUnrestrainedMeansEverything(part);
    }
  }

  // ---------------------------------------------------------------------
  // Locations built from symbolic states

  /** `new Location(state, clocks)` as written: the y coordinate is taken from x. */
  function LocationFromStateAsWritten(l: Location, inv: Guard): (r: Location)
    ensures r.y == l.x
  {
    SimpleLocation(l.name, inv, l.isInitial, l.isUrgent, l.isUniversal, l.isInconsistent, l.x, l.x)
  }

  /** The corrected state constructor: both coordinates kept. */
  function LocationFromState(l: Location, inv: Guard): (r: Location)
    ensures r.name == l.name && r.invariantGuard == inv
    ensures r.x == l.x && r.y == l.y
    ensures r.isInitial == l.isInitial && r.isUrgent == l.isUrgent && r.isUniversal == l.isUniversal
    ensures r.isInconsistent <==> l.isInconsistent || l.name == "inc"
  {
    SimpleLocation(l.name, inv, l.isInitial, l.isUrgent, l.isUniversal, l.isInconsistent, l.x, l.y)
  }

  /** A location at (1, 2) is rebuilt at (1, 1) as written, at (1, 2) once corrected. */
  lemma StateLocationLosesY(l: Location, g: Guard)
    requires l.x == 1 && l.y == 2
    ensures LocationFromStateAsWritten(l, g).y == 1 != l.y
    ensures LocationFromState(l, g).y == l.y
  {
  }

  /** `getMaxConstant(clock)`: the invariant's largest constant for the clock. */
  function LocationMaxConstant(l: Location, clock: Clock): (r: int)
    ensures r >= 0
  {
    MaxConstant(l.invariantGuard, clock)
  }
}
