/**
 * UniqueNamedContainer: an ordered collection of clocks or boolean variables
 * that renames the items it holds so that items coming from different
 * systems can be told apart. Renaming itself belongs to the items
 * (`setUniqueName()` and `setUniqueName(index)`), which are not part of this
 * model's source; they are modelled as giving the names `owner.name` and
 * `owner.index.name` and as leaving singleton items alone, as the
 * container's own documentation describes global items.
 */
module Containers {
  import opened Failures
  import opened Identifiers

  /** `setUniqueName(...)` applied to an item: singletons keep their name. */
  function Renamed<T>(x: Named<T>, name: string): (r: Named<T>)
    ensures r.originalName == x.originalName && r.ownerName == x.ownerName
    ensures r.isSingleton == x.isSingleton && r.data == x.data
    ensures r.uniqueName == if x.isSingleton then x.uniqueName else name
  {
    if x.isSingleton then x else x.(uniqueName := name)
  }

  /** Same original name and same owner as the item being added. */
  predicate Owned<T>(x: Named<T>, item: Named<T>) {
    x.originalName == item.originalName && x.ownerName == item.ownerName
  }

  /** How many items carry the given original name. */
  function CountName<T>(xs: seq<Named<T>>, name: string): nat {
    if xs == [] then 0
    else CountName(xs[..|xs| - 1], name) + (if xs[|xs| - 1].originalName == name then 1 else 0)
  }

  /** How many items share both original name and owner with `item`. */
  function CountOwned<T>(xs: seq<Named<T>>, item: Named<T>): nat {
    if xs == [] then 0
    else CountOwned(xs[..|xs| - 1], item) + (if Owned(xs[|xs| - 1], item) then 1 else 0)
  }

  /** The j-th item after same-owner renaming: its rank among the same-owner items, counting from 1. */
  function IndexedAt<T>(xs: seq<Named<T>>, item: Named<T>, j: nat): Named<T>
    requires j < |xs|
  {
    if Owned(xs[j], item) then Renamed(xs[j], IndexedName(xs[j], CountOwned(xs[..j], item) + 1)) else xs[j]
  }

  function RenameIndexed<T>(xs: seq<Named<T>>, item: Named<T>): seq<Named<T>> {
    seq(|xs|, j requires 0 <= j < |xs| => IndexedAt(xs, item, j))
  }

  /** The j-th item after different-owner renaming: owner-qualified when its original name clashes. */
  function QualifiedAt<T>(xs: seq<Named<T>>, item: Named<T>, j: nat): Named<T>
    requires j < |xs|
  {
    if xs[j].originalName == item.originalName then Renamed(xs[j], QualifiedName(xs[j])) else xs[j]
  }

  function RenameQualified<T>(xs: seq<Named<T>>, item: Named<T>): seq<Named<T>> {
    seq(|xs|, j requires 0 <= j < |xs| => QualifiedAt(xs, item, j))
  }

  /** The unique name the copy of `item` carries when it is offered to the list. */
  function NewName<T>(xs: seq<Named<T>>, item: Named<T>): string {
    if item.isSingleton || CountName(xs, item.originalName) == 0 then item.uniqueName
    else if CountOwned(xs, item) > 0 then IndexedName(item, CountOwned(xs, item) + 1)
    else QualifiedName(item)
  }

  /** The items already held, after the renaming that adding `item` causes. */
  function RenamedItems<T>(xs: seq<Named<T>>, item: Named<T>): seq<Named<T>> {
    if item.isSingleton || CountName(xs, item.originalName) == 0 then xs
    else if CountOwned(xs, item) > 0 then RenameIndexed(xs, item)
    else RenameQualified(xs, item)
  }

  predicate HasUniqueName<T>(xs: seq<Named<T>>, name: string) {
    exists i :: 0 <= i < |xs| && xs[i].uniqueName == name
  }

  /** The list after `add(item)`. */
  function Added<T>(xs: seq<Named<T>>, item: Named<T>): seq<Named<T>> {
    var renamed := RenamedItems(xs, item);
    var newItem := item.(uniqueName := NewName(xs, item));
    if HasUniqueName(renamed, newItem.uniqueName) then renamed else renamed + [newItem]
  }

  /** The list after `addAll(ys)`: the items added one by one, in order. */
  function AddedAll<T>(xs: seq<Named<T>>, ys: seq<Named<T>>): seq<Named<T>> {
    if ys == [] then xs else Added(AddedAll(xs, ys[..|ys| - 1]), ys[|ys| - 1])
  }

  /** `findFirstByUniqueName`: the first item carrying the unique name, if any. */
  function FirstByUniqueName<T>(xs: seq<Named<T>>, name: string): (r: Option<Named<T>>)
    ensures r.None? <==> !HasUniqueName(xs, name)
    ensures r.Some? ==> exists i :: (0 <= i < |xs| && xs[i] == r.value && xs[i].uniqueName == name &&
      forall j :: 0 <= j < i ==> xs[j].uniqueName != name)
  {
    if xs == [] then None
    else if xs[0].uniqueName == name then Some(xs[0])
    else
      var r := FirstByUniqueName(xs[1..], name);
      assert forall i :: 0 < i < |xs| ==> xs[i] == xs[1..][i - 1];
      r
  }

  /** `findAnyWithOriginalName`: the first item carrying the original name, if any. */
  function FirstWithOriginalName<T>(xs: seq<Named<T>>, name: string): (r: Option<Named<T>>)
    ensures r.None? <==> forall i :: 0 <= i < |xs| ==> xs[i].originalName != name
    ensures r.Some? ==> exists i :: (0 <= i < |xs| && xs[i] == r.value && xs[i].originalName == name &&
      forall j :: 0 <= j < i ==> xs[j].originalName != name)
  {
    if xs == [] then None
    else if xs[0].originalName == name then Some(xs[0])
    else
      var r := FirstWithOriginalName(xs[1..], name);
      assert forall i :: 0 < i < |xs| ==> xs[i] == xs[1..][i - 1];
      r
  }

  /** The two stream filters of `add`: items with the same original name, and among them those of the same owner. */
  method CountSimilar<T>(xs: seq<Named<T>>, item: Named<T>) returns (similar: nat, owned: nat)
    ensures similar == CountName(xs, item.originalName)
    ensures owned == CountOwned(xs, item)
  {
    similar, owned := 0, 0;
    var i := 0;
    while i < |xs|
      invariant 0 <= i <= |xs|
      invariant similar == CountName(xs[..i], item.originalName)
      invariant owned == CountOwned(xs[..i], item)
    {
      assert xs[..i + 1][..i] == xs[..i];
      if xs[i].originalName == item.originalName {
        similar := similar + 1;
        if xs[i].ownerName == item.ownerName {
          owned := owned + 1;
        }
      }
      i := i + 1;
    }
    assert xs[..i] == xs;
  }

  /** The `setUniqueName(i + 1)` loop over the same-owner items. */
  method RenameByIndex<T>(xs: seq<Named<T>>, item: Named<T>) returns (r: seq<Named<T>>)
    ensures r == RenameIndexed(xs, item)
  {
    r := [];
    var rank := 0;
    var i := 0;
    while i < |xs|
      invariant 0 <= i <= |xs|
      invariant rank == CountOwned(xs[..i], item)
      invariant |r| == i && forall j :: 0 <= j < i ==> r[j] == IndexedAt(xs, item, j)
    {
      assert xs[..i + 1][..i] == xs[..i];
      if Owned(xs[i], item) {
        r := r + [Renamed(xs[i], IndexedName(xs[i], rank + 1))];
        rank := rank + 1;
      } else {
        r := r + [xs[i]];
      }
      i := i + 1;
    }
  }

  /** The `setUniqueName()` loop over the items sharing the original name. */
  method RenameByOwner<T>(xs: seq<Named<T>>, item: Named<T>) returns (r: seq<Named<T>>)
    ensures r == RenameQualified(xs, item)
  {
    r := [];
    var i := 0;
    while i < |xs|
      invariant 0 <= i <= |xs|
      invariant |r| == i && forall j :: 0 <= j < i ==> r[j] == QualifiedAt(xs, item, j)
    {
      if xs[i].originalName == item.originalName {
        r := r + [Renamed(xs[i], QualifiedName(xs[i]))];
      } else {
        r := r + [xs[i]];
      }
      i := i + 1;
    }
  }

  class UniqueNamedContainer<T> {
    var items: seq<Named<T>>

    /** `UniqueNamedContainer(items)`: the container starts with the given items. */
    constructor(initial: seq<Named<T>>)
      ensures items == initial
    {
      items := initial;
    }

    /** The empty container. */
    constructor Empty()
      ensures items == []
    {
      items := [];
    }

    /** `add(item)`: renames clashing items, then appends the copy unless its unique name is already held. */
    method Add(item: Named<T>)
      modifies this
      ensures items == Added(old(items), item)
    {
      var newItem := item;
      var renamed := items;
      if !item.isSingleton {
        var similar, owned := CountSimilar(items, item);
        if similar != 0 {
          if owned > 0 {
            renamed := RenameByIndex(items, item);
            newItem := item.(uniqueName := IndexedName(item, owned + 1));
          } else {
            renamed := RenameByOwner(items, item);
            newItem := item.(uniqueName := QualifiedName(item));
          }
        }
      }
      var existing := FirstByUniqueName(renamed, newItem.uniqueName);
      if existing.None? {
        renamed := renamed + [newItem];
      }
      items := renamed;
    }

    /** `addAll(ys)`: adds the items one by one, in order. */
    method AddAll(ys: seq<Named<T>>)
      modifies this
      ensures items == AddedAll(old(items), ys)
    {
      var i := 0;
      while i < |ys|
        invariant 0 <= i <= |ys|
        invariant items == AddedAll(old(items), ys[..i])
      {
        assert ys[..i + 1][..i] == ys[..i];
        Add(ys[i]);
        i := i + 1;
      }
      assert ys[..i] == ys;
    }

    /** `findAnyWithOriginalName`. */
    function FindAnyWithOriginalName(name: string): (r: Option<Named<T>>)
      reads this
      ensures r.None? <==> forall i :: 0 <= i < |items| ==> items[i].originalName != name
      ensures r.Some? ==> r.value in items && r.value.originalName == name
    {
      FirstWithOriginalName(items, name)
    }
  }

  // ---------------------------------------------------------------------
  // What `add` promises

  /** Equal but for the unique name. */
  ghost predicate SameItem<T>(a: Named<T>, b: Named<T>) {
    a.originalName == b.originalName && a.ownerName == b.ownerName &&
    a.isSingleton == b.isSingleton && a.data == b.data
  }

  /**
   * Adding grows the list by at most one item, at its end; earlier items keep
   * everything but their unique name, and only non-singleton items sharing
   * the new item's original name are renamed. The item is appended exactly
   * when no held item already carries its new unique name.
   */
  lemma AddedShape<T>(xs: seq<Named<T>>, item: Named<T>)
    ensures var r := Added(xs, item);
      (|r| == |xs| || |r| == |xs| + 1) &&
      (forall i :: 0 <= i < |xs| ==> SameItem(r[i], xs[i])) &&
      (forall i :: 0 <= i < |xs| && r[i].uniqueName != xs[i].uniqueName ==>
         !item.isSingleton && !xs[i].isSingleton && xs[i].originalName == item.originalName) &&
      (|r| == |xs| + 1 <==> !HasUniqueName(RenamedItems(xs, item), NewName(xs, item))) &&
      (|r| == |xs| + 1 ==> SameItem(r[|xs|], item) && r[|xs|].uniqueName == NewName(xs, item))
  {
  }

  /** Singleton items are never renamed, already held or newly added. */
  lemma SingletonsKeepTheirNames<T>(xs: seq<Named<T>>, item: Named<T>)
    ensures forall i :: 0 <= i < |xs| && xs[i].isSingleton ==> Added(xs, item)[i] == xs[i]
    ensures item.isSingleton ==> Added(xs, item) == if HasUniqueName(xs, item.uniqueName) then xs else xs + [item]
  {
  }

  /** An item whose original name is new to the container is added under its own unique name and renames nothing. */
  lemma AddWithoutClash<T>(xs: seq<Named<T>>, item: Named<T>)
    requires forall i :: 0 <= i < |xs| ==> xs[i].originalName != item.originalName
    ensures Added(xs, item) == if HasUniqueName(xs, item.uniqueName) then xs else xs + [item]
  {
    NoNameCounted(xs, item.originalName);
  }

  lemma {:induction false} NoNameCounted<T>(xs: seq<Named<T>>, name: string)
    ensures CountName(xs, name) == 0 <==> forall i :: 0 <= i < |xs| ==> xs[i].originalName != name
  {
    if xs != [] {
      NoNameCounted(xs[..|xs| - 1], name);
    }
  }

  /**
   * Same owner, same original name: the k-th such item held is renamed
   * `owner.k.name` and the new item gets `owner.(n+1).name`, n being how many
   * there are.
   */
  lemma AddSameOwner<T>(xs: seq<Named<T>>, item: Named<T>)
    requires !item.isSingleton && CountOwned(xs, item) > 0
    ensures forall i :: 0 <= i < |xs| ==> (Added(xs, item)[i] ==
      if Owned(xs[i], item) then Renamed(xs[i], IndexedName(xs[i], CountOwned(xs[..i], item) + 1)) else xs[i])
    ensures NewName(xs, item) == IndexedName(item, CountOwned(xs, item) + 1)
  {
    OwnedAreNamed(xs, item);
  }

  lemma {:induction false} OwnedAreNamed<T>(xs: seq<Named<T>>, item: Named<T>)
    ensures CountOwned(xs, item) <= CountName(xs, item.originalName)
  {
    if xs != [] {
      OwnedAreNamed(xs[..|xs| - 1], item);
    }
  }

  /**
   * Clashing original name but no item of the same owner: every clashing
   * item, and the new one, become owner-qualified.
   */
  lemma AddOtherOwner<T>(xs: seq<Named<T>>, item: Named<T>)
    requires !item.isSingleton && CountName(xs, item.originalName) > 0 && CountOwned(xs, item) == 0
    ensures forall i :: 0 <= i < |xs| ==> (Added(xs, item)[i] ==
      if xs[i].originalName == item.originalName then Renamed(xs[i], QualifiedName(xs[i])) else xs[i])
    ensures NewName(xs, item) == QualifiedName(item)
  {
  }

  // ---------------------------------------------------------------------
  // The indices handed out to same-owner items are distinct

  lemma {:induction false} NatToStringInjective(a: nat, b: nat)
    requires NatToString(a) == NatToString(b)
    ensures a == b
    decreases a
  {
    var sa, sb := NatToString(a), NatToString(b);
    assert sa[|sa| - 1] == sb[|sb| - 1];
    assert a % 10 == b % 10;
    if a >= 10 {
      assert NatToString(a / 10) == sa[..|sa| - 1] == sb[..|sb| - 1] == NatToString(b / 10);
      NatToStringInjective(a / 10, b / 10);
    }
  }

  lemma IndexedNameInjective<T>(x: Named<T>, y: Named<T>, a: nat, b: nat)
    requires Owned(x, y)
    requires IndexedName(x, a) == IndexedName(y, b)
    ensures a == b
  {
    var prefix := x.ownerName + ".";
    var suffix := "." + x.originalName;
    assert IndexedName(x, a) == prefix + NatToString(a) + suffix;
    assert IndexedName(y, b) == prefix + NatToString(b) + suffix;
    var n := IndexedName(x, a);
    assert NatToString(a) == n[|prefix|..|n| - |suffix|];
    assert NatToString(b) == n[|prefix|..|n| - |suffix|];
    NatToStringInjective(a, b);
  }

  lemma {:induction false} CountOwnedGrows<T>(xs: seq<Named<T>>, item: Named<T>, i: nat, j: nat)
    requires i < j <= |xs| && Owned(xs[i], item)
    ensures CountOwned(xs[..i], item) < CountOwned(xs[..j], item)
    decreases j
  {
    assert xs[..j][..j - 1] == xs[..j - 1];
    if j - 1 > i {
      CountOwnedGrows(xs, item, i, j - 1);
    }
  }

  /**
   * When items of the same owner are renamed, no two of them (that are not
   * singletons) end up with the same unique name, and none shares the new
   * item's name, which is therefore always appended among them.
   */
  lemma SameOwnerNamesDistinct<T>(xs: seq<Named<T>>, item: Named<T>)
    requires !item.isSingleton && CountOwned(xs, item) > 0
    ensures forall i, j ::
      (0 <= i < j < |xs| && Owned(xs[i], item) && Owned(xs[j], item) && !xs[i].isSingleton && !xs[j].isSingleton) ==>
      Added(xs, item)[i].uniqueName != Added(xs, item)[j].uniqueName
    ensures forall i :: 0 <= i < |xs| && Owned(xs[i], item) && !xs[i].isSingleton ==>
      Added(xs, item)[i].uniqueName != NewName(xs, item)
  {
    AddSameOwner(xs, item);
    var r := Added(xs, item);
    forall i, j | 0 <= i < j < |xs| && Owned(xs[i], item) && Owned(xs[j], item) && !xs[i].isSingleton && !xs[j].isSingleton
      ensures r[i].uniqueName != r[j].uniqueName
    {
      CountOwnedGrows(xs, item, i, j);
      if r[i].uniqueName == r[j].uniqueName {
        IndexedNameInjective(xs[i], xs[j], CountOwned(xs[..i], item) + 1, CountOwned(xs[..j], item) + 1);
      }
    }
    forall i | 0 <= i < |xs| && Owned(xs[i], item) && !xs[i].isSingleton
      ensures r[i].uniqueName != NewName(xs, item)
    {
      CountOwnedGrows(xs, item, i, |xs|);
      assert xs[..|xs|] == xs;
      if r[i].uniqueName == NewName(xs, item) {
        IndexedNameInjective(xs[i], item, CountOwned(xs[..i], item) + 1, CountOwned(xs, item) + 1);
      }
    }
  }

  /**
   * Two variables named `a`, owned by `isImplementation` and `Template1`,
   * added to an empty container end up as `isImplementation.a` and
   * `Template1.a`.
   */
  lemma DifferentOwnersAreQualified()
    ensures var a1: BoolVar := Named("a", "isImplementation", "a", false, false);
      var a2: BoolVar := Named("a", "Template1", "a", false, false);
      var r := AddedAll([], [a1, a2]);
      |r| == 2 && r[0].uniqueName == "isImplementation.a" && r[1].uniqueName == "Template1.a"
  {
    var a1: BoolVar := Named("a", "isImplementation", "a", false, false);
    var a2: BoolVar := Named("a", "Template1", "a", false, false);
    assert [a1, a2][..1] == [a1];
    assert [a1][..0] == [];
    assert Added([], a1) == [a1];
    assert AddedAll([], [a1]) == Added(AddedAll([], []), a1);
    var r1 := AddedAll([], [a1]);
    assert r1 == [a1];
    assert CountName(r1, "a") == 1 by {
      assert r1[..0] == [];
    }
    assert CountOwned(r1, a2) == 0 by {
      assert r1[..0] == [];
    }
    var renamed := RenamedItems(r1, a2);
    assert renamed == RenameQualified(r1, a2);
    assert renamed[0] == QualifiedAt(r1, a2, 0);
    assert NewName(r1, a2) == "Template1.a";
    assert !HasUniqueName(renamed, "Template1.a");
  }

  /**
   * `addAll` never drops or reorders what the container already holds:
   * every earlier item keeps its place, up to its unique name.
   */
  lemma {:induction false} AddedAllKeepsItems<T>(xs: seq<Named<T>>, ys: seq<Named<T>>)
    ensures |AddedAll(xs, ys)| >= |xs|
    ensures forall i :: 0 <= i < |xs| ==> SameItem(AddedAll(xs, ys)[i], xs[i])
    decreases |ys|
  {
    if ys != [] {
      AddedAllKeepsItems(xs, ys[..|ys| - 1]);
      AddedShape(AddedAll(xs, ys[..|ys| - 1]), ys[|ys| - 1]);
    }
  }
}
