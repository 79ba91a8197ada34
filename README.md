# Quotients of timed input/output transition systems, in Dafny

This project models the quotient core of j-Ecdar, a checker for timed I/O
automata. The quotient `T \\ S` of a specification `T` by a component `S` is the
most general system that, composed with `S`, refines `T`. The repository builds
it in two ways:

- The eager `Quotient` explores the product state space once and returns the
  resulting `Automaton`.
- The lazy `LazyQuotient` computes only the outgoing moves of a location, when
  asked.

Both rest on a set of model classes, and the project models these as well:

- `Automaton`, `Location` and `Move`.
- The naming container `UniqueNamedContainer`.
- The guard classes `OrGuard`, `TrueGuard` and `FalseGuard`.
- `BoolVal`.

Modules, one per file:

- `Zones` (`zones.dfy`): the native constraint library (CDD). It is not part of
  this model's source. Here a constraint is a finite or cofinite set of
  valuations. The library's operations (conjunction, disjunction, negation,
  minus, `isNotFalse`, `isSubset`, `equiv`, `isUnrestrained`) come with lemmas
  giving their set meaning. The module states no property of the source, so it
  has no rows in the table below.
- `Failures`, `Identifiers`, `Iteration` (`identifiers.dfy`):
  - exceptions as values;
  - channels, clocks and boolean variables as named items;
  - an arbitrary but fixed enumeration of a set, which stands in for `HashSet`
    iteration order.
- `Guards` (`guards.dfy`): the guard tree. This includes the normalising
  `OrGuard` constructors, its copy constructor, `equals`, `toString`,
  `hashCode` and `getMaxConstant`, and the constant guards. The engine
  operations the core calls on constraints are a parameter `Engine`: the zone
  of an atomic guard, `getGuard`, `transitionBack`, and `cddZero`.
- `Locations` (`locations.dfy`): `Location` as a value. This includes its
  constructors, product creation, the universal and inconsistent sinks,
  equality and setters.
- `Moves` (`moves.dfy`):
  - edges, and the class `Move` with its mutators;
  - the enabled part of a move;
  - the nested "merge" loop, as a cartesian product that drops moves whose
    guard is false.
- `Automata` (`automaton.dfy`): the class `Automaton`. This covers the action
  sets, the initial location, clock bounds, the outgoing edges of a location,
  guard strengthening, input enabling, and the copy constructor.
- `Containers` (`container.dfy`): the class `UniqueNamedContainer` and the
  renaming rules of `add`.
- `BoolVals` (`bool_val.dfy`): the class `BoolVal`.
- `Systems` (`systems.dfy`): an operand transition system, seen through its
  alphabet, clocks and moves. This covers the quotient's input and output
  alphabets and its name.
- `Quotients` (`quotient.dfy`):
  - the eager `Quotient` class, with the ten rules of `getNextMoves` as
    functions on an immutable `Setup`;
  - their meaning lemmas;
  - the worklist exploration of `getAutomaton`, proved to build a well-formed
    graph in which every successor of every explored state has been visited
    and recorded as an edge.
- `LazyQuotients` (`lazy_quotient.dfy`): the lazy `LazyQuotient` class. This
  covers its constructor's disjointness check, its rules and their meaning
  lemmas.

The two quotients read their operands differently:

- Eager: `T` is the specification and `S` the component.
- Lazy: the source's terminology is reversed (`specification` is `s`). The
  model keeps the source's names in each file.

## Model

| member | source | states |
|---|---|---|
| Guards.OrMaxConstant | src/models/OrGuard.java:68-75 | the loop's result is at least every child's constant, is 0 or attained by some child, and equals the recursive `MaxConstant` of the OrGuard |
| Guards.MaxOverIsMaximum | src/models/OrGuard.java:68-75 | the fold over the children is an upper bound of every child's constant and is either 0 or one of them |
| Guards.GuardEqualsIsEquality | src/models/OrGuard.java:77-88 | `equals` (kind test for True/False, element-wise `Arrays.equals` for OrGuard) holds exactly when the two guards are the same value |
| Guards.TrueGuardBehaviour | src/models/TrueGuard.java:5-26 | a TrueGuard has max constant 0 for every clock, equals exactly the TrueGuards, prints "true", and hashes equally to any TrueGuard and differently from a FalseGuard |
| Guards.FalseGuardBehaviour | src/models/FalseGuard.java:5-26 | a FalseGuard has max constant 0, equals exactly the FalseGuards, prints "false"; FalseGuard and OrGuard share `Objects.hash(false)` |
| Guards.NewOrGuard | src/models/OrGuard.java:13-34 | the constructor's clear/filter/refill leaves exactly `Normalised(guards)` |
| Guards.NormalisedTrueAbsorbs | src/models/OrGuard.java:17-25 | any TrueGuard in the input makes the list exactly `[TrueGuard]` |
| Guards.NormalisedShape | src/models/OrGuard.java:27-33 | the kept list is never empty and holds no FalseGuard |
| Guards.NormalisedEmptyOrAllFalse | src/models/OrGuard.java:30-33 | an empty or all-FalseGuard input becomes `[TrueGuard]` |
| Guards.NormalisedKeepsOrder | src/models/OrGuard.java:27-28 | with no TrueGuard and some non-false child, the list is the input minus its FalseGuards, in input order, with exactly those members |
| Guards.WithoutFalseMembers | src/models/OrGuard.java:28 | the filter keeps exactly the non-FalseGuard members |
| Guards.WithoutFalseAppend | src/models/OrGuard.java:28 | the filter distributes over concatenation, so surviving guards keep their order |
| Guards.DisjoinWithoutFalse | src/models/OrGuard.java:28 | dropping FalseGuards never changes what the disjunction denotes |
| Guards.DisjoinWithTrue | src/models/OrGuard.java:16-25 | a disjunction containing a TrueGuard denotes every valuation |
| Guards.AllFalseOrBecomesTrue | src/models/OrGuard.java:30-33 | as written, `[FalseGuard, FalseGuard]` denotes false but its normalised OrGuard denotes true |
| Guards.SoundNormalisedPreservesMeaning | src/models/OrGuard.java:13-34 | the corrected normalisation of a non-empty list denotes the same constraint as the list |
| Guards.ConcatMembers | src/models/OrGuard.java:36-38 | the joined lists hold exactly the members of the given lists |
| Guards.NewOrGuardOfLists | src/models/OrGuard.java:36-38 | the list-of-lists constructor normalises the concatenation; a TrueGuard in any list gives `[TrueGuard]` |
| Guards.OrGuardOfGuardsAsWritten | src/models/OrGuard.java:40-42 | as written, the varargs constructor fails with UnsupportedOperation exactly when a TrueGuard is passed, and otherwise yields the filtered list |
| Guards.TrueGuardArgumentThrows | src/models/OrGuard.java:40-42 | `new OrGuard(new TrueGuard())` fails, while `new OrGuard(new FalseGuard())` does not |
| Guards.NewOrGuardOfGuards | src/models/OrGuard.java:40-42 | corrected varargs constructor: same list as the list constructor, `[TrueGuard]` when a TrueGuard is passed, and agrees with the as-written form whenever that does not throw |
| Guards.OrString | src/models/OrGuard.java:90-97 | the rendering is parenthesised, and one child renders as "(child)" |
| Guards.OrStringJoins | src/models/OrGuard.java:92-95 | the children are joined in order by " or ": one more child appends " or " and its rendering, and two children give "(a or b)" |
| Guards.CopyOrGuardFailsOnUnknownKind | src/models/OrGuard.java:44-62 | the copy constructor throws ClassCastException exactly when some child (at any depth of nested OrGuards) is of an unknown kind, and otherwise yields an OrGuard; an OrGuard of plain children (no OrGuard, no unknown kind) is rebuilt by the list constructor from those same children, normalised the corrected way |
| Guards.CopyOrGuardKeepsMeaning | src/models/OrGuard.java:44-62 | a copy with no unknown kind and no empty nested disjunction succeeds and denotes the same constraint as the original |
| Guards.CopyAllKeepsKinds | src/models/OrGuard.java:46-61 | the mapping over the children succeeds exactly without an unknown kind, keeps the length, and maps the child at each index to that child's own copy, which is of the same kind |
| Guards.CopyAllKeepsMeaning | src/models/OrGuard.java:46-61 | the copied children, without unknown kinds or empty nested disjunctions, have the same disjunction as the originals |
| Guards.CopyChildKeepsKind | src/models/OrGuard.java:47-60 | one child maps to a guard of its own kind, or fails with ClassCastException exactly when it is uncastable; a true, false, clock, boolean or conjunction child is kept unchanged |
| Guards.CopyChildKeepsMeaning | src/models/OrGuard.java:47-60 | a child without unknown kinds or empty nested disjunctions is copied to a guard with the same meaning |
| Locations.NewLocation | src/models/Location.java:23-34 | every field is stored as given, and the location is inconsistent exactly when flagged or named "inc" |
| Locations.SimpleLocation | src/models/Location.java:36-57 | the shorter constructors: no inconsistent part, no product, the given coordinates, inconsistent when flagged or named "inc" |
| Locations.CopyEqualsOriginal | src/models/Location.java:67-69 | the copy constructor yields a location `equals` to the original, with no product and no inconsistent part |
| Locations.LocationEqualsIsEquivalence | src/models/Location.java:225-238 | `equals` is reflexive, symmetric and transitive, and compares exactly the four flags, the name and the invariant |
| Locations.SetInvariantGuard | src/models/Location.java:185-187 | only the invariant changes, to the given guard |
| Locations.SetInconsistent | src/models/Location.java:205-207 | only the inconsistency flag changes |
| Locations.SetInconsistentPart | src/models/Location.java:209-211 | only the inconsistent part changes |
| Locations.SetInconsistentPartKeepsEquality | src/models/Location.java:237 | setting the inconsistent part never changes what the location `equals` |
| Locations.JavaDiv | src/models/Location.java:93-94 | integer division truncates toward zero, as Java's `/=` does |
| Locations.CreateProduct | src/models/Location.java:83-108 | as written: an empty product fails with IllegalArgument, otherwise the product location with y taken from the last operand |
| Locations.ProductAsWritten | src/models/Location.java:88-94 | as written, y is the last operand's y divided by the operand count |
| Locations.ProductYIsNotAveraged | src/models/Location.java:88-94 | two operands with y = 10 give y = 5 as written, 10 when corrected |
| Locations.Product | src/models/Location.java:83-108 | the product's name joins the names; initial and universal iff all operands are; urgent iff any is; inconsistent iff any is (or named "inc"); x and y are the truncated averages |
| Locations.CreateProductCorrected | src/models/Location.java:83-108 | an empty product fails with IllegalArgument, otherwise the corrected product location |
| Locations.ProductOfTwo | src/models/Location.java:96-107 | a product of two keeps both operands, concatenates their names, is a product, and combines the universal and inconsistent flags |
| Locations.ConjoinInvariantsMeaning | src/models/Location.java:110-116 | the folded invariant holds exactly the valuations every operand's invariant holds |
| Locations.CreateProductOfInvariants | src/models/Location.java:110-116 | the product without an invariant takes the conjunction of the operands' invariants; name, flags and coordinates are those of the corrected product (y averaged) |
| Locations.ProductInvariantMeaning | src/models/Location.java:110-116 | with a faithful engine, that product's invariant denotes the intersection of the operands' invariants |
| Locations.UniversalLocation | src/models/Location.java:122-132 | a universal sink is universal, not initial or urgent, with invariant true |
| Locations.InconsistentLocation | src/models/Location.java:134-144 | an inconsistent sink is inconsistent, not universal, initial or urgent, with the engine's zero as invariant |
| Locations.InconsistentFrom | src/models/Location.java:146-159 | a consistent location fails with IllegalArgument; a missing inconsistent part fails with a null dereference; otherwise the same name, flags and coordinates, still inconsistent, with no product and no inconsistent part |
| Locations.InconsistentFromMeaning | src/models/Location.java:146-159 | the new invariant is empty when the inconsistent part is unrestrained, and otherwise is the old invariant minus the inconsistent part |
| Locations.LocationFromStateAsWritten | src/models/Location.java:63-65 | as written, the new location's y is the state location's x |
| Locations.StateLocationLosesY | src/models/Location.java:63-65 | a state location at (1, 2) becomes one at (1, 1) as written, and keeps y = 2 when corrected |
| Locations.LocationFromState | src/models/Location.java:63-65 | corrected: name, flags and both coordinates come from the state's location, and the invariant from the state |
| Moves.Move.constructor | src/models/Move.java:13-23 | the guard is the conjunction of the edges' guards and the updates are the edges' updates in order |
| Moves.ConjoinGuardsMeaning | src/models/Move.java:18-21 | the folded guard holds exactly where every edge's guard holds |
| Moves.ConcatUpdatesAppend | src/models/Move.java:19-22 | the collected updates of joined edge lists are the concatenation of each list's updates |
| Moves.ConcatUpdatesLength | src/models/Move.java:19-22 | the update list is as long as all edges' updates together |
| Moves.Plain | src/models/Move.java:25-27 | a move without edges has no updates and a true guard |
| Moves.Move.Between | src/models/Move.java:25-27 | a move between two locations with no edges, guard true and no updates |
| Moves.Move.Guarded | src/models/Move.java:35-44 | a move with the given guard and updates and no edges |
| Moves.Move.WithUpdates | src/models/Move.java:50-53 | a move with a true guard and the given updates |
| Moves.Move.EnabledPart | src/models/Move.java:58-64 | the enabled part lies within the guard conjoined with the source invariant |
| Moves.EnabledMeaning | src/models/Move.java:58-64 | a valuation is enabled exactly when it satisfies the guard, the source invariant and the target invariant pulled back over the move |
| Moves.NarrowToEnabled | src/models/Move.java:58-68 | conjoining a move's guard with its enabled part gives the enabled part |
| Moves.Move.ConjunctCDD | src/models/Move.java:66-68 | only the guard changes, to its conjunction with the argument, so it can only shrink |
| Moves.Move.SetGuards | src/models/Move.java:90-92 | only the guard changes |
| Moves.Move.SetUpdates | src/models/Move.java:98-100 | only the updates change |
| Moves.Move.AddUpdates | src/models/Move.java:102-104 | the updates are extended at the end and nothing else changes |
| Moves.Move.SetTarget | src/models/Move.java:110-112 | only the target changes |
| Moves.DisjoinEnabledParts | src/logic/Quotient.java:267-270 | the loop computes the disjunction of the moves' enabled parts |
| Moves.DisjoinEnabledMeaning | src/logic/Quotient.java:267-270 | that disjunction holds exactly where some move is enabled |
| Moves.CartesianMembers | src/logic/Quotient.java:365-377 | the merged list has at most \|xs\|·\|ys\| moves, and holds exactly the combinations of one move from each list whose guard is not false |
| Moves.CartesianMemberIsCombination | src/logic/Quotient.java:365-377 | every merged move is a non-false combination of some pair |
| Moves.CombinationIsCartesianMember | src/logic/Quotient.java:365-377 | every non-false combination of a pair is kept |
| Moves.CartesianLength | src/logic/Quotient.java:365-377 | no more moves than pairs |
| Moves.RowMembers | src/logic/Quotient.java:368-374 | one pass of the inner loop keeps exactly the non-false combinations with the fixed move |
| Moves.CartesianOfOne | src/logic/Quotient.java:357-359 | merging a single move with a list is one inner-loop pass |
| Moves.RowOfOne | src/logic/Quotient.java:361-363 | merging a move with a single move keeps it exactly when its guard is not false |
| Containers.Renamed | src/logic/UniqueNamedContainer.java:74-82 | renaming changes only the unique name, and never that of a singleton |
| Containers.FirstByUniqueName | src/logic/UniqueNamedContainer.java:100-102 | empty iff no item has the unique name; otherwise the first item that has it |
| Containers.FirstWithOriginalName | src/logic/UniqueNamedContainer.java:110-112 | empty iff no item has the original name; otherwise the first item that has it |
| Containers.CountSimilar | src/logic/UniqueNamedContainer.java:63-71 | the two stream filters count the items with the same original name, and among them those of the same owner |
| Containers.RenameByIndex | src/logic/UniqueNamedContainer.java:73-77 | same-owner namesakes are renamed with indices 1, 2, … in list order |
| Containers.RenameByOwner | src/logic/UniqueNamedContainer.java:78-83 | namesakes from other owners are renamed to their qualified name |
| Containers.UniqueNamedContainer.constructor | src/logic/UniqueNamedContainer.java:33-35 | the container holds the given items |
| Containers.UniqueNamedContainer.Empty | src/logic/UniqueNamedContainer.java:40-42 | the container is empty |
| Containers.UniqueNamedContainer.Add | src/logic/UniqueNamedContainer.java:53-92 | the items become `Added(old items, item)`: namesakes renamed, and the new item appended unless its unique name is taken |
| Containers.UniqueNamedContainer.AddAll | src/logic/UniqueNamedContainer.java:127-131 | the items become the result of adding each given item in order |
| Containers.UniqueNamedContainer.FindAnyWithOriginalName | src/logic/UniqueNamedContainer.java:110-112 | empty iff no item has the original name; otherwise a held item that has it |
| Containers.AddedShape | src/logic/UniqueNamedContainer.java:53-92 | adding never removes an item, changes only unique names, and appends at most one item |
| Containers.SingletonsKeepTheirNames | src/logic/UniqueNamedContainer.java:56 | singletons already held are untouched; a singleton is appended as is unless its unique name is taken |
| Containers.AddWithoutClash | src/logic/UniqueNamedContainer.java:67 | without a namesake the item is appended unchanged unless its unique name is taken |
| Containers.NoNameCounted | src/logic/UniqueNamedContainer.java:63-67 | the similar-name count is 0 exactly when no item has the original name |
| Containers.AddSameOwner | src/logic/UniqueNamedContainer.java:73-77 | with same-owner namesakes, each is renamed `owner.i.name` by its position among them and the new item gets the next index |
| Containers.OwnedAreNamed | src/logic/UniqueNamedContainer.java:69-71 | the same-owner items are among the same-name items |
| Containers.AddOtherOwner | src/logic/UniqueNamedContainer.java:78-83 | with namesakes but none of the same owner, all of them and the new item get qualified names |
| Containers.NatToStringInjective | src/logic/UniqueNamedContainer.java:75-77 | distinct counters render to distinct strings |
| Containers.IndexedNameInjective | src/logic/UniqueNamedContainer.java:75-77 | for one owner and one name, distinct counters give distinct unique names |
| Containers.CountOwnedGrows | src/logic/UniqueNamedContainer.java:74-76 | a later same-owner namesake gets a strictly larger index |
| Containers.SameOwnerNamesDistinct | src/logic/UniqueNamedContainer.java:73-77 | after renaming, the same-owner namesakes and the new item have pairwise distinct unique names |
| Containers.DifferentOwnersAreQualified | test/features/BoolVarNamingTest.java:27-32 | adding two variables `a` of different owners gives the unique names "isImplementation.a" and "Template1.a" |
| Containers.AddedAllKeepsItems | src/logic/UniqueNamedContainer.java:127-131 | adding several items keeps every earlier item in place, up to renaming |
| Automata.SetActions | src/models/Automaton.java:147-163 | the input and output sets are the channels of input and output edges, and the actions their union |
| Automata.ActionsAreEdgeChannels | src/models/Automaton.java:147-163 | a channel is an action iff some edge carries it, and an input iff some input edge carries it |
| Automata.FindInitial | src/models/Automaton.java:36-42 | the loop returns the first initial location, or none |
| Automata.FirstInitial | src/models/Automaton.java:36-42 | none iff no location is initial; otherwise the first initial one |
| Automata.LastInitial | src/models/Automaton.java:78-82 | none iff no location is initial; otherwise the last initial one |
| Automata.EdgesMax | src/models/Automaton.java:99-107 | at least every edge's constant for the clock, and 0 or one of them |
| Automata.LocationsMax | src/models/Automaton.java:109-117 | at least every location's constant for the clock, and 0 or one of them |
| Automata.ClockBound | src/models/Automaton.java:95-122 | the bound is at least 1 and at least every edge and location constant, and is 1 or one of them |
| Automata.Automaton.MaxBoundsForAllClocks | src/models/Automaton.java:95-122 | the map's keys are exactly the clocks, each mapped to its `ClockBound` |
| Automata.Automaton.BoundOneClock | src/models/Automaton.java:98-120 | one outer iteration sets the clock's entry to its bound and leaves every other entry alone |
| Automata.Automaton.FoldEdgeBounds | src/models/Automaton.java:99-107 | the `compute` loop over the edges raises the entry to the edges' maximum |
| Automata.Automaton.FoldLocationBounds | src/models/Automaton.java:109-117 | the `compute` loop over the locations raises the entry to the locations' maximum |
| Automata.FromLocation | src/models/Automaton.java:138 | the stored edges whose source `equals` the location, in order |
| Automata.WithChannelName | src/models/Automaton.java:144 | the edges whose channel has the given name, in order |
| Automata.Automaton.EdgesFromLocation | src/models/Automaton.java:129-139 | a universal location gets one true, update-free self-loop per action in some enumeration of the actions; any other location gets its stored outgoing edges |
| Automata.Automaton.EdgesFromLocationAndSignal | src/models/Automaton.java:141-145 | the outgoing edges, as above, restricted to the signal's name |
| Automata.SignalEdgesMeaning | src/models/Automaton.java:129-145 | a universal location offers exactly the one self-loop on the signal when it is an action; otherwise the stored edges from the location on the signal |
| Automata.LoopsWithName | src/models/Automaton.java:130-135 | among the universal self-loops, at most the one on the signal has its name |
| Automata.StrengthenedMeaning | src/models/Automaton.java:256-263 | strengthening changes only the guard, leaves it alone when the back-image is true, and otherwise restricts it to where the target invariant still holds after the edge |
| Automata.Automaton.AddTargetInvariantToEdges | src/models/Automaton.java:256-263 | every edge is strengthened in place, with no edge added or removed |
| Automata.BackImagesMeaning | src/models/Automaton.java:232-236 | the disjunction of back-images holds exactly where some input edge can be taken |
| Automata.RemainderMeaning | src/models/Automaton.java:228-245 | the remainder is the part of the invariant where no input edge on the channel can be taken |
| Automata.EnableLocationAppends | src/models/Automaton.java:226-253 | enabling a location only appends input self-loops on that location, in channel order |
| Automata.EnableLocationLength | src/models/Automaton.java:226-253 | at most one new edge per input channel |
| Automata.EnableAllLength | src/models/Automaton.java:223-254 | at most one new edge per location and input channel |
| Automata.EnableAllAddsInputLoops | src/models/Automaton.java:223-254 | every added edge is an input self-loop on some location and channel |
| Automata.EnableStepCovers | src/models/Automaton.java:228-253 | after one step, every valuation of the invariant can take an input edge on the channel or the new loop |
| Automata.CoveredGrows | src/models/Automaton.java:246-249 | appending edges never uncovers a valuation |
| Automata.EnableStepCovered | src/models/Automaton.java:229-250 | after the step for a location and an input, every valuation of its invariant is covered for that input |
| Automata.EnableLocationCovered | src/models/Automaton.java:226-251 | after the steps for a location, every valuation of its invariant is covered for every input |
| Automata.EnableAllCovered | src/models/Automaton.java:223-254 | once input enabling is done, for every location, every input and every valuation of the location's invariant, some edge of the location on that input can be taken from it or an input self-loop admits it |
| Automata.Automaton.MakeInputEnabled | src/models/Automaton.java:223-254 | the edges become the input-enabled list for some enumeration of the inputs |
| Automata.Automaton.EnableInputs | src/models/Automaton.java:225-251 | the loop over the inputs of one location performs the enabling step for each input, in the given order |
| Automata.Automaton.EnableInput | src/models/Automaton.java:229-249 | one input of one location appends the self-loop on the uncovered part of the invariant exactly when that part is not empty |
| Automata.UnionOfBackImages | src/models/Automaton.java:233-238 | the loop's disjunction is the union of the input edges' back-images |
| Automata.Automaton.constructor | src/models/Automaton.java:32-64 | fields as given, first initial location, action sets from the edges; with enabling, the edges are strengthened and then input-enabled |
| Automata.Automaton.SetName | src/models/Automaton.java:21-23 | only the name changes |
| Automata.IndexOf | src/models/Automaton.java:85-86 | `indexOf`: -1 iff no location `equals` the argument, otherwise the first that does |
| Automata.CopyOf | src/models/Automaton.java:67-93 | the copy fails at index -1 iff an edge endpoint is not a location; otherwise: name + "Copy", renamed clocks and variables, copied locations, edges between the copies at the same indices keeping channel, direction and updates, with each guard passed through the guard copy, shared action sets |
| Automata.CopyClocks | src/models/Automaton.java:70-73 | each clock becomes a fresh clock named original + "Copy", owned by the copy |
| Automata.CopyBoolVars | src/models/Automaton.java:74-77 | each variable becomes one named original + "Copy", owned by the copy, with the same initial value |
| Automata.CopyLocations | src/models/Automaton.java:78-82 | each location is copied, and the last copied initial one becomes the initial location |
| Automata.CopyEdges | src/models/Automaton.java:83-88 | the edge loop equals the recursive copy and stops at the first failed lookup |
| Automata.CopiedEdgesSucceeds | src/models/Automaton.java:83-88 | the copy succeeds iff every edge's endpoints are found, and fails with index -1 |
| Automata.CopiedEdgeAt | src/models/Automaton.java:83-88 | the k-th copied edge is the copy of the k-th edge, so edge order is kept |
| Automata.CopiedEdgesFailsFrom | src/models/Automaton.java:83-88 | once a prefix fails, the whole copy fails with the same error |
| Automata.CopiedEdge | src/models/Automaton.java:85-87 | one edge is copied exactly when both endpoints are found; the copy joins the copied locations at those indices, keeps channel, direction and updates and copies the guard, otherwise the lookup at -1 fails |
| BoolVals.BoolVal.constructor | src/models/BoolVal.java:7-10 | the variable and value are stored |
| BoolVals.BoolVal.SetVar | src/models/BoolVal.java:20-22 | only the variable changes |
| BoolVals.BoolVal.SetValue | src/models/BoolVal.java:28-30 | only the value changes |
| BoolVals.BoolVal.ToString | src/models/BoolVal.java:47-49 | the string starts with the variable's name followed by " = ", and the rest is "true" exactly when the value is true and "false" exactly when it is false |
| BoolVals.EqualsIsNameAndValue | src/models/BoolVal.java:32-45 | `equals` rejects null, is an equivalence, and holds exactly when the original names and the values agree |
| Systems.Intersect | src/logic/Quotient.java:473-477 | exactly the channels in both sets |
| Systems.Difference | src/logic/Quotient.java:479-483 | exactly the channels in the first set and not the second |
| Systems.QuotientChannels | src/logic/Quotient.java:49-58 | an input is an input of T, an output of S, or `i_new`; an output is an output of T not of S, or an input of S not of T |
| Systems.QuotientIsDirected | src/logic/Quotient.java:49-58 | for directed operands where `i_new` is fresh, the quotient's inputs and outputs are disjoint |
| Systems.QuotientAlphabet | src/logic/Quotient.java:49-58 | the quotient's alphabet is both operands' alphabets plus `i_new` |
| Systems.QuotientName | src/logic/Quotient.java:209-211 | the name is the first name, "//" and the second name |
| Quotients.Univ | src/logic/Quotient.java:224 | the eager universal sink is "univ-loc", universal, not inconsistent, not a product |
| Quotients.Inc | src/logic/Quotient.java:225 | the eager inconsistent sink is "inc-loc", inconsistent, with invariant quo_new ≤ 0 |
| Quotients.ResetAll | src/logic/Quotient.java:63-68 | one reset to 0 per clock, in clock order |
| Quotients.MergeSource | src/logic/Quotient.java:430-438 | a location universal and inconsistent at once, merged with itself, collapses to a copy; otherwise the corrected pair product (y averaged), with the flags combined |
| Quotients.MergeTarget | src/logic/Quotient.java:440-448 | the same with the invariant true, again with the corrected y |
| Quotients.EagerCombineMeaning | src/logic/Quotient.java:379-388 | a merged move goes from the pair of the sources to the pair of the targets (named by concatenation), or from and to a copy of T's location where the pair collapses; it concatenates the edges, and has as guard the enabled part of the joined move |
| Quotients.Quotient.constructor | src/logic/Quotient.java:37-69 | the new clock is the original quo_new, and the container's first clock is a copy of it; clocks are quo_new followed by T's and S's (renamed by the container), variables T's then S's, the alphabets as above, the max bounds merged, one reset per clock |
| Quotients.Quotient.MergeLocations | src/logic/Quotient.java:430-438 | computes `MergeSource`, with the corrected y |
| Quotients.Quotient.MergeTargets | src/logic/Quotient.java:440-448 | computes `MergeTarget`, with the corrected y |
| Quotients.Quotient.MergeMoves | src/logic/Quotient.java:379-388 | computes `EagerCombine`, with the corrected y |
| Quotients.Quotient.MergeStay | src/logic/Quotient.java:421-428 | a component move with T staying put is the combination with T's plain self-move, with the corrected y |
| Quotients.Quotient.MergeWait | src/logic/Quotient.java:401-408 | a specification move with S staying put is the combination with S's plain self-move, with the corrected y |
| Quotients.Quotient.MergeLists | src/logic/Quotient.java:365-377 | the nested loop computes the cartesian merge, with the corrected y |
| Quotients.Quotient.MergeRow | src/logic/Quotient.java:368-374 | the inner loop computes one row, with the corrected y |
| Quotients.Quotient.MergeStayList | src/logic/Quotient.java:410-419 | the loop equals the merge of T's plain self-move with S's moves, with the corrected y |
| Quotients.Quotient.MergeWaitList | src/logic/Quotient.java:390-399 | the loop equals the merge of T's moves with S's plain self-move, with the corrected y |
| Quotients.BlockedMeaning | src/logic/Quotient.java:296-302 | the negated disjunction holds exactly where no move is enabled |
| Quotients.UniversalGuardMeaning | src/logic/Quotient.java:260-290 | the move to univ is enabled where S's location invariant fails, and, for an output of S, also where no S move is enabled |
| Quotients.BlockedOutputsMeaning | src/logic/Quotient.java:292-314 | for a shared output, each S move yields a move to inc guarded by its enabled part where T is blocked, resetting quo_new |
| Quotients.InvariantViolationMeaning | src/logic/Quotient.java:316-327 | rule 7's move to inc is allowed exactly where both operands' invariants fail |
| Quotients.ToInconsistentShape | src/logic/Quotient.java:292-327 | on a common output, rules 6 and 7 give one move per S move plus one, otherwise none; each starts at the location, has no edges and resets quo_new |
| Quotients.MergedMove | src/logic/Quotient.java:365-388 | a merged move's guard is not false, lies within its source invariant, and comes from some pair |
| Quotients.MergedTargets | src/logic/Quotient.java:365-388 | every merged move ends in the product of the two targets, or a collapsed copy |
| Quotients.MergedMovesAvoid | src/logic/Quotient.java:365-388 | no merged move ends in a sink that is not both universal and inconsistent |
| Quotients.MergedPartsAvoid | src/logic/Quotient.java:238-338 | rules 1, 2 and 8 never lead to a sink |
| Quotients.OneMoveToUniversal | src/logic/Quotient.java:223-354 | from a product location, exactly one move leads to univ, with all clocks reset and the guard of rules 3–5 |
| Quotients.MovesToInconsistent | src/logic/Quotient.java:223-354 | from a product location, the moves to inc are exactly those of rules 6 and 7 |
| Quotients.UnknownChannel | src/logic/Quotient.java:223-354 | a channel in neither operand gives only the move to univ |
| Quotients.SingleLocationMoves | src/logic/Quotient.java:339-352 | an inconsistent location gets one input move to inc resetting quo_new, a universal one a move to univ resetting everything, any other none |
| Quotients.EagerMovesFailure | src/logic/Quotient.java:228-233 | the computation fails exactly on a product of one operand, at index 1 |
| Quotients.Quotient.AddBlockedOutputs | src/logic/Quotient.java:306-313 | the loop computes rule 6's moves |
| Quotients.Quotient.MoveToUniversal | src/logic/Quotient.java:263-290 | computes rule 3–5's move |
| Quotients.Quotient.MovesToInc | src/logic/Quotient.java:292-327 | computes the moves of rules 6 and 7 |
| Quotients.Quotient.PairMoves | src/logic/Quotient.java:228-339 | computes all rules for a product location, in source order, with the corrected y |
| Quotients.Quotient.NextMoves | src/logic/Quotient.java:223-354 | computes `getNextMoves`, failing as `EagerMovesFailure` says, with the corrected y |
| Quotients.Quotient.HavePassed | src/logic/Quotient.java:153-161 | true iff some passed state has the same location name and a zone containing the state's |
| Quotients.Quotient.IsWaitingFor | src/logic/Quotient.java:163-171 | the same over the worklist |
| Quotients.ContainsEdge | src/logic/Quotient.java:173-177 | true iff an equal edge (with an equal guard) is already recorded |
| Quotients.Quotient.Enqueue | src/logic/Quotient.java:104-108 | an uncovered target is extrapolated and queued; afterwards the target is covered by a passed or waiting state |
| Quotients.Record | src/logic/Quotient.java:110-135 | a target location under a new name is added to the map and the list, built from the state with both coordinates kept (corrected); a known name leaves both as they are; the transition's edge is appended unless present; the graph stays well-formed and only grows |
| Quotients.AddLocation | src/logic/Quotient.java:113-119 | a new name maps to the new location, and the graph stays well-formed |
| Quotients.Quotient.Visit | src/logic/Quotient.java:100-136 | one transition is settled: its target is covered and its edge is recorded |
| Quotients.Quotient.ExpandChannel | src/logic/Quotient.java:98-136 | every transition on the channel is settled and the unexplored part of the state space never grows |
| Quotients.Quotient.Expand | src/logic/Quotient.java:97-137 | every channel is settled for the state, or the move computation fails at index 1 on a one-operand product |
| Quotients.Quotient.ExploreStep | src/logic/Quotient.java:93-137 | a worklist step moves the head to passed and settles all its channels |
| Quotients.Quotient.Pop | src/logic/Quotient.java:93-94 | the head of the worklist is removed and added to the passed states |
| Quotients.Quotient.Explore | src/logic/Quotient.java:89-138 | the loop terminates with an empty worklist, and every explored state has all successors settled |
| Quotients.SettledMeaning | src/logic/Quotient.java:100-136 | a settled transition's target is covered by a passed state, and its edge joins two recorded locations |
| Quotients.GraphShape | src/logic/Quotient.java:77-83 | recorded locations have distinct names, edges join recorded locations, and no edge is recorded twice |
| Quotients.ExploredMeaning | src/logic/Quotient.java:93-138 | every successor of every explored state is covered by a passed state and recorded as an edge |
| Quotients.Quotient.GetAutomaton | src/logic/Quotient.java:72-151 | the result is named after the quotient, holds its clocks and variables and the initial location, has distinct location names and no duplicate edge, and records every successor of every explored state |
| Quotients.FirstClock | src/logic/Quotient.java:42-45 | quo_new is the first clock of the quotient |
| LazyQuotients.LazyUniv | src/logic/LazyQuotient.java:49 | the lazy universal sink is "univ", universal, invariant true |
| LazyQuotients.LazyInc | src/logic/LazyQuotient.java:50 | the lazy inconsistent sink is "inc", inconsistent and urgent, invariant true |
| LazyQuotients.DisjointnessMessage | src/logic/LazyQuotient.java:26-31 | the message is the fixed prefix followed by the channel names in braces |
| LazyQuotients.JoinNamesLength | src/logic/LazyQuotient.java:257-262 | the joined names have the names' total length plus two per separator |
| LazyQuotients.NewLazyQuotient | src/logic/LazyQuotient.java:22-60 | construction fails iff an output of S is an input of T, with that message; otherwise a quotient over S and T with the quotient alphabets, the new action, the sinks "univ" and "inc", the original quo_new, clocks quo_new then S's then T's, and variables S's then T's |
| LazyQuotients.LazyQuotient.constructor | src/logic/LazyQuotient.java:22-60 | the new clock is the original quo_new, and the container's first clock is a copy of it; clocks are quo_new then S's then T's, variables S's then T's, the sinks "univ" and "inc", the alphabets as for the eager quotient |
| LazyQuotients.LazyQuotient.MergeLocations | src/logic/LazyQuotient.java:243-251 | computes the eager target merge, with the corrected y |
| LazyQuotients.LazyQuotient.MergeMoves | src/logic/LazyQuotient.java:232-241 | computes `LazyCombine`, whose products have the corrected y |
| LazyQuotients.LazyQuotient.MergeLists | src/logic/LazyQuotient.java:218-230 | the nested loop computes the cartesian merge, with the corrected y |
| LazyQuotients.LazyQuotient.MergeRow | src/logic/LazyQuotient.java:220-227 | the inner loop computes one row, with the corrected y |
| LazyQuotients.LazyCombineMeaning | src/logic/LazyQuotient.java:232-241 | a merged move joins sources and targets, concatenates edges, and is guarded by its enabled part |
| LazyQuotients.LazyMergedMove | src/logic/LazyQuotient.java:218-241 | a merged move's guard is not false, lies within its source invariant, and comes from some pair |
| LazyQuotients.LazyMergedAvoid | src/logic/LazyQuotient.java:218-251 | no merged move ends in a sink |
| LazyQuotients.LazyQuotient.BlockedGuard | src/logic/LazyQuotient.java:141-145 | the loop computes where no move is enabled |
| LazyQuotients.LazyQuotient.MoveToUniversal | src/logic/LazyQuotient.java:136-155 | computes rule 3–5's move |
| LazyQuotients.LazyQuotient.AddBlockedOutputs | src/logic/LazyQuotient.java:165-171 | the loop computes rule 6's moves |
| LazyQuotients.LazyQuotient.MovesToInc | src/logic/LazyQuotient.java:157-182 | computes the moves of rules 6 and 7 |
| LazyQuotients.LazyQuotient.SinkMoves | src/logic/LazyQuotient.java:192-205 | computes rules 9 and 10 |
| LazyQuotients.LazyQuotient.PairMovesOf | src/logic/LazyQuotient.java:112-190 | computes rules 1–8 for a product location, in source order, with the corrected y |
| LazyQuotients.LazyQuotient.NextMoves | src/logic/LazyQuotient.java:103-208 | computes `getNextMoves`, failing as `LazyMovesFailure` says, with the corrected message and the corrected y |
| LazyQuotients.LazyMovesFailure | src/logic/LazyQuotient.java:103-114 | fails exactly on a channel outside the alphabet (IllegalArgument, with the corrected message) or a location with fewer than two operands (index out of bounds) |
| LazyQuotients.SinksHaveNoMoves | src/logic/LazyQuotient.java:112-114 | the lazy sinks have no operands, so asking for their moves fails |
| LazyQuotients.MergedPartsAvoid | src/logic/LazyQuotient.java:121-190 | rules 1, 2 and 8 never lead to a sink |
| LazyQuotients.SinkLoopsTowards | src/logic/LazyQuotient.java:192-205 | rule 9 leads to univ exactly for a universal location, rule 10 to inc for an inconsistent location on an input |
| LazyQuotients.MovesToUniversal | src/logic/LazyQuotient.java:136-155 | from a product location, the moves to univ are rule 3–5's move plus rule 9's loop |
| LazyQuotients.MovesToInconsistent | src/logic/LazyQuotient.java:157-205 | from a product location, the moves to inc are those of rules 6 and 7, then rule 10's loop for an inconsistent location on an input |
| LazyQuotients.UniversalGuardMeaning | src/logic/LazyQuotient.java:136-155 | for a non-output of S the guard is true; for an output of S it is where no T move is enabled |
| LazyQuotients.BlockedOutputsMeaning | src/logic/LazyQuotient.java:157-172 | each S move yields a move to inc guarded by its enabled part where T is blocked |
| LazyQuotients.InvariantViolationMeaning | src/logic/LazyQuotient.java:174-182 | rule 7's move to inc is allowed exactly where the second operand's invariant fails and the first's holds |
| LazyQuotients.ForeignChannel | src/logic/LazyQuotient.java:103-208 | a channel in neither operand gives the move to univ followed by the sink loops |
| LazyQuotients.SynchronisedTargetOrder | src/logic/LazyQuotient.java:121-126 | a rule 1 move ends in a pair whose first operand is a target of S and whose second is a target of T |
| LazyQuotients.UnknownActionMessage | src/logic/LazyQuotient.java:109 | corrected: "Action ", the name, and " is not present in the action set" |
| LazyQuotients.ActionMessageIsBareName | src/logic/LazyQuotient.java:109 | as written, `String.join` with one element yields the bare action name, not the intended message |

## Left out

- The native constraint library: its operations are the `Zones` module, and the
  engine functions (`getGuard`, `transitionBack`, `cddZero`) are the `Engine`
  parameter. `CDD.init`, `tryInit`, `done`, `addClocks` and `addBddvar` only
  manage the native library, so they are not modelled.
- Transitions, states and extrapolation (`getNextTransitions`, `State`,
  `extrapolateMaxBounds`) are not part of this model's source. They are passed
  to the exploration as functions, together with a finite state space. The
  space must hold the extrapolated target of every successor of its states on
  the quotient's inputs and outputs, that is, of `Successors` over the moves
  the quotient itself computes. The exploration is proved to terminate within
  that space.
- `getInitialLocation`, `getInitialState` and `getSystems` of the eager
  quotient are not part of this model's source. The initial location and state
  are parameters of `GetAutomaton`.
- `updateLocations` and `updateEdges` rename clocks and variables to the same
  lists, so they are taken as the identity.
- The lazy quotient's `getAutomaton`, `getSystems`, `getInitialLocation` and
  `getNextTransitions` do nothing but return null, so they are not modelled.
- The remaining members are plain getters, `toString`, `hashCode` and printing,
  so they are not modelled:
  - the `Automaton` getters, and its `equals`, `toString` and `hashCode`;
  - `Location.toString` and `Location.hashCode`;
  - `UniqueNamedContainer.equals`, `hashCode` and `getItems`;
  - the `Move` getters, and `setUpdate`, which is `setUpdates` on an array;
  - `Quotient.printComments` and `Quotient.toString(Set)`.
- Object identity (`==` in `merge`) is modelled as value equality.
- Aliasing is not modelled:
  - the list the `OrGuard(List)` constructor receives is cleared in place, which
    the caller can observe;
  - `add` mutates items held by the container;
  - lists are shared between moves.
- Iteration over `HashSet`s has no order the source fixes. The model uses an
  arbitrary fixed enumeration, and states results "for some enumeration".
- The copy constructors of `ClockGuard`, `BoolGuard`, `AndGuard` and `Edge`,
  and `Guard.copy`, are not part of this model's source.
  - `CopyChild` keeps clock, boolean and conjunction guards unchanged.
  - `CopyOf` takes the guard copy as a parameter.
- `UniquelyNamed.setUniqueName` is not part of this model's source. It is
  modelled as `owner.name` (no index) or `owner.n.name` (with index). An item
  marked as a singleton (a global clock or variable) keeps its name: the model
  assumes `setUniqueName` leaves singletons unchanged, as `Containers.Renamed`
  states.
- The move computation of an operand system (`nextMoves` of `System`) is not
  part of this model's source. It is a total function parameter, so it always
  succeeds. An exception thrown by an operand's own move computation is not
  modelled, and neither quotient's `getNextMoves` passes one on.
- `Guards.MaxConstant`: clock and conjunction guards are not part of this
  model's source. A clock guard gives its bound for its own clock, and a
  conjunction is read like a disjunction.
- The Java `assert product.size() == 2` is not modelled: a longer product uses
  its first two operands, as the code does once assertions are off.
- Quotients.Successors: a move computation that fails counts as giving no
  transitions. `GetAutomaton` itself reports the failure.

The following members use the corrected half of a row under "## Findings"
instead of the code as written. Everything else they state follows the code.

- CopyChildKeepsKind: a nested OrGuard child is renormalised with
  `SoundNormalised`, so a nested all-false disjunction stays `[FalseGuard]`.
  The source's `this(list)` turns it into `[TrueGuard]`. The two agree on every
  other list.
- CopyAllKeepsKinds: nested OrGuard children are normalised the same corrected
  way as in `CopyChildKeepsKind`.
- CopyOrGuardFailsOnUnknownKind: the copy is normalised with `SoundNormalised`,
  not the as-written `Normalised`. This differs only when every copied child
  is false.
- CreateProductOfInvariants: the product's y is the average of the operands'
  y (`CreateProductCorrected`). The source's `createProduct` gives the last
  operand's y divided by the operand count. Name, flags, x and invariant are as
  in the source.
- MergeSource: the pair product has the averaged y, not the last operand's y
  halved.
- MergeTarget: the pair product has the averaged y, not the last operand's y
  halved.
- MergeLocations (both quotients): the merged location has the averaged y.
- MergeTargets: the merged target has the averaged y.
- MergeMoves (lazy quotient): the products in `LazyCombine` have the averaged
  y.
- MergeMoves (eager quotient): the locations of `EagerCombine` come from
  `MergeSource` and `MergeTarget`, so they have the averaged y.
- MergeStay: the merged locations have the averaged y.
- MergeWait: the merged locations have the averaged y.
- MergeLists (both quotients): every merged move's locations have the
  averaged y.
- MergeRow (both quotients): every merged move's locations have the averaged
  y.
- MergeStayList: every merged move's locations have the averaged y.
- MergeWaitList: every merged move's locations have the averaged y.
- PairMoves: the moves of rules 1, 2 and 8 go between merged locations with
  the averaged y.
- PairMovesOf: the moves of rules 1, 2 and 8 go between merged locations with
  the averaged y.
- NextMoves (eager quotient): the moves of rules 1, 2 and 8 go between merged
  locations with the averaged y.
- LazyCombineMeaning: the products have the averaged y.
- Record: the added location keeps the state location's y
  (`LocationFromState`). The source's `new Location(state, clocks)` sets y to
  x.
- NextMoves (lazy quotient): a channel outside the alphabet fails with
  `UnknownActionMessage`. The source's message is the bare channel name. The
  moves of rules 1, 2 and 8 go between merged locations with the averaged y.
- LazyMovesFailure: states the corrected message, not the bare channel name.

Observations on the source that are modelled as written:

- Rule 1 of the lazy quotient pairs moves with the S move first. The rest of
  `getNextMoves` reads a product location's operands with T first
  (`SynchronisedTargetOrder`).
- The lazy sinks have no operands, so `getNextMoves` on them fails before rules
  9 and 10 are reached (`SinksHaveNoMoves`).
- For a one-operand product location, the eager `getNextMoves` fails at index 1
  (`EagerMovesFailure`).

## Findings

| source | as written | input that shows it | evidently intended | confidence | as-written member | corrected member |
|---|---|---|---|---|---|---|
| src/models/OrGuard.java:30-33 | an OrGuard whose children are all FalseGuards keeps `[TrueGuard]`, which denotes true | `[FalseGuard, FalseGuard]`: denotes false, becomes true | an all-false disjunction stays false, so normalisation preserves meaning | not executed | Guards.AllFalseOrBecomesTrue | Guards.SoundNormalisedPreservesMeaning |
| src/models/OrGuard.java:40-42 | `new OrGuard(Guard...)` passes `Arrays.asList`, whose `clear()` at line 23 throws UnsupportedOperationException | `new OrGuard(new TrueGuard())` | the varargs constructor behaves like the list constructor | not executed | Guards.TrueGuardArgumentThrows | Guards.NewOrGuardOfGuards |
| src/models/Location.java:88-94 | y is the last operand's y divided by the operand count, not the average | two operands with y = 10 give y = 5 | y is averaged like x | not executed | Locations.ProductYIsNotAveraged | Locations.CreateProductCorrected |
| src/models/Location.java:63-65 | the state location's x is passed for y | a location at (1, 2) gives one at (1, 1) | y is copied from the state's location | not executed | Locations.StateLocationLosesY | Locations.LocationFromState |
| src/logic/LazyQuotient.java:109 | `String.join` is used where `String.format` was meant, so the message is the bare action name | channel `a` gives the message "a" | "Action a is not present in the action set" | not executed | LazyQuotients.ActionMessageIsBareName | LazyQuotients.UnknownActionMessage |
