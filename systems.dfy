/**
 * The operands of a quotient (TransitionSystem, whose source is not part of
 * this model) and the channel algebra both quotient constructions share:
 * for a specification T and a component S, the quotient T \\ S listens on
 * T's inputs, S's outputs and a fresh channel `i_new`, and emits T's outputs
 * that S does not emit and S's inputs that T does not listen on.
 */
module Systems {
  import opened Identifiers
  import opened Locations
  import opened Moves

  /**
   * The parts of a transition system a quotient reads: its name, channel
   * sets, clocks, boolean variables, clock bounds, and its moves from a
   * location on a channel (in the order the system lists them).
   */
  datatype System = System(
    name: string,
    inputs: set<Channel>,
    outputs: set<Channel>,
    clocks: seq<Clock>,
    bvs: seq<BoolVar>,
    maxBounds: map<Clock, int>,
    nextMoves: (Location, Channel) -> seq<MoveView>)

  /** `getActions()` of an operand: its inputs and outputs. */
  function Actions(s: System): set<Channel> {
    s.inputs + s.outputs
  }

  /** A system never uses a channel both as input and as output. */
  predicate Directed(s: System) {
    s.inputs !! s.outputs
  }

  /** The fresh input channel of a quotient. */
  const NewChannel := Channel("i_new")

  /** The quotient's inputs: T's inputs, S's outputs and `i_new`. */
  function QuotientInputs(t: System, s: System): set<Channel> {
    t.inputs + s.outputs + {NewChannel}
  }

  /** The quotient's outputs: T's outputs S does not emit, and S's inputs T does not read. */
  function QuotientOutputs(t: System, s: System): set<Channel> {
    (t.outputs - s.outputs) + (s.inputs - t.inputs)
  }

  /** `in`, `intersect`, `difference` and `union` are the set operations. */
  function Intersect(a: set<Channel>, b: set<Channel>): (r: set<Channel>)
    ensures forall c :: c in r <==> c in a && c in b
  {
    set c | c in a && c in b
  }

  function Difference(a: set<Channel>, b: set<Channel>): (r: set<Channel>)
    ensures forall c :: c in r <==> c in a && c !in b
  {
    set c | c in a && c !in b
  }

  /**
   * The channel algebra, element by element: what is an input and what is
   * an output of the quotient.
   */
  lemma QuotientChannels(t: System, s: System, a: Channel)
    ensures a in QuotientInputs(t, s) <==> a in t.inputs || a in s.outputs || a == NewChannel
    ensures a in QuotientOutputs(t, s) <==> (a in t.outputs && a !in s.outputs) || (a in s.inputs && a !in t.inputs)
  {
  }

  /**
   * When both operands are directed and neither uses `i_new` where it would
   * clash, no channel of the quotient is both an input and an output.
   */
  lemma QuotientIsDirected(t: System, s: System)
    requires Directed(t) && Directed(s)
    requires NewChannel !in t.outputs && NewChannel !in s.inputs
    ensures QuotientInputs(t, s) !! QuotientOutputs(t, s)
  {
    forall a | a in QuotientInputs(t, s) && a in QuotientOutputs(t, s)
      ensures false
    {
      QuotientChannels(t, s, a);
    }
  }

  /** Every channel of either operand, and `i_new`, is a channel of the quotient. */
  lemma QuotientAlphabet(t: System, s: System)
    ensures QuotientInputs(t, s) + QuotientOutputs(t, s) == Actions(t) + Actions(s) + {NewChannel}
  {
  }

  /** The quotient's name: the two operand names joined by "//". */
  function QuotientName(first: System, second: System): (n: string)
    ensures |n| == |first.name| + 2 + |second.name|
    ensures n[..|first.name|] == first.name && n[|first.name| + 2..] == second.name
  {
    first.name + "//" + second.name
  }
}
