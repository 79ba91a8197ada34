/** A boolean variable paired with a value (a valuation entry), mutable in place. */
module BoolVals {
  import opened Identifiers

  class BoolVal {
    var variable: BoolVar
    var value: bool

    constructor(variable: BoolVar, value: bool)
      ensures this.variable == variable && this.value == value
    {
      this.variable := variable;
      this.value := value;
    }

    /** `getName()`: the variable's original (not unique) name. */
    function Name(): string
      reads this
    {
      variable.originalName
    }

    method SetVar(v: BoolVar)
      modifies this
      ensures variable == v && value == old(value)
    {
      variable := v;
    }

    method SetValue(b: bool)
      modifies this
      ensures value == b && variable == old(variable)
    {
      value := b;
    }

    /** `equals(obj)`: another BoolVal with the same variable name and the same value. */
    predicate Equals(obj: object?)
      reads this, obj
    {
      obj != null && obj is BoolVal && (obj as BoolVal).Name() == Name() && (obj as BoolVal).value == value
    }

    /** `toString()`: the variable's name, " = ", then the value as "true" or "false". */
    function ToString(): (s: string)
      reads this
      ensures |s| > |Name()| + 3 && s[..|Name()|] == Name() && s[|Name()|..|Name()| + 3] == " = "
      ensures s[|Name()| + 3..] == "true" <==> value
      ensures s[|Name()| + 3..] == "false" <==> !value
    {
      Name() + " = " + if value then "true" else "false"
    }
  }

  /**
   * Equality of BoolVals is an equivalence that never holds for null and
   * that looks only at the original name and the value: owners and unique
   * names are ignored.
   */
  lemma EqualsIsNameAndValue(a: BoolVal, b: BoolVal, c: BoolVal)
    ensures !a.Equals(null)
    ensures a.Equals(a)
    ensures a.Equals(b) <==> b.Equals(a)
    ensures a.Equals(b) && b.Equals(c) ==> a.Equals(c)
    ensures a.Equals(b) <==> a.variable.originalName == b.variable.originalName && a.value == b.value
  {
  }
}
