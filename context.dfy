/**
 * The shared context dictionary that the engine fills each turn and that
 * agents and layers write into: string keys mapped to JSON-like values.
 */
module Context {

  /** The key under which agents and the engine store the FECR vector. */
  const FECR_KEY: string := "fecr_vector"

  /** A value stored under a context key: a number, a string or a list. */
  datatype Value = Num(x: real) | Text(s: string) | Items(items: seq<Value>)

  /** A list of numbers, as a FECR vector is stored. */
  function Numbers(xs: seq<real>): (v: Value)
    ensures v.Items? && |v.items| == |xs|
    ensures forall i :: 0 <= i < |xs| ==> v.items[i] == Num(xs[i])
  {
    Items(seq(|xs|, i requires 0 <= i < |xs| => Num(xs[i])))
  }

  /** A list of strings, as the layer trace is stored. */
  function Texts(ss: seq<string>): (v: Value)
    ensures v.Items? && |v.items| == |ss|
    ensures forall i :: 0 <= i < |ss| ==> v.items[i] == Text(ss[i])
  {
    Items(seq(|ss|, i requires 0 <= i < |ss| => Text(ss[i])))
  }

  lemma TextsAppend(ss: seq<string>, s: string)
    ensures Texts(ss + [s]) == Items(Texts(ss).items + [Text(s)])
  {
  }

  /** A context dictionary, mutated in place by whoever holds it. */
  class ContextState {
    var entries: map<string, Value>

    constructor (entries0: map<string, Value>)
      ensures entries == entries0
    {
      entries := entries0;
    }

    /** `context[key] = v`. */
    method Set(key: string, v: Value)
      modifies this
      ensures entries == old(entries)[key := v]
    {
      entries := entries[key := v];
    }
  }
}
