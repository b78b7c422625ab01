/** Computed entries and what it means for a computed store to be up to date. */
module Computeds {
  import opened Names
  import opened Values
  import opened Wrappers

  datatype Classification = Opaque | Deterministic | AsyncBoundary

  /** A registered computed. `compute` answers None when the user's function throws. The mutable
      last-output fields of the source's entry are kept beside the entries by their owners. */
  datatype Entry = Entry(
    deps: seq<Name>,
    compute: seq<Value> -> Option<Value>,
    classification: Classification)

  type Entries = map<Name, Entry>

  type Stores = map<Name, Value>

  /** `getStore(name)`: a missing store reads as null. */
  function Read(stores: Stores, name: Name): Value {
    if name in stores then stores[name] else Null
  }

  function Args(deps: seq<Name>, stores: Stores): (args: seq<Value>)
    ensures |args| == |deps|
  {
    if deps == [] then [] else [Read(stores, deps[0])] + Args(deps[1..], stores)
  }

  lemma {:induction false} ArgsAgree(deps: seq<Name>, a: Stores, b: Stores)
    requires forall d | d in deps :: Read(a, d) == Read(b, d)
    ensures Args(deps, a) == Args(deps, b)
  {
    if deps != [] {
      ArgsAgree(deps[1..], a, b);
    }
  }

  /** The store of `c` holds the value of its compute function on the current values of its
      dependencies; a throwing compute function keeps whatever the store holds. */
  predicate Fresh(entries: Entries, stores: Stores, c: Name)
    requires c in entries
  {
    var out := entries[c].compute(Args(entries[c].deps, stores));
    out.None? || (c in stores && stores[c] == out.value)
  }

  /** `_runCompute`: on a throw the current value (or null) stands in. */
  function RunCompute(entry: Entry, c: Name, stores: Stores): Value {
    match entry.compute(Args(entry.deps, stores))
    case Some(v) => v
    case None => Read(stores, c)
  }
}
