/**
 * Values and layer chains of the state store.
 *
 * A layer is one JavaScript table object seen as a map from property name to
 * value; a chain is the table together with its prototype chain, bottom layer
 * first and the current table (`_table`) last. A lookup walks the chain from
 * the top down, as a property read on a table object does.
 */
module Layers {

  datatype Option<T> = None | Some(value: T)

  /** Identity of a function object (a derivation). */
  type FnId = nat

  /**
   * A JavaScript value as the store handles it. Numbers are exact reals
   * (NaN and the infinities are not modelled); `Obj` stands for any other
   * object by identity; `Func` is a value whose `typeof` is 'function'.
   */
  datatype Value =
    | Undefined
    | Null
    | Bool(b: bool)
    | Num(n: real)
    | Str(s: string)
    | Obj(ref: nat)
    | Func(id: FnId)

  /** JavaScript truthiness, as used by the memo check `if (this._values[key])`. */
  predicate Truthy(v: Value) {
    match v
    case Undefined => false
    case Null => false
    case Bool(b) => b
    case Num(n) => n != 0.0
    case Str(s) => s != ""
    case Obj(_) => true
    case Func(_) => true
  }

  type Layer = map<string, Value>

  /** A table and its prototype chain: index 0 is the bottom, the last layer is the top. */
  type Chain = seq<Layer>

  /** The own enumerable entries of a definitions object, in `Object.keys` order. */
  type Entries = seq<(string, Value)>

  /** Property names of one object are unique. */
  predicate DistinctNames(defs: Entries) {
    forall i, j :: 0 <= i < j < |defs| ==> defs[i].0 != defs[j].0
  }

  function Names(defs: Entries): set<string> {
    set e | e in defs :: e.0
  }

  /** A prefix of a definitions object defines no name the whole object does not. */
  lemma NamesPrefix(defs: Entries, n: nat)
    requires n <= |defs|
    ensures Names(defs[..n]) <= Names(defs)
  {
    forall k | k in Names(defs[..n]) ensures k in Names(defs) {
      var e :| e in defs[..n] && e.0 == k;
    }
  }

  /**
   * Property lookup through the chain: the entry of the highest layer that
   * owns `key`, or None when no layer owns it.
   */
  function Lookup(chain: Chain, key: string): Option<Value>
    decreases |chain|
  {
    if chain == [] then None
    else if key in chain[|chain| - 1] then Some(chain[|chain| - 1][key])
    else Lookup(chain[..|chain| - 1], key)
  }

  /**
   * A lookup fails exactly when no layer owns the name, and otherwise yields
   * the entry of a layer that owns it with no higher layer owning it.
   */
  lemma {:induction false} LookupNearest(chain: Chain, key: string)
    ensures Lookup(chain, key).None? <==> forall i :: 0 <= i < |chain| ==> key !in chain[i]
    ensures Lookup(chain, key).Some? ==>
              exists i :: && 0 <= i < |chain| && key in chain[i] && chain[i][key] == Lookup(chain, key).value
                          && forall j :: i < j < |chain| ==> key !in chain[j]
    decreases |chain|
  {
    if chain != [] && key !in chain[|chain| - 1] {
      var below := chain[..|chain| - 1];
      LookupNearest(below, key);
      assert forall i :: 0 <= i < |below| ==> below[i] == chain[i];
      if Lookup(below, key).Some? {
        var i :| && 0 <= i < |below| && key in below[i] && below[i][key] == Lookup(below, key).value
                 && forall j :: i < j < |below| ==> key !in below[j];
        assert forall j :: i < j < |chain| ==> key !in chain[j];
      }
    }
  }

  /** The JavaScript `in` operator on a table: some layer of the chain has the name. */
  predicate InChain(chain: Chain, key: string) {
    Lookup(chain, key).Some?
  }

  /** `table[key]`: the value found through the chain, or undefined. */
  function Resolve(chain: Chain, key: string): Value {
    match Lookup(chain, key)
    case Some(v) => v
    case None => Undefined
  }

  /**
   * The layer `Object.assign({}, defs)` builds: every entry written as an own
   * entry of a fresh table, later entries written after earlier ones.
   */
  function LayerOf(defs: Entries): (m: Layer)
    ensures m.Keys == Names(defs)
  {
    if defs == [] then map[]
    else
      var n := |defs| - 1;
      assert defs == defs[..n] + [defs[n]];
      LayerOf(defs[..n])[defs[n].0 := defs[n].1]
  }

  /** Each entry of an object with unique names is found in the layer built from it. */
  lemma {:induction false} LayerOfAt(defs: Entries, i: nat)
    requires DistinctNames(defs) && i < |defs|
    ensures defs[i].0 in LayerOf(defs) && LayerOf(defs)[defs[i].0] == defs[i].1
  {
    var n := |defs| - 1;
    if i < n {
      assert DistinctNames(defs[..n]);
      assert defs[..n][i] == defs[i];
      LayerOfAt(defs[..n], i);
      assert defs[n].0 != defs[i].0;
    }
  }

  /** Pushing a layer: its own entries win, every other name falls through to the old chain. */
  lemma LookupPush(chain: Chain, top: Layer, key: string)
    ensures Lookup(chain + [top], key) == if key in top then Some(top[key]) else Lookup(chain, key)
  {
    assert (chain + [top])[..|chain|] == chain;
  }

  /** A name found in a chain whose top does not own it is found in the layers below. */
  lemma InChainBelow(chain: Chain, key: string)
    requires |chain| >= 1 && InChain(chain, key) && key !in chain[|chain| - 1]
    ensures InChain(chain[..|chain| - 1], key)
  {
  }

  /**
   * After a layer built from `defs` is pushed, each defined name resolves to
   * its new value and every other name resolves as it did before.
   */
  lemma ResolveAfterPush(chain: Chain, defs: Entries, key: string)
    requires DistinctNames(defs)
    ensures forall i :: 0 <= i < |defs| ==> Resolve(chain + [LayerOf(defs)], defs[i].0) == defs[i].1
    ensures key !in Names(defs) ==> Resolve(chain + [LayerOf(defs)], key) == Resolve(chain, key)
  {
    forall i | 0 <= i < |defs|
      ensures Resolve(chain + [LayerOf(defs)], defs[i].0) == defs[i].1
    {
      LayerOfAt(defs, i);
      LookupPush(chain, LayerOf(defs), defs[i].0);
    }
    LookupPush(chain, LayerOf(defs), key);
  }
}
