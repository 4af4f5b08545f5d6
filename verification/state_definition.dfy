/**
 * The layered, memoizing property store `StateDefinition`.
 *
 * The store keeps a chain of tables (`_table` and its prototypes), one
 * previous chain for a single-level undo (`_oldTable`), a memo cache of read
 * results (`_values`) and, per defined name, an accessor installed on the
 * store itself. The accessors are kept here as an explicit table from name
 * to accessor kind.
 */
module StateDefinitions {
  import opened Layers

  /** What `define` reports: normal completion, or the error thrown for a reserved name. */
  datatype Outcome = Ok | ReservedNameError(name: string)

  /**
   * An installed getter. A literal accessor reads `this._table[key]` afresh at
   * every read; a bound accessor calls the function object that sat in the
   * table when it was installed.
   */
  datatype Accessor = LiteralLookup | Bound(id: FnId)

  /**
   * What reading a property of the store gives: a value, or the TypeError a
   * getter throws when it looks into `_values` before that object exists.
   */
  datatype Read = Got(value: Value) | ValuesMissing

  /** The memo cache holds a truthy result for `key`, which a getter returns without evaluating. */
  predicate Memoized(cache: Option<map<string, Value>>, key: string) {
    cache.Some? && key in cache.value && Truthy(cache.value[key])
  }

  /**
   * What derivation functions compute, given the store's current chain. The
   * code of the functions is outside the store, so the model takes it as a
   * parameter.
   */
  type Derivations = (FnId, Chain) -> Value

  /** The store's own bookkeeping names, which `define` refuses. */
  predicate Reserved(key: string) {
    key == "_table" || key == "_oldTable" || key == "_values"
  }

  /**
   * The position at which the per-key loop of `setProps` throws: the first
   * reserved name, or `|defs|` when there is none.
   */
  function FirstReserved(defs: Entries): (i: nat)
    ensures i <= |defs|
    ensures forall j :: 0 <= j < i ==> !Reserved(defs[j].0)
    ensures i < |defs| ==> Reserved(defs[i].0)
  {
    if defs == [] then 0
    else if Reserved(defs[0].0) then 0
    else
      var i := 1 + FirstReserved(defs[1..]);
      assert forall j :: 1 <= j < i ==> defs[j] == defs[1..][j - 1];
      i
  }

  /** The position of the first reserved name is determined by the names before it and at it. */
  lemma FirstReservedUnique(defs: Entries, i: nat)
    requires i <= |defs| && forall j :: 0 <= j < i ==> !Reserved(defs[j].0)
    requires i < |defs| ==> Reserved(defs[i].0)
    ensures FirstReserved(defs) == i
  {
  }

  /** The accessor kind installed for a defined value (`typeof value === 'function'`). */
  function AccessorFor(v: Value): Accessor {
    if v.Func? then Bound(v.id) else LiteralLookup
  }

  function AccessorsOf(layer: Layer): map<string, Accessor> {
    map k | k in layer :: AccessorFor(layer[k])
  }

  /** The accessor table after getters are installed for the entries `defs`, replacing older ones. */
  function Installed(acc: map<string, Accessor>, defs: Entries): map<string, Accessor> {
    acc + AccessorsOf(LayerOf(defs))
  }

  /**
   * The accessor table after `revert`'s deletion loop: a name goes when it is
   * an own entry of the discarded top layer and is not `in` the previous chain.
   */
  function Pruned(acc: map<string, Accessor>, top: Layer, older: Chain): map<string, Accessor> {
    map k | k in acc && !(k in top && !InChain(older, k)) :: acc[k]
  }

  /** What an accessor computes when its result is not served from the cache. */
  function Evaluate(acc: Accessor, key: string, chain: Chain, derive: Derivations): Value {
    match acc
    case LiteralLookup => Resolve(chain, key)
    case Bound(id) => derive(id, chain)
  }

  /** The derivation calls one evaluation makes. */
  function Invocations(acc: Accessor): multiset<FnId> {
    match acc
    case LiteralLookup => multiset{}
    case Bound(id) => multiset{id}
  }

  /** Installing the entries one more at a time updates the accessor table one name at a time. */
  lemma InstalledStep(acc: map<string, Accessor>, defs: Entries, i: nat)
    requires i < |defs|
    ensures Installed(acc, defs[..i + 1]) == Installed(acc, defs[..i])[defs[i].0 := AccessorFor(defs[i].1)]
  {
    assert defs[..i + 1][..i] == defs[..i];
    var before := LayerOf(defs[..i]);
    var after := LayerOf(defs[..i + 1]);
    assert after == before[defs[i].0 := defs[i].1];
    AccessorsOfUpdate(before, defs[i].0, defs[i].1);
  }

  lemma AccessorsOfUpdate(layer: Layer, key: string, v: Value)
    ensures AccessorsOf(layer[key := v]) == AccessorsOf(layer)[key := AccessorFor(v)]
  {
  }

  /**
   * `define(defs)` followed by `revert()`, on the accessor table. The
   * getters installed are those of `defs[..n]` (all of them when no name is
   * reserved); `older` is the chain current before `define`, and every
   * accessor then installed resolves in it. Afterwards every earlier
   * accessor is still installed, a newly defined name keeps its accessor
   * exactly when it is also found in `older`, and such a kept name keeps the
   * accessor `define` installed, so a derivation stays bound to the newer
   * function even though the newer layer is gone.
   */
  lemma DefineRevertAccessors(acc: map<string, Accessor>, older: Chain, defs: Entries, n: nat)
    requires DistinctNames(defs) && n <= |defs|
    requires forall k :: k in acc ==> InChain(older, k)
    ensures var after := Pruned(Installed(acc, defs[..n]), LayerOf(defs), older);
            && (forall k :: k in after <==> k in acc || (k in Names(defs[..n]) && InChain(older, k)))
            && (forall i :: 0 <= i < n && defs[i].0 in after ==> after[defs[i].0] == AccessorFor(defs[i].1))
            && (forall k :: k in after && k !in Names(defs[..n]) ==> after[k] == acc[k])
  {
    NamesPrefix(defs, n);
    forall i | 0 <= i < n
      ensures Installed(acc, defs[..n])[defs[i].0] == AccessorFor(defs[i].1)
    {
      InstalledAt(acc, defs, n, i);
    }
  }

  /** After installing the getters of `defs[..n]`, each of those names has the getter of its own entry. */
  lemma InstalledAt(acc: map<string, Accessor>, defs: Entries, n: nat, i: nat)
    requires DistinctNames(defs) && i < n <= |defs|
    ensures defs[i].0 in Installed(acc, defs[..n])
    ensures Installed(acc, defs[..n])[defs[i].0] == AccessorFor(defs[i].1)
  {
    assert defs[..n][i] == defs[i];
    assert DistinctNames(defs[..n]);
    LayerOfAt(defs[..n], i);
  }

  /** Widening the top layer of a chain keeps every name the chain had. */
  lemma InChainWiderTop(chain: Chain, top: Layer, key: string)
    requires |chain| >= 1 && chain[|chain| - 1].Keys <= top.Keys && InChain(chain, key)
    ensures InChain(chain[..|chain| - 1] + [top], key)
  {
    var n := |chain| - 1;
    assert chain == chain[..n] + [chain[n]];
    LookupPush(chain[..n], chain[n], key);
    LookupPush(chain[..n], top, key);
  }

  class StateDefinition {
    /** `_table`: the current table and its prototype chain. */
    var layers: Chain
    /** `_oldTable`: the chain current before the latest `define`; None once `revert` deleted it. */
    var prev: Option<Chain>
    /**
     * `_values`: memoized read results. It is None until the first `define`
     * that completes (or the first `revert`) creates it.
     */
    var cache: Option<map<string, Value>>
    /** The getters installed on the store, by name. */
    var accessors: map<string, Accessor>
    /** The code of every derivation function. */
    const derive: Derivations
    /** Every derivation call made so far, by function. */
    ghost var calls: multiset<FnId>

    /**
     * The chain is never empty; the history slot is the chain minus its top
     * (or, while the chain is a single table, the second empty table the
     * constructor made); every installed getter names something the chain has.
     */
    ghost predicate Valid()
      reads this
    {
      && |layers| >= 1
      && (prev.Some? ==> || (|layers| >= 2 && prev.value == layers[..|layers| - 1])
                         || (|layers| == 1 && prev.value == [map[]]))
      && (forall k :: k in accessors ==> InChain(layers, k))
    }

    /**
     * A store with two fresh empty tables, then `define(init)` when initial
     * definitions are given. `_values` exists only once that `define` has
     * completed.
     */
    constructor (derive: Derivations, init: Option<Entries>)
      requires init.Some? ==> DistinctNames(init.value) && FirstReserved(init.value) == |init.value|
      ensures Valid() && this.derive == derive && calls == multiset{}
      ensures cache == if init.Some? then Some(map[]) else None
      ensures init.None? ==> layers == [map[]] && prev == Some([map[]]) && accessors == map[]
      ensures init.Some? ==> && layers == [map[], LayerOf(init.value)] && prev == Some([map[]])
                             && accessors == AccessorsOf(LayerOf(init.value))
    {
      this.derive := derive;
      layers := [map[]];
      prev := Some([map[]]);
      cache := None;
      accessors := map[];
      calls := multiset{};
      new;
      if init.Some? {
        assert init.value[..|init.value|] == init.value;
        var _ := Define(init.value);
      }
    }

    /**
     * Pushes one layer holding `defs`, installs getters for the names of
     * `defs` and empties the cache. A reserved name throws from inside the
     * per-key loop: the layer is already pushed and filled, the history slot
     * already overwritten and the getters of the names before it already
     * installed, while the cache is left as it was.
     */
    method Define(defs: Entries) returns (outcome: Outcome)
      requires Valid() && DistinctNames(defs)
      modifies this`layers, this`prev, this`accessors, this`cache
      ensures Valid()
      ensures layers == old(layers) + [LayerOf(defs)]
      ensures prev == Some(old(layers))
      ensures accessors == Installed(old(accessors), defs[..FirstReserved(defs)])
      ensures outcome == if FirstReserved(defs) == |defs| then Ok else ReservedNameError(defs[FirstReserved(defs)].0)
      ensures cache == if outcome.Ok? then Some(map[]) else old(cache)
    {
      ExtendTable();
      outcome := SetProps(defs);
      assert map[] + LayerOf(defs) == LayerOf(defs);
      if outcome.Ok? {
        cache := Some(map[]);
      }
    }

    /**
     * Writes `defs` into the current table and installs a getter per name,
     * in order, throwing at the first reserved name.
     */
    method SetProps(defs: Entries) returns (outcome: Outcome)
      requires Valid() && DistinctNames(defs)
      modifies this`layers, this`accessors
      ensures Valid()
      ensures layers == old(layers[..|layers| - 1]) + [old(layers[|layers| - 1]) + LayerOf(defs)]
      ensures accessors == Installed(old(accessors), defs[..FirstReserved(defs)])
      ensures outcome == if FirstReserved(defs) == |defs| then Ok else ReservedNameError(defs[FirstReserved(defs)].0)
    {
      AssignEntries(defs);
      var n := |layers| - 1;
      ghost var chain := layers;
      var i := 0;
      while i < |defs|
        invariant layers == chain
        invariant 0 <= i <= |defs|
        invariant forall j :: 0 <= j < i ==> !Reserved(defs[j].0)
        invariant accessors == Installed(old(accessors), defs[..i])
        invariant forall k :: k in accessors ==> InChain(layers, k)
      {
        var (key, value) := defs[i];
        if Reserved(key) {
          FirstReservedUnique(defs, i);
          return ReservedNameError(key);
        }
        LayerOfAt(defs, i);
        LookupPush(layers[..n], layers[n], key);
        assert layers[..n] + [layers[n]] == layers;
        InstalledStep(old(accessors), defs, i);
        accessors := accessors[key := if value.Func? then Bound(layers[n][key].id) else LiteralLookup];
        i := i + 1;
      }
      assert defs[..i] == defs;
      FirstReservedUnique(defs, i);
      outcome := Ok;
    }

    /** `Object.assign(this._table, defs)`: the entries become own entries of the current table. */
    method AssignEntries(defs: Entries)
      requires Valid()
      modifies this`layers
      ensures Valid()
      ensures layers == old(layers[..|layers| - 1]) + [old(layers[|layers| - 1]) + LayerOf(defs)]
    {
      var n := |layers| - 1;
      var top := layers[n] + LayerOf(defs);
      forall k | k in accessors ensures InChain(layers[..n] + [top], k) {
        InChainWiderTop(layers, top, k);
      }
      layers := layers[..n] + [top];
    }

    /** Makes a new empty table on top of the current one and remembers the current chain. */
    method ExtendTable()
      requires Valid()
      modifies this`layers, this`prev
      ensures Valid()
      ensures layers == old(layers) + [map[]]
      ensures prev == Some(old(layers))
    {
      forall k | k in accessors ensures InChain(layers + [map[]], k) {
        LookupPush(layers, map[], k);
      }
      prev := Some(layers);
      layers := layers + [map[]];
    }

    /**
     * Deletes the getters of names owned only by the top layer, makes the
     * previous chain current, empties the cache and deletes the history slot.
     */
    method Revert()
      requires Valid() && prev.Some?
      modifies this`layers, this`prev, this`accessors, this`cache
      ensures Valid()
      ensures layers == old(prev.value)
      ensures prev == None
      ensures cache == Some(map[])
      ensures accessors == Pruned(old(accessors), old(layers[|layers| - 1]), old(prev.value))
    {
      var top := layers[|layers| - 1];
      var older := prev.value;
      var pending := accessors.Keys;
      while pending != {}
        invariant pending <= old(accessors).Keys
        invariant accessors.Keys <= old(accessors).Keys
        invariant forall k :: k in accessors ==> accessors[k] == old(accessors)[k]
        invariant forall k :: k in old(accessors) ==> (k in accessors <==> k in pending || !(k in top && !InChain(older, k)))
        decreases pending
      {
        var k :| k in pending;
        if k in top && !InChain(older, k) {
          accessors := accessors - {k};
        }
        pending := pending - {k};
      }
      forall k | k in accessors ensures InChain(older, k) {
        if k !in top {
          InChainBelow(old(layers), k);
        }
      }
      layers := older;
      cache := Some(map[]);
      prev := None;
    }

    /**
     * Reads the store's property `key`. Without a getter the read is
     * undefined. A getter throws a TypeError while `_values` does not exist.
     * Otherwise a truthy cached result is returned as is; a missing or falsy
     * one makes the getter evaluate (re-resolving a literal through the
     * current chain, or calling its bound derivation with the store), cache
     * the result and return it.
     */
    method Get(key: string) returns (r: Read)
      requires Valid()
      modifies this`cache, this`calls
      ensures Valid()
      ensures key !in accessors ==> r == Got(Undefined) && cache == old(cache) && calls == old(calls)
      ensures key in accessors && old(cache).None? ==> r == ValuesMissing && cache == old(cache) && calls == old(calls)
      ensures key in accessors && Memoized(old(cache), key) ==>
                r == Got(old(cache).value[key]) && cache == old(cache) && calls == old(calls)
      ensures key in accessors && old(cache).Some? && !Memoized(old(cache), key) ==>
                && r == Got(Evaluate(accessors[key], key, layers, derive))
                && cache == Some(old(cache).value[key := r.value])
                && calls == old(calls) + Invocations(accessors[key])
      ensures r.Got? && Truthy(r.value) && key in accessors ==> Memoized(cache, key) && cache.value[key] == r.value
    {
      if key !in accessors {
        return Got(Undefined);
      }
      if cache.None? {
        return ValuesMissing;
      }
      var values := cache.value;
      if key in values && Truthy(values[key]) {
        return Got(values[key]);
      }
      var v;
      match accessors[key] {
        case LiteralLookup =>
          v := Resolve(layers, key);
        case Bound(id) =>
          v := derive(id, layers);
          calls := calls + multiset{id};
      }
      cache := Some(values[key := v]);
      r := Got(v);
    }
  }

  /**
   * `define(defs)` and then `revert()`: the chain is back to the one before
   * `define`, the history slot and the cache are empty, and the getters are
   * those of `DefineRevertAccessors`: the earlier ones unchanged, plus each
   * newly defined name that the earlier chain also has.
   */
  method DefineThenRevert(s: StateDefinition, defs: Entries) returns (outcome: Outcome)
    requires s.Valid() && DistinctNames(defs)
    modifies s`layers, s`prev, s`accessors, s`cache
    ensures s.Valid() && s.layers == old(s.layers) && s.prev == None && s.cache == Some(map[])
    ensures forall k :: k in s.accessors <==>
                        k in old(s.accessors) || (k in Names(defs[..FirstReserved(defs)]) && InChain(old(s.layers), k))
    ensures forall i :: 0 <= i < FirstReserved(defs) && defs[i].0 in s.accessors ==>
                        s.accessors[defs[i].0] == AccessorFor(defs[i].1)
    ensures forall k :: k in s.accessors && k !in Names(defs[..FirstReserved(defs)]) ==> s.accessors[k] == old(s.accessors)[k]
  {
    outcome := s.Define(defs);
    s.Revert();
    DefineRevertAccessors(old(s.accessors), old(s.layers), defs, FirstReserved(defs));
  }

  /**
   * Two reads of the same name in a row agree; both throw while `_values`
   * does not exist. A truthy result is evaluated
   * at most once; a falsy one is not memoized, so its getter evaluates again
   * and a derivation is called on both reads.
   */
  method ReadTwice(s: StateDefinition, key: string) returns (first: Read, second: Read)
    requires s.Valid()
    modifies s`cache, s`calls
    ensures s.Valid() && second == first
    ensures key !in s.accessors ==> first == Got(Undefined) && s.calls == old(s.calls)
    ensures key in s.accessors && old(s.cache).None? ==> first == ValuesMissing && s.calls == old(s.calls)
    ensures key in s.accessors && Memoized(old(s.cache), key) ==>
              first == Got(old(s.cache).value[key]) && s.calls == old(s.calls)
    ensures key in s.accessors && old(s.cache).Some? && !Memoized(old(s.cache), key) && first.Got? && Truthy(first.value) ==>
              s.calls == old(s.calls) + Invocations(s.accessors[key])
    ensures key in s.accessors && first.Got? && !Truthy(first.value) ==>
              s.calls == old(s.calls) + Invocations(s.accessors[key]) + Invocations(s.accessors[key])
  {
    first := s.Get(key);
    second := s.Get(key);
  }
}
