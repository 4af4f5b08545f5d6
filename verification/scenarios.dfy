/**
 * The store's documented scenarios, replayed on the model. Each method runs
 * the store's operations on the scenario's definitions and its
 * postcondition states the values the reads produce. The property names are
 * parameters: a scenario holds for any pairwise distinct names that are not
 * reserved, the names `foo`, `fiz`, ... of the scenarios among them.
 */
module Scenarios {
  import opened Layers
  import opened StateDefinitions

  /** `context => context.fiz * 2` */
  const CustomGetter: FnId := 0
  /** `context => `${context.foo} ${context.fiz}`` (its string formatting is not modelled) */
  const NewCustomGetter: FnId := 1
  /** `context => context.fiz / 2` */
  const NewGetter: FnId := 2

  /** The property names the scenarios use. */
  datatype PropertyNames = PropertyNames(
    foo: string, fiz: string, customGetter: string, newCustomGetter: string, hello: string, newGetter: string)

  /** Pairwise distinct and none of them reserved. */
  predicate Usable(n: PropertyNames) {
    && n.foo != n.fiz && n.foo != n.customGetter && n.foo != n.newCustomGetter && n.foo != n.hello && n.foo != n.newGetter
    && n.fiz != n.customGetter && n.fiz != n.newCustomGetter && n.fiz != n.hello && n.fiz != n.newGetter
    && n.customGetter != n.newCustomGetter && n.customGetter != n.hello && n.customGetter != n.newGetter
    && n.newCustomGetter != n.hello && n.newCustomGetter != n.newGetter
    && n.hello != n.newGetter
    && !Reserved(n.foo) && !Reserved(n.fiz) && !Reserved(n.customGetter)
    && !Reserved(n.newCustomGetter) && !Reserved(n.hello) && !Reserved(n.newGetter)
  }

  /**
   * The derivation functions of the scenarios. They read `fiz` through the
   * chain; what they compute from a `fiz` that is not a number is not
   * modelled and reads undefined here, and so does any other function.
   */
  function ScenarioDerivations(fiz: string): Derivations {
    (id: FnId, chain: Chain) =>
      match Resolve(chain, fiz)
      case Num(x) =>
        if id == CustomGetter then Num(x * 2.0)
        else if id == NewGetter then Num(x / 2.0)
        else Undefined
      case _ => Undefined
  }

  /** What the scenario derivations compute over a chain in which `fiz` is the number `x`. */
  lemma DerivationsAt(fiz: string, chain: Chain, x: real)
    requires Resolve(chain, fiz) == Num(x)
    ensures ScenarioDerivations(fiz)(CustomGetter, chain) == Num(x * 2.0)
    ensures ScenarioDerivations(fiz)(NewGetter, chain) == Num(x / 2.0)
  {
  }

  function InitialState(n: PropertyNames): Entries {
    [(n.foo, Str("bar")), (n.fiz, Num(222.0)), (n.customGetter, Func(CustomGetter))]
  }

  function InitialTable(n: PropertyNames): Layer {
    map[n.foo := Str("bar"), n.fiz := Num(222.0), n.customGetter := Func(CustomGetter)]
  }

  function InitialAccessors(n: PropertyNames): map<string, Accessor> {
    map[n.foo := LiteralLookup, n.fiz := LiteralLookup, n.customGetter := Bound(CustomGetter)]
  }

  /** Lookups through chains of two to four layers. */
  lemma LookupShortChains(a: Layer, b: Layer, c: Layer, d: Layer, key: string)
    ensures Lookup([a, b], key) == if key in b then Some(b[key]) else if key in a then Some(a[key]) else None
    ensures Lookup([a, b, c], key) == if key in c then Some(c[key]) else Lookup([a, b], key)
    ensures Lookup([a, b, c, d], key) == if key in d then Some(d[key]) else Lookup([a, b, c], key)
  {
    LookupPush([], a, key);
    LookupPush([a], b, key);
    LookupPush([a, b], c, key);
    LookupPush([a, b, c], d, key);
    assert [] + [a] == [a] && [a] + [b] == [a, b] && [a, b] + [c] == [a, b, c] && [a, b, c] + [d] == [a, b, c, d];
  }

  /** The layer and getters of a one-entry definitions object without a reserved name. */
  lemma OneEntry(defs: Entries)
    requires |defs| == 1 && !Reserved(defs[0].0)
    ensures DistinctNames(defs) && FirstReserved(defs) == 1
    ensures LayerOf(defs) == map[defs[0].0 := defs[0].1]
    ensures AccessorsOf(LayerOf(defs)) == map[defs[0].0 := AccessorFor(defs[0].1)]
  {
    assert defs[..0] == [];
    AccessorsOfUpdate(map[], defs[0].0, defs[0].1);
  }

  /** The layer built from a two-entry definitions object. */
  lemma TwoEntryLayer(defs: Entries)
    requires |defs| == 2
    ensures LayerOf(defs) == map[defs[0].0 := defs[0].1, defs[1].0 := defs[1].1]
  {
    assert defs[..1][..0] == [];
  }

  /** The layer and getters of a two-entry definitions object without reserved names. */
  lemma TwoEntries(defs: Entries)
    requires |defs| == 2 && defs[0].0 != defs[1].0 && !Reserved(defs[0].0) && !Reserved(defs[1].0)
    ensures DistinctNames(defs) && FirstReserved(defs) == 2
    ensures LayerOf(defs) == map[defs[0].0 := defs[0].1, defs[1].0 := defs[1].1]
    ensures AccessorsOf(LayerOf(defs)) == map[defs[0].0 := AccessorFor(defs[0].1), defs[1].0 := AccessorFor(defs[1].1)]
  {
    TwoEntryLayer(defs);
    assert defs[1..][1..] == [];
    AccessorsOfUpdate(map[], defs[0].0, defs[0].1);
    AccessorsOfUpdate(map[defs[0].0 := defs[0].1], defs[1].0, defs[1].1);
  }

  /** The layer and getters of a three-entry definitions object without reserved names. */
  lemma ThreeEntries(defs: Entries)
    requires |defs| == 3 && defs[0].0 != defs[1].0 && defs[0].0 != defs[2].0 && defs[1].0 != defs[2].0
    requires !Reserved(defs[0].0) && !Reserved(defs[1].0) && !Reserved(defs[2].0)
    ensures DistinctNames(defs) && FirstReserved(defs) == 3
    ensures LayerOf(defs) == map[defs[0].0 := defs[0].1, defs[1].0 := defs[1].1, defs[2].0 := defs[2].1]
    ensures AccessorsOf(LayerOf(defs)) ==
              map[defs[0].0 := AccessorFor(defs[0].1), defs[1].0 := AccessorFor(defs[1].1), defs[2].0 := AccessorFor(defs[2].1)]
  {
    TwoEntryLayer(defs[..2]);
    assert defs[..2][0] == defs[0] && defs[..2][1] == defs[1];
    assert LayerOf(defs) == LayerOf(defs[..2])[defs[2].0 := defs[2].1];
    assert defs[1..][1..][1..] == [];
    AccessorsOfUpdate(map[], defs[0].0, defs[0].1);
    AccessorsOfUpdate(map[defs[0].0 := defs[0].1], defs[1].0, defs[1].1);
    AccessorsOfUpdate(map[defs[0].0 := defs[0].1, defs[1].0 := defs[1].1], defs[2].0, defs[2].1);
  }

  /** `define` of an object without reserved names, with its effect stated compactly. */
  method DefineClean(s: StateDefinition, defs: Entries, top: Layer)
    requires s.Valid() && DistinctNames(defs) && FirstReserved(defs) == |defs| && LayerOf(defs) == top
    modifies s`layers, s`prev, s`accessors, s`cache
    ensures s.Valid()
    ensures s.layers == old(s.layers) + [top] && s.prev == Some(old(s.layers))
    ensures s.accessors == old(s.accessors) + AccessorsOf(top) && s.cache == Some(map[])
  {
    assert defs[..|defs|] == defs;
    var outcome := s.Define(defs);
  }

  /** The getters `revert` keeps and the ones it deletes. */
  lemma PrunedAt(acc: map<string, Accessor>, top: Layer, older: Chain, key: string)
    requires key in acc
    ensures key in Pruned(acc, top, older) <==> key !in top || InChain(older, key)
    ensures key in Pruned(acc, top, older) ==> Pruned(acc, top, older)[key] == acc[key]
  {
  }

  /** A store made by the constructor from the initial state. */
  method ConstructedStore(n: PropertyNames) returns (s: StateDefinition)
    requires Usable(n)
    ensures fresh(s) && s.Valid() && s.derive == ScenarioDerivations(n.fiz) && s.cache == Some(map[])
    ensures s.layers == [map[], InitialTable(n)] && s.prev == Some([map[]])
    ensures s.accessors == InitialAccessors(n) && s.calls == multiset{}
  {
    ThreeEntries(InitialState(n));
    s := new StateDefinition(ScenarioDerivations(n.fiz), Some(InitialState(n)));
  }

  /** A store made empty, then given the initial state by `define`. */
  method DefinedStore(n: PropertyNames) returns (s: StateDefinition)
    requires Usable(n)
    ensures fresh(s) && s.Valid() && s.derive == ScenarioDerivations(n.fiz) && s.cache == Some(map[])
    ensures s.layers == [map[], InitialTable(n)] && s.prev == Some([map[]])
    ensures s.accessors == InitialAccessors(n) && s.calls == multiset{}
  {
    ThreeEntries(InitialState(n));
    s := new StateDefinition(ScenarioDerivations(n.fiz), None);
    DefineClean(s, InitialState(n), InitialTable(n));
    assert map[] + AccessorsOf(InitialTable(n)) == InitialAccessors(n);
  }

  /** A store holding the initial state, made in either of the two ways the scenarios use. */
  method InitialStore(n: PropertyNames, viaConstructor: bool) returns (s: StateDefinition)
    requires Usable(n)
    ensures fresh(s) && s.Valid() && s.derive == ScenarioDerivations(n.fiz) && s.cache == Some(map[])
    ensures s.layers == [map[], InitialTable(n)] && s.prev == Some([map[]])
    ensures s.accessors == InitialAccessors(n) && s.calls == multiset{}
  {
    if viaConstructor {
      s := ConstructedStore(n);
    } else {
      s := DefinedStore(n);
    }
  }

  /** The initial literals and the derivation read as defined. */
  method ReadInitialState(n: PropertyNames, viaConstructor: bool) returns (foo: Read, fiz: Read, custom: Read)
    requires Usable(n)
    ensures foo == Got(Str("bar")) && fiz == Got(Num(222.0)) && custom == Got(Num(444.0))
  {
    var s := InitialStore(n, viaConstructor);
    LookupShortChains(map[], InitialTable(n), map[], map[], n.foo);
    LookupShortChains(map[], InitialTable(n), map[], map[], n.fiz);
    DerivationsAt(n.fiz, s.layers, 222.0);
    foo := s.Get(n.foo);
    assert foo == Got(Str("bar"));
    fiz := s.Get(n.fiz);
    assert fiz == Got(Num(222.0));
    custom := s.Get(n.customGetter);
  }

  /** The layer the changing-properties scenario defines. */
  function ChangeTop(n: PropertyNames): Layer {
    map[n.foo := Str("buz"), n.newCustomGetter := Func(NewCustomGetter)]
  }

  /** The initial store after `foo` is overridden and `newCustomGetter` added. */
  method ChangedStore(n: PropertyNames, viaConstructor: bool) returns (s: StateDefinition)
    requires Usable(n)
    ensures fresh(s) && s.Valid() && s.derive == ScenarioDerivations(n.fiz) && s.cache == Some(map[])
    ensures s.layers == [map[], InitialTable(n), ChangeTop(n)]
    ensures s.accessors == InitialAccessors(n) + AccessorsOf(ChangeTop(n))
    ensures s.accessors[n.foo] == LiteralLookup && s.accessors[n.customGetter] == Bound(CustomGetter)
  {
    s := InitialStore(n, viaConstructor);
    var defs := [(n.foo, Str("buz")), (n.newCustomGetter, Func(NewCustomGetter))];
    TwoEntries(defs);
    DefineClean(s, defs, ChangeTop(n));
  }

  /** A later layer overrides `foo`; untouched names and the derivation read as before. */
  method ChangeProperties(n: PropertyNames, viaConstructor: bool) returns (foo: Read, fiz: Read, custom: Read)
    requires Usable(n)
    ensures foo == Got(Str("buz")) && fiz == Got(Num(222.0)) && custom == Got(Num(444.0))
  {
    var s := ChangedStore(n, viaConstructor);
    LookupShortChains(map[], InitialTable(n), ChangeTop(n), map[], n.foo);
    LookupShortChains(map[], InitialTable(n), ChangeTop(n), map[], n.fiz);
    DerivationsAt(n.fiz, s.layers, 222.0);
    foo := s.Get(n.foo);
    assert foo == Got(Str("buz"));
    fiz := s.Get(n.fiz);
    assert fiz == Got(Num(222.0));
    custom := s.Get(n.customGetter);
  }

  /** The adding scenario first defines `hello` and reads it. */
  method HelloOnce(n: PropertyNames, viaConstructor: bool) returns (s: StateDefinition, first: Read)
    requires Usable(n)
    ensures first == Got(Str("world"))
    ensures fresh(s) && s.Valid() && s.derive == ScenarioDerivations(n.fiz)
    ensures s.layers == [map[], InitialTable(n), map[n.hello := Str("world")]]
    ensures s.accessors == InitialAccessors(n) + map[n.hello := LiteralLookup]
  {
    s := InitialStore(n, viaConstructor);
    var world := map[n.hello := Str("world")];
    OneEntry([(n.hello, Str("world"))]);
    LookupShortChains(map[], InitialTable(n), world, map[], n.hello);
    DefineClean(s, [(n.hello, Str("world"))], world);
    first := s.Get(n.hello);
  }

  /** Then it defines `hello` again over the first definition and reads it. */
  method HelloAgain(s: StateDefinition, n: PropertyNames) returns (second: Read)
    requires Usable(n) && s.Valid() && s.derive == ScenarioDerivations(n.fiz)
    requires s.layers == [map[], InitialTable(n), map[n.hello := Str("world")]]
    requires s.accessors == InitialAccessors(n) + map[n.hello := LiteralLookup]
    modifies s`layers, s`prev, s`accessors, s`cache, s`calls
    ensures second == Got(Str("dlrow"))
    ensures s.Valid() && s.derive == ScenarioDerivations(n.fiz)
    ensures s.layers == [map[], InitialTable(n), map[n.hello := Str("world")], map[n.hello := Str("dlrow")]]
    ensures s.prev == Some([map[], InitialTable(n), map[n.hello := Str("world")]])
    ensures s.accessors == InitialAccessors(n) + map[n.hello := LiteralLookup] + map[n.hello := LiteralLookup]
  {
    var world := map[n.hello := Str("world")];
    var dlrow := map[n.hello := Str("dlrow")];
    OneEntry([(n.hello, Str("dlrow"))]);
    LookupShortChains(map[], InitialTable(n), world, dlrow, n.hello);
    DefineClean(s, [(n.hello, Str("dlrow"))], dlrow);
    second := s.Get(n.hello);
  }

  /** Two layers define `hello`; one `revert` goes back exactly one of them. */
  method RevertOneLevel(n: PropertyNames, viaConstructor: bool) returns (first: Read, second: Read, reverted: Read)
    requires Usable(n)
    ensures first == Got(Str("world")) && second == Got(Str("dlrow")) && reverted == Got(Str("world"))
  {
    var s;
    s, first := HelloOnce(n, viaConstructor);
    second := HelloAgain(s, n);
    var world := map[n.hello := Str("world")];
    LookupShortChains(map[], InitialTable(n), world, map[], n.hello);
    PrunedAt(s.accessors, map[n.hello := Str("dlrow")], [map[], InitialTable(n), world], n.hello);
    s.Revert();
    reverted := s.Get(n.hello);
  }

  /** The layer the reverting scenario defines. */
  function RestoreTop(n: PropertyNames): Layer {
    map[n.hello := Str("world"), n.foo := Str("bop"), n.fiz := Num(321.0)]
  }

  /** The getters after the reverting scenario's `define`. */
  function RestoreAccessors(n: PropertyNames): map<string, Accessor> {
    InitialAccessors(n) + map[n.hello := LiteralLookup, n.foo := LiteralLookup, n.fiz := LiteralLookup]
  }

  /** The reverting scenario starts by reading `hello`, which is not defined, `foo` and `customGetter`. */
  method ReadBeforeRestore(n: PropertyNames, viaConstructor: bool)
    returns (s: StateDefinition, hello: Read, foo: Read, custom: Read)
    requires Usable(n)
    ensures hello == Got(Undefined) && foo == Got(Str("bar")) && custom == Got(Num(444.0))
    ensures fresh(s) && s.Valid() && s.derive == ScenarioDerivations(n.fiz)
    ensures s.layers == [map[], InitialTable(n)] && s.accessors == InitialAccessors(n)
  {
    s := InitialStore(n, viaConstructor);
    LookupShortChains(map[], InitialTable(n), map[], map[], n.foo);
    LookupShortChains(map[], InitialTable(n), map[], map[], n.fiz);
    DerivationsAt(n.fiz, s.layers, 222.0);
    hello := s.Get(n.hello);
    assert hello == Got(Undefined);
    foo := s.Get(n.foo);
    assert foo == Got(Str("bar"));
    custom := s.Get(n.customGetter);
  }

  /** Then it defines `hello`, `foo` and `fiz`. */
  method DefineRestoreTop(s: StateDefinition, n: PropertyNames)
    requires Usable(n) && s.Valid()
    requires s.layers == [map[], InitialTable(n)] && s.accessors == InitialAccessors(n)
    modifies s`layers, s`prev, s`accessors, s`cache
    ensures s.Valid() && s.cache == Some(map[])
    ensures s.layers == [map[], InitialTable(n), RestoreTop(n)] && s.prev == Some([map[], InitialTable(n)])
    ensures s.accessors == RestoreAccessors(n)
  {
    var defs := [(n.hello, Str("world")), (n.foo, Str("bop")), (n.fiz, Num(321.0))];
    ThreeEntries(defs);
    DefineClean(s, defs, RestoreTop(n));
  }

  /** ... reads them through the new layer ... */
  method ReadRestored(s: StateDefinition, n: PropertyNames) returns (hello: Read, foo: Read, custom: Read)
    requires Usable(n) && s.Valid() && s.derive == ScenarioDerivations(n.fiz) && s.cache == Some(map[])
    requires s.layers == [map[], InitialTable(n), RestoreTop(n)]
    requires n.hello in s.accessors && s.accessors[n.hello] == LiteralLookup
    requires n.foo in s.accessors && s.accessors[n.foo] == LiteralLookup
    requires n.customGetter in s.accessors && s.accessors[n.customGetter] == Bound(CustomGetter)
    modifies s`cache, s`calls
    ensures hello == Got(Str("world")) && foo == Got(Str("bop")) && custom == Got(Num(642.0))
  {
    LookupShortChains(map[], InitialTable(n), RestoreTop(n), map[], n.fiz);
    DerivationsAt(n.fiz, s.layers, 321.0);
    LookupShortChains(map[], InitialTable(n), RestoreTop(n), map[], n.hello);
    hello := s.Get(n.hello);
    assert hello == Got(Str("world"));
    foo := s.Get(n.foo);
    assert foo == Got(Str("bop"));
    custom := s.Get(n.customGetter);
  }

  /** ... then reverts, which drops the getter of `hello` ... */
  method RevertRestoreTop(s: StateDefinition, n: PropertyNames)
    requires Usable(n) && s.Valid()
    requires s.layers == [map[], InitialTable(n), RestoreTop(n)] && s.prev == Some([map[], InitialTable(n)])
    requires s.accessors == RestoreAccessors(n)
    modifies s`layers, s`prev, s`accessors, s`cache
    ensures s.Valid() && s.cache == Some(map[]) && s.layers == [map[], InitialTable(n)]
    ensures n.hello !in s.accessors
    ensures n.foo in s.accessors && s.accessors[n.foo] == LiteralLookup
    ensures n.customGetter in s.accessors && s.accessors[n.customGetter] == Bound(CustomGetter)
  {
    PrunedAt(s.accessors, RestoreTop(n), [map[], InitialTable(n)], n.hello);
    PrunedAt(s.accessors, RestoreTop(n), [map[], InitialTable(n)], n.foo);
    PrunedAt(s.accessors, RestoreTop(n), [map[], InitialTable(n)], n.customGetter);
    LookupShortChains(map[], InitialTable(n), map[], map[], n.hello);
    s.Revert();
  }

  /** ... and reads the three names again. */
  method ReadReverted(s: StateDefinition, n: PropertyNames) returns (hello: Read, foo: Read, custom: Read)
    requires Usable(n) && s.Valid() && s.derive == ScenarioDerivations(n.fiz)
    requires s.cache == Some(map[]) && s.layers == [map[], InitialTable(n)]
    requires n.hello !in s.accessors
    requires n.foo in s.accessors && s.accessors[n.foo] == LiteralLookup
    requires n.customGetter in s.accessors && s.accessors[n.customGetter] == Bound(CustomGetter)
    modifies s`cache, s`calls
    ensures hello == Got(Undefined) && foo == Got(Str("bar")) && custom == Got(Num(444.0))
  {
    LookupShortChains(map[], InitialTable(n), map[], map[], n.foo);
    LookupShortChains(map[], InitialTable(n), map[], map[], n.fiz);
    DerivationsAt(n.fiz, s.layers, 222.0);
    hello := s.Get(n.hello);
    assert hello == Got(Undefined);
    foo := s.Get(n.foo);
    assert foo == Got(Str("bar"));
    custom := s.Get(n.customGetter);
  }

  /**
   * Overriding `fiz` changes what the derivation computes; `revert` deletes
   * the getter of `hello`, which only the discarded layer had, and the
   * earlier values read again.
   */
  method RevertRestores(n: PropertyNames, viaConstructor: bool) returns (values: seq<Read>)
    requires Usable(n)
    ensures values == [Got(Undefined), Got(Str("bar")), Got(Num(444.0)), Got(Str("world")), Got(Str("bop")), Got(Num(642.0)),
                       Got(Undefined), Got(Str("bar")), Got(Num(444.0))]
  {
    var s, hello0, foo0, custom0 := ReadBeforeRestore(n, viaConstructor);
    DefineRestoreTop(s, n);
    var hello1, foo1, custom1 := ReadRestored(s, n);
    RevertRestoreTop(s, n);
    var hello2, foo2, custom2 := ReadReverted(s, n);
    values := [hello0, foo0, custom0, hello1, foo1, custom1, hello2, foo2, custom2];
  }

  /** Each of the three bookkeeping names is refused. */
  method ReservedNamesRefused(n: PropertyNames, viaConstructor: bool) returns (o1: Outcome, o2: Outcome, o3: Outcome)
    requires Usable(n)
    ensures o1 == ReservedNameError("_table")
    ensures o2 == ReservedNameError("_oldTable")
    ensures o3 == ReservedNameError("_values")
  {
    var s := InitialStore(n, viaConstructor);
    o1 := s.Define([("_table", Str("myTable"))]);
    o2 := s.Define([("_oldTable", Str("myOldTable"))]);
    o3 := s.Define([("_values", Str("myValuesProperty"))]);
  }

  /** The getters of the caching scenario: the initial ones and `newGetter`. */
  function CachingAccessors(n: PropertyNames): map<string, Accessor> {
    InitialAccessors(n) + map[n.newGetter := Bound(NewGetter)]
  }

  /** The caching scenario defines `newGetter` ... */
  method CachingStore(n: PropertyNames, viaConstructor: bool) returns (s: StateDefinition)
    requires Usable(n)
    ensures fresh(s) && s.Valid() && s.derive == ScenarioDerivations(n.fiz) && s.calls == multiset{}
    ensures s.cache == Some(map[]) && s.layers == [map[], InitialTable(n), map[n.newGetter := Func(NewGetter)]]
    ensures s.accessors == CachingAccessors(n)
  {
    s := InitialStore(n, viaConstructor);
    OneEntry([(n.newGetter, Func(NewGetter))]);
    DefineClean(s, [(n.newGetter, Func(NewGetter))], map[n.newGetter := Func(NewGetter)]);
  }

  /** ... reads it twice, which calls the derivation once ... */
  method CacheFirstGeneration(s: StateDefinition, n: PropertyNames) returns (a: Read, b: Read)
    requires Usable(n) && s.Valid() && s.derive == ScenarioDerivations(n.fiz) && s.calls[NewGetter] == 0
    requires s.cache == Some(map[]) && s.layers == [map[], InitialTable(n), map[n.newGetter := Func(NewGetter)]]
    requires s.accessors == CachingAccessors(n)
    modifies s`cache, s`calls
    ensures a == Got(Num(111.0)) && b == Got(Num(111.0))
    ensures s.calls[NewGetter] == 1
  {
    LookupShortChains(map[], InitialTable(n), map[n.newGetter := Func(NewGetter)], map[], n.fiz);
    DerivationsAt(n.fiz, s.layers, 222.0);
    a := s.Get(n.newGetter);
    assert a == Got(Num(111.0)) && s.calls[NewGetter] == 1;
    b := s.Get(n.newGetter);
  }

  /** ... overrides `fiz` ... */
  method CachingOverride(s: StateDefinition, n: PropertyNames)
    requires Usable(n) && s.Valid()
    requires s.layers == [map[], InitialTable(n), map[n.newGetter := Func(NewGetter)]]
    requires s.accessors == CachingAccessors(n)
    modifies s`layers, s`prev, s`accessors, s`cache
    ensures s.Valid() && s.cache == Some(map[])
    ensures s.layers == [map[], InitialTable(n), map[n.newGetter := Func(NewGetter)], map[n.fiz := Num(50.0)]]
    ensures s.prev == Some([map[], InitialTable(n), map[n.newGetter := Func(NewGetter)]])
    ensures s.accessors == CachingAccessors(n) + map[n.fiz := LiteralLookup]
  {
    OneEntry([(n.fiz, Num(50.0))]);
    DefineClean(s, [(n.fiz, Num(50.0))], map[n.fiz := Num(50.0)]);
  }

  /** ... reads `newGetter` twice, which calls the derivation once more ... */
  method CacheSecondGeneration(s: StateDefinition, n: PropertyNames) returns (c: Read, d: Read)
    requires Usable(n) && s.Valid() && s.derive == ScenarioDerivations(n.fiz) && s.calls[NewGetter] == 1
    requires s.cache == Some(map[])
    requires s.layers == [map[], InitialTable(n), map[n.newGetter := Func(NewGetter)], map[n.fiz := Num(50.0)]]
    requires s.accessors == CachingAccessors(n) + map[n.fiz := LiteralLookup]
    modifies s`cache, s`calls
    ensures c == Got(Num(25.0)) && d == Got(Num(25.0))
    ensures s.calls[NewGetter] == 2
  {
    LookupShortChains(map[], InitialTable(n), map[n.newGetter := Func(NewGetter)], map[n.fiz := Num(50.0)], n.fiz);
    DerivationsAt(n.fiz, s.layers, 50.0);
    c := s.Get(n.newGetter);
    assert c == Got(Num(25.0)) && s.calls[NewGetter] == 2;
    d := s.Get(n.newGetter);
  }

  /** ... then reverts, which keeps the getter of `newGetter` and empties the cache ... */
  method CachingRevert(s: StateDefinition, n: PropertyNames)
    requires Usable(n) && s.Valid()
    requires s.layers == [map[], InitialTable(n), map[n.newGetter := Func(NewGetter)], map[n.fiz := Num(50.0)]]
    requires s.prev == Some([map[], InitialTable(n), map[n.newGetter := Func(NewGetter)]])
    requires s.accessors == CachingAccessors(n) + map[n.fiz := LiteralLookup]
    modifies s`layers, s`prev, s`accessors, s`cache
    ensures s.Valid() && s.cache == Some(map[]) && s.layers == [map[], InitialTable(n), map[n.newGetter := Func(NewGetter)]]
    ensures n.newGetter in s.accessors && s.accessors[n.newGetter] == Bound(NewGetter)
  {
    var getter := map[n.newGetter := Func(NewGetter)];
    LookupShortChains(map[], InitialTable(n), getter, map[], n.newGetter);
    PrunedAt(s.accessors, map[n.fiz := Num(50.0)], [map[], InitialTable(n), getter], n.newGetter);
    s.Revert();
  }

  /** ... and reads `newGetter` three times, which calls the derivation once more. */
  method CacheThirdGeneration(s: StateDefinition, n: PropertyNames) returns (e: Read, f: Read, g: Read)
    requires Usable(n) && s.Valid() && s.derive == ScenarioDerivations(n.fiz) && s.calls[NewGetter] == 2
    requires s.cache == Some(map[]) && s.layers == [map[], InitialTable(n), map[n.newGetter := Func(NewGetter)]]
    requires n.newGetter in s.accessors && s.accessors[n.newGetter] == Bound(NewGetter)
    modifies s`cache, s`calls
    ensures e == Got(Num(111.0)) && f == Got(Num(111.0)) && g == Got(Num(111.0))
    ensures s.calls[NewGetter] == 3
  {
    LookupShortChains(map[], InitialTable(n), map[n.newGetter := Func(NewGetter)], map[], n.fiz);
    DerivationsAt(n.fiz, s.layers, 222.0);
    e := s.Get(n.newGetter);
    assert e == Got(Num(111.0)) && s.calls[NewGetter] == 3;
    f := s.Get(n.newGetter);
    assert f == Got(Num(111.0)) && s.calls[NewGetter] == 3;
    g := s.Get(n.newGetter);
  }

  /**
   * A derivation with a truthy result runs once per `define`/`revert`
   * generation however often it is read: seven reads, three calls.
   */
  method CachedUntilDefineOrRevert(n: PropertyNames, viaConstructor: bool)
    returns (results: seq<Read>, ghost derivationCalls: nat)
    requires Usable(n)
    ensures results == [Got(Num(111.0)), Got(Num(111.0)), Got(Num(25.0)), Got(Num(25.0)), Got(Num(111.0)), Got(Num(111.0)), Got(Num(111.0))]
    ensures derivationCalls == 3
  {
    var s := CachingStore(n, viaConstructor);
    var a, b := CacheFirstGeneration(s, n);
    CachingOverride(s, n);
    var c, d := CacheSecondGeneration(s, n);
    CachingRevert(s, n);
    var e, f, g := CacheThirdGeneration(s, n);
    results := [a, b, c, d, e, f, g];
    derivationCalls := s.calls[NewGetter];
  }

  /** The first half of the refused-define scenario: `foo` read and cached, then the refused `define`. */
  method RefusedDefine(n: PropertyNames, viaConstructor: bool) returns (s: StateDefinition, outcome: Outcome)
    requires Usable(n)
    ensures outcome == ReservedNameError("_values")
    ensures fresh(s) && s.Valid() && s.derive == ScenarioDerivations(n.fiz)
    ensures Memoized(s.cache, n.foo) && s.cache.value[n.foo] == Str("bar")
    ensures s.layers == [map[], InitialTable(n), map[n.foo := Str("x"), "_values" := Num(1.0)]]
    ensures s.prev == Some([map[], InitialTable(n)]) && s.accessors == InitialAccessors(n)
  {
    s := InitialStore(n, viaConstructor);
    LookupShortChains(map[], InitialTable(n), map[], map[], n.foo);
    var before := s.Get(n.foo);
    var defs := [(n.foo, Str("x")), ("_values", Num(1.0))];
    TwoEntryLayer(defs);
    OneEntry(defs[..1]);
    outcome := s.Define(defs);
  }

  /**
   * A refused `define` is not all-or-nothing: the getter of `foo`, listed
   * before the reserved name, is reinstalled and the new layer is in place,
   * but the cache is not emptied, so `foo` still reads its stale cached
   * value; the next `revert` empties the cache.
   */
  method RefusedDefineKeepsStaleCache(n: PropertyNames, viaConstructor: bool)
    returns (outcome: Outcome, cached: Read, inTable: Value, ghost cacheAfterRevert: Option<map<string, Value>>, afterRevert: Read)
    requires Usable(n)
    ensures outcome == ReservedNameError("_values")
    ensures cached == Got(Str("bar")) && inTable == Str("x") && afterRevert == Got(Str("bar"))
    ensures cacheAfterRevert == Some(map[])
  {
    var s;
    s, outcome := RefusedDefine(n, viaConstructor);
    var top := map[n.foo := Str("x"), "_values" := Num(1.0)];
    cached := s.Get(n.foo);
    LookupShortChains(map[], InitialTable(n), top, map[], n.foo);
    inTable := Resolve(s.layers, n.foo);
    PrunedAt(s.accessors, top, [map[], InitialTable(n)], n.foo);
    s.Revert();
    cacheAfterRevert := s.cache;
    afterRevert := s.Get(n.foo);
  }

  /**
   * A store made empty whose first `define` is refused after an ordinary
   * name: the table holds the name and its getter is installed, but
   * `_values` was never created, so reading the name throws.
   */
  method RefusedFirstDefine(n: PropertyNames) returns (outcome: Outcome, inTable: Value, read: Read)
    requires Usable(n)
    ensures outcome == ReservedNameError("_table") && inTable == Num(1.0) && read == ValuesMissing
  {
    var s := new StateDefinition(ScenarioDerivations(n.fiz), None);
    var defs := [(n.fiz, Num(1.0)), ("_table", Num(2.0))];
    TwoEntryLayer(defs);
    OneEntry(defs[..1]);
    outcome := s.Define(defs);
    LookupShortChains(map[], LayerOf(defs), map[], map[], n.fiz);
    inTable := Resolve(s.layers, n.fiz);
    read := s.Get(n.fiz);
  }

  /**
   * The first half of the rebinding scenario: `customGetter` is redefined
   * as `newGetter`'s function, then the definition is reverted.
   */
  method RebindThenRevert(n: PropertyNames, viaConstructor: bool) returns (s: StateDefinition)
    requires Usable(n)
    ensures fresh(s) && s.Valid() && s.derive == ScenarioDerivations(n.fiz)
    ensures s.cache == Some(map[]) && s.layers == [map[], InitialTable(n)]
    ensures n.customGetter in s.accessors && s.accessors[n.customGetter] == Bound(NewGetter)
  {
    s := InitialStore(n, viaConstructor);
    var top := map[n.customGetter := Func(NewGetter)];
    OneEntry([(n.customGetter, Func(NewGetter))]);
    DefineClean(s, [(n.customGetter, Func(NewGetter))], top);
    LookupShortChains(map[], InitialTable(n), map[], map[], n.customGetter);
    PrunedAt(s.accessors, top, [map[], InitialTable(n)], n.customGetter);
    s.Revert();
  }

  /**
   * `revert` restores the table but not a getter that `define` replaced:
   * after redefining `customGetter` and reverting, the table again holds the
   * original function, yet a read still calls the newer one, `fiz / 2`
   * instead of `fiz * 2`.
   */
  method RevertKeepsNewerDerivation(n: PropertyNames, viaConstructor: bool) returns (inTable: Value, read: Read)
    requires Usable(n)
    ensures inTable == Func(CustomGetter) && read == Got(Num(111.0))
  {
    var s := RebindThenRevert(n, viaConstructor);
    LookupShortChains(map[], InitialTable(n), map[], map[], n.customGetter);
    LookupShortChains(map[], InitialTable(n), map[], map[], n.fiz);
    DerivationsAt(n.fiz, s.layers, 222.0);
    inTable := Resolve(s.layers, n.customGetter);
    read := s.Get(n.customGetter);
  }
}
