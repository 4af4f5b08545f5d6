# state-definition in Dafny

A model of `StateDefinition`, the layered property store of the
state-definition package, with proofs about it.

The store keeps its properties in a chain of tables. Each `define` puts a new
table on top of the current one, and that table's prototype is the one below.
The store also gets a shortcut getter for every defined name. A literal's
getter looks the name up through the chain on every evaluation. A function
value's getter calls that function with the store (a *derivation*). Truthy
results are memoized in `_values` until the next `define` or `revert`.
`revert` makes the previous table current again and deletes the getters of
names that only the discarded table had. It remembers one level only.

The model has three modules:

- `Layers` (`layers.dfy`) covers values, tables and lookup.
  - A JavaScript value is the datatype `Value`. A function object is `Func(id)`.
  - A table is a `map<string, Value>`. A table with its prototype chain is a
    `Chain`, a sequence with the bottom first and `_table` last.
  - `Lookup` walks the chain from the top down, as a property read does.
  - `LayerOf` is the table that `Object.assign` fills from a definitions
    object. The object is a sequence of entries in `Object.keys` order.
- `StateDefinitions` (`state_definition.dfy`) holds the class
  `StateDefinition`. Its fields are these:
  - `layers` is `_table`.
  - `prev` is `_oldTable`. It is `None` once `revert` has deleted it.
  - `cache` is `_values`. It is `None` until a `define` completes or a
    `revert` runs, because only those create `_values`.
  - `accessors` holds the installed getters, by name.
  - `derive` holds the code of the derivation functions.
  - `calls` is a ghost count of derivation calls.

  Each method of the source is a method of the class. Each one states its
  whole new state, and `Valid()` is preserved. Beside the class are the
  specification functions (`Installed`, `Pruned`, `Evaluate`) and the
  lemmas that relate the operations.
- `Scenarios` (`scenarios.dfy`) replays the package's own test cases on the
  class. Each case is replayed both through the constructor and through an
  empty constructor followed by `define`. Every case holds for any choice of
  distinct, non-reserved property names.

Where the code and the package's description disagree, the model follows
the code.

- A `define` with a reserved name is not all-or-nothing. By the time the
  error is thrown, the new table is already pushed and filled and
  `_oldTable` is already overwritten. The getters of the names before the
  reserved one are already installed. The cache is not emptied.
  `StateDefinition.Define` states exactly this. `RefusedDefineKeepsStaleCache`
  shows a stale cached value read after the error.
- `revert` does not restore a getter that the reverted `define` replaced.
  A name that the older chain also has keeps its newer getter. A derivation
  therefore stays bound to the newer function (`DefineRevertAccessors`,
  `RevertKeepsNewerDerivation`).
- On a store made without definitions, `_values` does not exist until the
  first `define` completes. If that `define` is refused after an ordinary
  name, the name's getter is installed, and reading it throws a TypeError
  (`ValuesMissing`, `RefusedFirstDefine`).

## Model

| member | source | states |
|---|---|---|
| Layers.LookupNearest | index.js:45 | A read through the chain fails exactly when no table owns the name. Otherwise it yields the entry of a table that owns the name, and no table above that one owns it. |
| Layers.LayerOf | index.js:37 | The table `Object.assign` fills has exactly the names of the definitions object. |
| Layers.LayerOfAt | index.js:37 | In that table, each entry of a definitions object with distinct names holds its own value. |
| Layers.LookupPush | index.js:53 | After a table is put on top, a name it owns reads its entry. Every other name reads as it did through the chain below. |
| Layers.ResolveAfterPush | index.js:26-37 | After `define`'s table is pushed and filled, each defined name resolves to its new value. Every other name resolves as before. |
| StateDefinitions.FirstReserved | index.js:40-43 | The position where the per-key loop throws: every name before it is not reserved, and the name at it is reserved. It is the length of the object when no name is reserved. |
| StateDefinitions.FirstReservedUnique | index.js:40-43 | That position is the only one with these two properties. |
| StateDefinitions.InstalledStep | index.js:44-48 | Each pass of the per-key loop replaces exactly one name's getter, with the getter for that entry. |
| StateDefinitions.InstalledAt | index.js:44-48 | After the loop has installed the getters of the first `n` entries, each of those names has the getter for its own entry. |
| StateDefinitions.DefineRevertAccessors | index.js:67-75 | After `define` then `revert`, every earlier getter is still installed. A newly defined name keeps a getter exactly when the older chain has it, and that getter is the one `define` installed. Every other getter is unchanged. |
| StateDefinitions.StateDefinition.constructor | index.js:9-23 | A fresh store has one empty table and an empty history table. With initial definitions, it has their table on top and one getter per name, and the cache exists and is empty. Without them there is no cache yet. |
| StateDefinitions.StateDefinition.Define | index.js:25-34 | Pushes one table filled from the definitions and remembers the old chain. It installs the getters up to the first reserved name. When no name is reserved, it returns `Ok` and replaces the cache with an empty one. Otherwise it returns the error for that name and leaves the cache as it was, missing or not. |
| StateDefinitions.StateDefinition.SetProps | index.js:36-50 | Writes every entry into the current table. It installs getters one name at a time and throws at the first reserved name. The loop keeps every installed getter resolvable in the chain. |
| StateDefinitions.StateDefinition.AssignEntries | index.js:37 | The current table gains the definitions as own entries. The rest of the chain is unchanged. |
| StateDefinitions.StateDefinition.ExtendTable | index.js:52-65 | A new empty table goes on top, and the history slot holds the chain as it was before. |
| StateDefinitions.StateDefinition.Revert | index.js:67-88 | The remembered chain becomes current, the cache is replaced with an empty one and the history slot is deleted. A getter is deleted exactly when its name is owned by the discarded table and not found in the remembered chain. |
| StateDefinitions.StateDefinition.Get | index.js:90-100 | For a user-defined name: a name without a getter reads undefined. A getter throws a TypeError while the cache does not exist. Otherwise a truthy cached result is returned with no call, and a missing or falsy one makes the getter evaluate and cache its result. A literal re-reads the current chain. A function is called, which counts one call. |
| StateDefinitions.DefineThenRevert | index.js:25-88 | `define` then `revert` gives back the earlier chain, with an empty cache and no history. Every earlier getter stays. A newly defined name keeps a getter exactly when the earlier chain has it, and that getter is the one `define` installed. Every other getter is unchanged. |
| StateDefinitions.ReadTwice | index.js:91-99 | Two reads of a name agree, and both throw while the cache does not exist. A truthy result costs at most one evaluation. A falsy one is not memoized, so a derivation is called on both reads. |
| Scenarios.InitialStore | test.js:88-100 | Both ways of building the initial store give the same tables and getters. |
| Scenarios.ReadInitialState | test.js:11-19 | The initial literals read `'bar'` and `222`. The derivation reads `444`. |
| Scenarios.ChangeProperties | test.js:21-30 | After `foo` is overridden, `foo` reads `'buz'`. `fiz` still reads `222` and `customGetter` still reads `444`. |
| Scenarios.RevertOneLevel | index.js:67-88 | Two definitions of `hello` read `'world'` then `'dlrow'`. One `revert` goes back to `'world'`. |
| Scenarios.RevertRestores | test.js:41-57 | Overriding `fiz` makes the derivation read `642`. After `revert`, `hello` is undefined again, `foo` is `'bar'` and the derivation reads `444`. |
| Scenarios.ReservedNamesRefused | test.js:59-63 | Each of `_table`, `_oldTable` and `_values` is refused with an error. |
| Scenarios.CachedUntilDefineOrRevert | test.js:65-85 | Seven reads of `newGetter` give 111, 111, 25, 25, 111, 111 and 111, with three derivation calls. |
| Scenarios.RefusedDefineKeepsStaleCache | index.js:25-34 | After a refused `define`, the table holds the new `foo`, but a read returns the stale cached `'bar'`. The next `revert` leaves an empty cache, and `foo` then reads `'bar'` from the restored chain. |
| Scenarios.RefusedFirstDefine | index.js:90-93 | On a store made without definitions, a first `define` refused after an ordinary name leaves that name in the table with its getter installed, and reading it throws the TypeError because the cache was never created. |
| Scenarios.RevertKeepsNewerDerivation | index.js:67-75 | After a derivation is redefined and reverted, the table again holds the original function, but a read still calls the newer one. |

## Left out

- Module packaging (index.js:103-111) is not modelled. That is the CommonJS, AMD and global registration.
- The jest harness is not modelled. The tests' `expect` calls and `jest.fn` call counter are the scenarios' postconditions and the ghost `calls` count.
- JavaScript property descriptors are not modelled. In the source, `configurable: true` is what lets `_table`, `_oldTable` and `_values` be redefined (index.js:54, 60, 77, 82). It also lets a later `define` replace a getter (index.js:44) and lets `delete` remove a getter or `_oldTable` (index.js:73, 87). `enumerable: false` keeps the bookkeeping properties out of `Object.keys(this)`, and `enumerable: true` puts the getters in it, which is the list `revert` walks. The model keeps the getters in `accessors`, apart from the bookkeeping fields. `Revert` iterates `accessors`, and each field is simply reassigned.
- Names inherited from `Object.prototype` (`toString`, `constructor`, ...) are not modelled, neither in the tables nor in the cache. Every table is a plain map.
- What a derivation computes is a parameter (`derive`), applied to the current chain. In the source a derivation reads the store, so each of its reads goes through a getter and the cache. The model reads the chain directly instead. The two agree only when every name the derivation reads has a literal getter and no cached value that differs from the chain, as in every scenario. A name without a getter reads undefined through the store, and a name whose getter is a kept newer derivation reads that derivation's result. The derivation's own reads also fill `_values` and count as calls of any derivation they reach. `cache` and `calls` record only the outer read.
- StateDefinitions.StateDefinition.Revert: requires a remembered chain, so a second `revert` in a row is not modelled. In the source, that second `revert` throws a TypeError only if a remaining getter's name is an own entry of the current table, because only then does the test at index.js:71-72 evaluate `in` on the deleted `_oldTable`. Otherwise it sets `_table` to undefined (index.js:77-78), and the next `define` throws at `Object.create` (index.js:53). For example, `new StateDefinition({a: 1})` followed by two `revert()` calls and then a `define` throws there.
- StateDefinitions.StateDefinition.constructor: requires initial definitions without reserved names. With one, the exception escapes `new` and no store exists to model.
- StateDefinitions.StateDefinition.Get: reads user-defined names only. The store's own names are not modelled. In the source, reading `_table`, `_oldTable` or `_values` gives the bookkeeping object, and reading `define`, `setProps`, `_extendTable`, `revert`, `_valueGetter` or `constructor` gives the method from `StateDefinition.prototype`. The model reads undefined for them, as for any name without a getter.
- Defining one of the method names is not modelled. The new getter hides the method: a key `_valueGetter` changes what the next key's getter installation calls (index.js:45), and a key `setProps` or `_extendTable` breaks the next `define` (index.js:26-27).
- Numbers are exact reals. NaN, the infinities and floating-point rounding are not modelled.
- The string built by the test's `newCustomGetter` (`'buz 222'`) is not modelled. String formatting of numbers is outside the model, so that derivation reads undefined here.
- StateDefinitions.StateDefinition.Define: takes a definitions object, so `define()` and `define(null)` are not modelled. In the source, `_extendTable` still runs (index.js:26), pushing the new table and overwriting `_oldTable`. `Object.assign` skips the missing argument (index.js:37), and then `Object.keys` throws a TypeError (index.js:40). So `_values` is not reset.
- Definitions objects are sequences of entries with distinct names, in `Object.keys` order. Non-enumerable and symbol-keyed definitions are not modelled.
