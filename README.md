# RxSC state container — Dafny model

RxSC is a small reactive state container built on RxJS. Reducer or transformer
streams deliver `[scope, transform]` pairs; `createContainer` merges them with
an initial-state stream and runs a `scan` accumulator that replaces only
`state[scope]` with `transform(state[scope])`, emitting each new aggregate
state. Action Subjects are collected in plain objects (`createActions`, or the
`actions` object a transformer's `actionCreator` fills), and the container
exposes `$actions`, functions that forward each call to the Subject of the
same name.

The model:

- `Streams` — an observable is the finite sequence of values it delivers; `Tag` is `.map(x => [name, x])`.
- `Subjects` — a `Subject` is the log of values pushed with `next`. A `Registry` is a JavaScript object mapping action names to Subjects. `Register` is `o[name] = new Subject()`.
- `Container` — the accumulator step (`Step`), the scan output (`Emissions`), the left fold (`Fold`), the per-scope view (`TransformsFor`, `ApplyAll`), `createReducer`, `createActions`, the `$actions` loop (`BindActions`) and calling an action (`Dispatch`).
- `Transformers` — `createTransformer` as a class. Its `actions` registry is filled in place by `ActionCreator`, and its observable is the seeded, tagged sequence `Seeded`.
- `Composition` — a transformer's stream fed to the accumulator, plus three usage scenarios: a counter, a list, and two slices.

Modelling choices:

- The aggregate state is `map<string, S>`. A transform is a total function `Option<S> -> S`; `None` stands for the `undefined` that `state[scope]` gives when the key is absent.
- Where RxJS merges several observables, the model takes the merged delivery order as an input sequence.
- A `$actions` entry is a closure that captures the action name and the `actions` object. It looks the Subject up only when called. The model keeps that late binding: `Forwarder` holds the name, and `Dispatch` reads the registry at call time. Re-registering a name therefore redirects later calls to the new Subject.
- `actionTransforms` is a callback the model cannot see. It is represented by what it does: the names it registers with `actionCreator`, in order, and the values its returned observable delivers.

Points of the code worth knowing, all modelled as written:

- `createTransformer` emits the raw `initialState` first, not a transform `state => initialState` (src/transformer.js:12). `Seeded` keeps the raw value. `Composition.SeededInContainer` covers the case where that initial value is itself a function: fed to the accumulator, it is applied to the slice's previous value. For any other initial value the accumulator fails; see "## Left out".
- There is no function giving every scope's initial state up front. The seed is `{}` by default (src/index.js:5), and a slice appears only when its reducer's constant first element arrives (`Composition.TwoSlicesScenario`).
- `actionCreator` overwrites on every call (src/transformer.js:7), so the last registration wins (`Subjects.Registry.Register`).

Some helpers model source constructs but state nothing on their own; the rows named here state what they mean:

- `Container.Get` is `state[scope]`, with `None` for `undefined` (src/index.js:10). See the row for `Container.Step`.
- `Container.Constant` is `() => initialState` (src/index.js:60). See the row for `Container.CreateReducer`.
- `Container.SeedOrDefault` is the default `Rx.Observable.of({})` (src/index.js:5). See the row for `Container.CreateContainer`.
- The datatype `Container.Forwarder` is the closure stored in `$actions` (src/index.js:17). See the rows for `Container.BindActions` and `Container.Dispatch`.
- `Container.Scopes` and `Streams.Names` give the set of names in a sequence.
- `Container.TransformsFor` and `Container.ApplyAll` give one slice's own view of the fold. See the row for `Container.FoldPerScope`.

## Model

| member | source | states |
|---|---|---|
| Streams.Tag | src/index.js:62 | every delivered value is tagged `[name, x]`, same length and order, nothing added or dropped |
| Streams.TagAppend | src/transformer.js:12-14 | tagging distributes over concatenation of delivered values |
| Subjects.Subject.constructor | src/index.js:54 | a new Subject has an empty log |
| Subjects.Subject.Next | src/index.js:17 | `next(x)` appends x to that Subject's log and changes nothing else |
| Subjects.Registry.constructor | src/index.js:52 | the object literal `{}` has no entries |
| Subjects.Registry.Register | src/transformer.js:7 | the entry for the name becomes a fresh empty Subject (replacing any old one); keys gain exactly that name; other entries unchanged |
| Container.Step | src/index.js:9-10 | keys become old keys plus `scope`; `scope` maps to the reducer applied to its old value (None if absent); every other key keeps its value |
| Container.Fold | src/index.js:7-10 | the fold's key set is the seed's keys plus every scope delivered; no step removes a key |
| Container.Emissions | src/index.js:7-9 | scan without a seed: one emission per input value, the first being the seed unchanged |
| Container.EmissionsAreFolds | src/index.js:7-10 | the i-th emission equals the left fold of the first i updates over the seed, in delivery order |
| Container.LastEmissionIsFold | src/index.js:7-10 | the latest emission is the fold of every update delivered so far |
| Container.KeysOnlyGrow | src/index.js:10 | along the emitted sequence, key sets only grow |
| Container.FoldPerScope | src/index.js:9-10 | each slice of the folded state is its own starting value folded with exactly the transforms addressed to it, in order |
| Container.CreateReducer | src/index.js:59-63 | every element is tagged with `name`; the first is a transform returning `initialState` for any argument; then the reductions in order |
| Container.ReducerSeedsSlice | src/index.js:60 | after the accumulator processes a reducer's first element, `state[name]` is the initial state |
| Container.TransformsForTag | src/index.js:62 | a stream tagged with one name addresses that name with all its transforms, and no other name |
| Container.ReducerSlice | src/index.js:59-63 | folding a reducer's stream leaves its slice at the reductions applied in order to the initial state, whatever it held before, and no other slice changes |
| Container.BindActions | src/index.js:14-18 | `$actions` has exactly the keys of `actions`, each bound to a forwarder for its own name |
| Container.CreateContainer | src/index.js:4-18 | the observable emits the seed (`{}` by default) and then the running left fold of the delivered updates; `$actions` mirrors the keys of `actions` |
| Container.Dispatch | src/index.js:17 | `$actions[a](x)` pushes x to the Subject `actions` currently holds under that name and to no other Subject; an unknown name fails and changes nothing |
| Container.CreateActions | src/index.js:51-57 | keys are exactly the given names (duplicates collapse); each maps to its own fresh, empty Subject, distinct names to distinct Subjects |
| Transformers.Seeded | src/transformer.js:12-14 | every element is tagged with `name`; the first carries the raw initial state; the delivered values follow in order |
| Transformers.SeededTail | src/transformer.js:12-14 | the observable is `[name, initialState]` followed by the delivered values tagged |
| Transformers.Transformer.constructor | src/transformer.js:4-16 | `name` and `initialState` equal the arguments; the callback's registrations are in `actions`; the observable is `Seeded` |
| Transformers.Transformer.ActionCreator | src/transformer.js:6-8 | the exposed `actions` object gains the name with a fresh Subject (replacing any earlier one), other entries unchanged, nothing returned; keys stay exactly the names ever registered |
| Composition.SeededInContainer | src/transformer.js:12 | when the raw initial value is a function, the accumulator applies it to the slice's previous value, then the delivered transforms; other slices untouched |
| Composition.CounterScenario | src/index.js:59-63 | a counter reducer from 0 incremented three times folds to `{ counter: 3 }` |
| Composition.ListScenario | src/index.js:59-63 | a list reducer from `[]` given "x" then "y" folds to `{ list: ["x", "y"] }` |
| Composition.TwoSlicesScenario | src/index.js:7-10 | with the default seed, two reducers `a` (1) then `b` (2) emit `{}`, `{a: 1}`, `{a: 1, b: 2}` |

## Left out

- `publishReplay(1).refCount()` (src/index.js:11-12). Replaying the latest value to late subscribers and reference-counted teardown are RxJS multicast internals. The model gives the emitted sequence, not who receives it.
- The timing and interleaving of `merge` (src/index.js:8, src/index.js:61, src/transformer.js:13). The merged delivery order is an input.
- The `initialState` stream of `createContainer`: the model assumes it delivers exactly one value, first. Other orders and counts are not modelled.
- The React `connect` component (src/index.js:22-47). It is UI binding.
- Subject internals: subscriber lists, error and completion signals, and the variadic arguments of `next`. A Subject is only the log of its single-argument `next` calls.
- JavaScript object details: inherited properties of `{}` (a scope named like an `Object.prototype` member reads the inherited value, not `undefined`), key order, and coercion of keys to strings.
- Container.Step: does not model the accumulator's error path. At src/index.js:10, `reducer(state[scope])` throws a TypeError when the delivered reducer is not a function, and `scan` then ends the stream with that error. The same happens when a reducer throws. In the model every update carries a total transform, so this path cannot arise.
- Composition.SeededInContainer: covers only an initial state that is itself a transform. A `createTransformer` stream whose `initialState` is a plain value (say `0` or `[]`) fails on its first element in the accumulator, as described for `Container.Step`. `Transformers.Seeded` uses one type for the raw seed and the values that follow it, so that failure is not expressed.
- `Dispatch`: the JavaScript TypeError for an unknown name is modelled as a `false` result, not as an exception.
