/**
 * The pure core of `createContainer` and its helpers: the `scan` accumulator
 * that folds tagged transforms into the aggregate state, `createReducer`,
 * `createActions`, and the `$actions` surface that forwards calls to Subjects.
 *
 * The aggregate state is a map from scope name to that scope's value. A
 * transform maps the scope's current value, `None` when the key is absent
 * (JavaScript `undefined`), to its new value.
 */
module Container {
  import opened Wrappers
  import opened Streams
  import opened Subjects

  type Transform<!S> = Option<S> -> S

  /** An element `[scope, reducer]` of the merged input of `scan`. */
  type Update<!S> = Pair<Transform<S>>

  /** `state[scope]`: `None` when the aggregate has no such key. */
  function Get<S>(state: map<string, S>, scope: string): Option<S>
  {
    if scope in state then Some(state[scope]) else None
  }

  /** The set of scopes that a sequence of updates names. */
  function Scopes<S>(us: seq<Update<S>>): set<string>
  {
    set i | 0 <= i < |us| :: us[i].scope
  }

  /**
   * One accumulator step, `({ ...state, [scope]: reducer(state[scope]) })`:
   * the entry at `scope` becomes the reducer applied to its previous value
   * (or to `None` when absent), every other entry is copied unchanged, and
   * the key set only gains `scope`.
   */
  function Step<S>(state: map<string, S>, u: Update<S>): (r: map<string, S>)
    ensures r.Keys == state.Keys + {u.scope}
    ensures r[u.scope] == u.value(Get(state, u.scope))
    ensures forall k :: k in state && k != u.scope ==> r[k] == state[k]
  {
    state[u.scope := u.value(Get(state, u.scope))]
  }

  /**
   * The left fold of the updates over `seed`, in delivery order. Its key set
   * is the seed's keys plus every scope named: no update removes a key.
   */
  function Fold<S>(seed: map<string, S>, us: seq<Update<S>>): (r: map<string, S>)
    ensures r.Keys == seed.Keys + Scopes(us)
    decreases us
  {
    if us == [] then seed
    else
      assert Scopes(us) == {us[0].scope} + Scopes(us[1..]) by {
        forall k | k in Scopes(us) ensures k in {us[0].scope} + Scopes(us[1..]) {
          var i :| 0 <= i < |us| && us[i].scope == k;
          if i > 0 { assert us[1..][i - 1] == us[i]; }
        }
        forall k | k in Scopes(us[1..]) ensures k in Scopes(us) {
          var i :| 0 <= i < |us[1..]| && us[1..][i].scope == k;
          assert us[i + 1] == us[1..][i];
        }
      }
      Fold(Step(seed, us[0]), us[1..])
  }

  /**
   * What `scan` without a seed emits on the input `first, rest...`: the first
   * value unchanged (it becomes the accumulator), then the accumulator after
   * each later value.
   */
  function Emissions<S>(first: map<string, S>, rest: seq<Update<S>>): (r: seq<map<string, S>>)
    ensures |r| == |rest| + 1 && r[0] == first
    decreases rest
  {
    [first] + if rest == [] then [] else Emissions(Step(first, rest[0]), rest[1..])
  }

  /** The `i`-th emission is the fold of the first `i` updates over the seed. */
  lemma {:induction false} EmissionsAreFolds<S>(seed: map<string, S>, us: seq<Update<S>>)
    ensures forall i :: 0 <= i <= |us| ==> Emissions(seed, us)[i] == Fold(seed, us[..i])
    decreases us
  {
    if us != [] {
      var next := Step(seed, us[0]);
      EmissionsAreFolds(next, us[1..]);
      forall i | 0 <= i <= |us| ensures Emissions(seed, us)[i] == Fold(seed, us[..i]) {
        if i == 0 {
          assert us[..0] == [];
        } else {
          assert Emissions(seed, us)[i] == Emissions(next, us[1..])[i - 1];
          assert us[..i][0] == us[0] && us[..i][1..] == us[1..][..i - 1];
        }
      }
    }
  }

  /** The last emission is the fold of every update delivered. */
  lemma LastEmissionIsFold<S>(seed: map<string, S>, us: seq<Update<S>>)
    ensures Emissions(seed, us)[|us|] == Fold(seed, us)
  {
    EmissionsAreFolds(seed, us);
    assert us[..|us|] == us;
  }

  /** Keys only grow along the emitted sequence. */
  lemma KeysOnlyGrow<S>(seed: map<string, S>, us: seq<Update<S>>, i: nat, j: nat)
    requires i <= j <= |us|
    ensures Emissions(seed, us)[i].Keys <= Emissions(seed, us)[j].Keys
  {
    EmissionsAreFolds(seed, us);
    forall k | k in Scopes(us[..i]) ensures k in Scopes(us[..j]) {
      var m :| 0 <= m < i && us[..i][m].scope == k;
      assert us[..j][m] == us[m];
    }
  }

  /** The transforms addressed to `scope`, in delivery order. */
  function TransformsFor<S>(us: seq<Update<S>>, scope: string): seq<Transform<S>>
  {
    if us == [] then []
    else (if us[0].scope == scope then [us[0].value] else []) + TransformsFor(us[1..], scope)
  }

  /** One slice on its own: apply each transform in turn to the slice's value. */
  function ApplyAll<S>(o: Option<S>, fs: seq<Transform<S>>): Option<S>
    decreases fs
  {
    if fs == [] then o else ApplyAll(Some(fs[0](o)), fs[1..])
  }

  /**
   * Every slice of the folded aggregate is the fold, over that slice's own
   * starting value, of exactly the transforms addressed to it, in delivery
   * order; transforms addressed to other scopes have no effect on it.
   */
  lemma {:induction false} FoldPerScope<S>(seed: map<string, S>, us: seq<Update<S>>, scope: string)
    ensures Get(Fold(seed, us), scope) == ApplyAll(Get(seed, scope), TransformsFor(us, scope))
    decreases us
  {
    if us != [] {
      var rest := TransformsFor(us[1..], scope);
      FoldPerScope(Step(seed, us[0]), us[1..], scope);
      if us[0].scope == scope {
        assert TransformsFor(us, scope) == [us[0].value] + rest;
        assert ([us[0].value] + rest)[1..] == rest;
      } else {
        assert TransformsFor(us, scope) == rest;
      }
    }
  }

  /** `() => initialState`: the transform that ignores the previous value. */
  function Constant<S>(initialState: S): Transform<S>
  {
    _ => initialState
  }

  /**
   * `createReducer(name, initialState, reductions)`, with the merged order of
   * the reductions given: every element is tagged with `name`, the first
   * carries a transform returning `initialState` whatever it is given, and
   * the reductions follow in order.
   */
  function CreateReducer<S(!new)>(name: string, initialState: S, reductions: seq<Transform<S>>): (r: seq<Update<S>>)
    ensures |r| == |reductions| + 1
    ensures forall i :: 0 <= i < |r| ==> r[i].scope == name
    ensures forall o :: r[0].value(o) == initialState
    ensures forall i :: 0 <= i < |reductions| ==> r[i + 1].value == reductions[i]
  {
    Tag(name, [Constant(initialState)] + reductions)
  }

  /** After the accumulator processes a reducer's first element the slice holds its initial state. */
  lemma ReducerSeedsSlice<S(!new)>(state: map<string, S>, name: string, initialState: S, reductions: seq<Transform<S>>)
    ensures Step(state, CreateReducer(name, initialState, reductions)[0])[name] == initialState
  {
  }

  /** A stream tagged with one name only addresses that name. */
  lemma {:induction false} TransformsForTag<S>(name: string, fs: seq<Transform<S>>, scope: string)
    ensures TransformsFor(Tag(name, fs), scope) == if scope == name then fs else []
  {
    if fs != [] {
      assert Tag(name, fs)[1..] == Tag(name, fs[1..]);
      TransformsForTag(name, fs[1..], scope);
      if scope == name {
        assert fs == [fs[0]] + fs[1..];
      }
    }
  }

  /**
   * Folding one reducer's output leaves its slice at the reductions applied
   * in order to the initial state, whatever the slice held before, and
   * leaves every other slice untouched.
   */
  lemma ReducerSlice<S(!new)>(seed: map<string, S>, name: string, initialState: S, reductions: seq<Transform<S>>)
    ensures Get(Fold(seed, CreateReducer(name, initialState, reductions)), name) == ApplyAll(Some(initialState), reductions)
    ensures forall other :: other != name ==>
      Get(Fold(seed, CreateReducer(name, initialState, reductions)), other) == Get(seed, other)
  {
    var us := CreateReducer(name, initialState, reductions);
    var fs := [Constant(initialState)] + reductions;
    FoldPerScope(seed, us, name);
    TransformsForTag(name, fs, name);
    assert fs[1..] == reductions;
    forall other | other != name ensures Get(Fold(seed, us), other) == Get(seed, other) {
      FoldPerScope(seed, us, other);
      TransformsForTag(name, fs, other);
    }
  }

  /** `createContainer`'s default `initialState` delivers the empty object. */
  function SeedOrDefault<S>(initialState: Option<map<string, S>>): map<string, S>
  {
    if initialState.Some? then initialState.value else map[]
  }

  /** The function `(...args) => actions[action].next(...args)` stored at `$actions[action]`. */
  datatype Forwarder = Forward(action: string)

  /**
   * The `for (let action in actions)` loop: `$actions` gets exactly the keys
   * of `actions`, each bound to a forwarder for its own name.
   */
  method BindActions<V>(actions: Registry<V>) returns (surface: map<string, Forwarder>)
    ensures surface.Keys == actions.entries.Keys
    ensures forall a :: a in surface ==> surface[a] == Forward(a)
  {
    surface := map[];
    var pending := actions.entries.Keys;
    while pending != {}
      invariant pending <= actions.entries.Keys
      invariant surface.Keys == actions.entries.Keys - pending
      invariant forall a :: a in surface ==> surface[a] == Forward(a)
      decreases pending
    {
      var a :| a in pending;
      surface := surface[a := Forward(a)];
      pending := pending - {a};
    }
  }

  /**
   * `createContainer(actions, reducers, initialState)`, with the merged
   * delivery order of the reducers given: the observable emits the seed (the
   * empty object by default) and then, after each delivered update, the
   * left fold of the updates so far; `$actions` mirrors the keys of `actions`.
   */
  method CreateContainer<S, V>(actions: Registry<V>, delivered: seq<Update<S>>, initialState: Option<map<string, S>>)
    returns (observable: seq<map<string, S>>, surface: map<string, Forwarder>)
    ensures |observable| == |delivered| + 1
    ensures observable[0] == if initialState.Some? then initialState.value else map[]
    ensures forall i :: 0 <= i <= |delivered| ==> observable[i] == Fold(observable[0], delivered[..i])
    ensures surface.Keys == actions.entries.Keys
    ensures forall a :: a in surface ==> surface[a] == Forward(a)
  {
    var seed := SeedOrDefault(initialState);
    observable := Emissions(seed, delivered);
    EmissionsAreFolds(seed, delivered);
    surface := BindActions(actions);
  }

  /**
   * Calling `$actions[a](x)`: the forwarder reads `actions` at call time and
   * pushes `x` to that Subject only. Calling a name `$actions` lacks, or one
   * whose entry is gone from `actions`, is a TypeError in JavaScript; here it
   * returns false and changes nothing.
   */
  method Dispatch<V>(actions: Registry<V>, surface: map<string, Forwarder>, a: string, x: V) returns (ok: bool)
    modifies if a in surface && surface[a].action in actions.entries then {actions.entries[surface[a].action]} else {}
    ensures ok == (a in surface && surface[a].action in actions.entries)
    ensures actions.entries == old(actions.entries)
    ensures ok ==> actions.entries[surface[a].action].log == old(actions.entries[surface[a].action].log) + [x]
    ensures forall b :: b in actions.entries && (!ok || actions.entries[b] != actions.entries[surface[a].action]) ==>
      actions.entries[b].log == old(actions.entries[b].log)
  {
    ok := a in surface && surface[a].action in actions.entries;
    if ok {
      actions.entries[surface[a].action].Next(x);
    }
  }

  /**
   * `createActions(...names)`: an object whose keys are exactly the given
   * names (a repeated name gives one entry), each bound to its own fresh,
   * empty Subject.
   */
  method CreateActions<V>(names: seq<string>) returns (o: Registry<V>)
    ensures fresh(o)
    ensures o.entries.Keys == Names(names)
    ensures forall a :: a in o.entries ==> fresh(o.entries[a]) && o.entries[a].log == []
    ensures forall a, b :: a in o.entries && b in o.entries && a != b ==> o.entries[a] != o.entries[b]
  {
    o := new Registry();
    for i := 0 to |names|
      invariant o.entries.Keys == Names(names[..i])
      invariant forall a :: a in o.entries ==> fresh(o.entries[a]) && o.entries[a].log == []
      invariant forall a, b :: a in o.entries && b in o.entries && a != b ==> o.entries[a] != o.entries[b]
    {
      o.Register(names[i]);
    }
  }
}
