/**
 * How the pieces compose: a transformer's observable fed to the container's
 * accumulator, and the usage scenarios the library is built for.
 */
module Composition {
  import opened Wrappers
  import opened Streams
  import opened Container
  import opened Transformers

  /**
   * A transformer's stream used as container input: because its head carries
   * the raw initial state, the accumulator applies that value itself to the
   * slice's previous value; only the delivered transforms follow. So the
   * stream is usable as input only when the initial state is itself a
   * transform, and other slices are untouched.
   */
  lemma SeededInContainer<S>(seed: map<string, S>, name: string, initialState: Transform<S>, delivered: seq<Transform<S>>)
    ensures Get(Fold(seed, Seeded(name, initialState, delivered)), name) ==
            ApplyAll(Some(initialState(Get(seed, name))), delivered)
    ensures forall other :: other != name ==>
      Get(Fold(seed, Seeded(name, initialState, delivered)), other) == Get(seed, other)
  {
    var us := Seeded(name, initialState, delivered);
    var fs := [initialState] + delivered;
    FoldPerScope(seed, us, name);
    TransformsForTag(name, fs, name);
    assert fs[1..] == delivered;
    forall other | other != name ensures Get(Fold(seed, us), other) == Get(seed, other) {
      FoldPerScope(seed, us, other);
      TransformsForTag(name, fs, other);
    }
  }

  /** `state => state + 1`, reading an absent slice as zero. */
  function Increment(o: Option<int>): int
  {
    (if o.Some? then o.value else 0) + 1
  }

  /** `list => [...list, item]`, reading an absent slice as the empty list. */
  function Append(item: string): Transform<seq<string>>
  {
    (o: Option<seq<string>>) => (if o.Some? then o.value else []) + [item]
  }

  /** A counter reducer starting at 0, incremented three times, folds to `{ counter: 3 }`. */
  lemma CounterScenario()
    ensures Fold(map[], CreateReducer("counter", 0, [Increment, Increment, Increment])) == map["counter" := 3]
  {
    var us := CreateReducer("counter", 0, [Increment, Increment, Increment]);
    var fs := [Increment, Increment, Increment];
    ReducerSlice(map[], "counter", 0, fs);
    assert ApplyAll(Some(0), fs) == Some(3) by {
      assert fs[1..][1..][1..] == [];
      assert ApplyAll(Some(0), fs) == ApplyAll(Some(1), fs[1..]);
      assert ApplyAll(Some(1), fs[1..]) == ApplyAll(Some(2), fs[1..][1..]);
      assert ApplyAll(Some(2), fs[1..][1..]) == ApplyAll(Some(3), []);
    }
    assert Scopes(us) == {"counter"} by {
      assert us[0].scope == "counter";
    }
    assert Fold(map[], us).Keys == {"counter"};
  }

  /** A list reducer starting empty, given "x" then "y", folds to `{ list: ["x", "y"] }`. */
  lemma ListScenario()
    ensures Fold(map[], CreateReducer("list", [], [Append("x"), Append("y")])) == map["list" := ["x", "y"]]
  {
    var us := CreateReducer("list", [], [Append("x"), Append("y")]);
    var fs := [Append("x"), Append("y")];
    ReducerSlice(map[], "list", [], fs);
    assert ApplyAll(Some([]), fs) == Some(["x", "y"]) by {
      assert fs[1..][1..] == [];
      assert fs[0](Some([])) == [] + ["x"] == ["x"];
      assert fs[1..][0](Some(["x"])) == ["x"] + ["y"] == ["x", "y"];
      assert ApplyAll(Some([]), fs) == ApplyAll(Some(["x"]), fs[1..]);
      assert ApplyAll(Some(["x"]), fs[1..]) == ApplyAll(Some(["x", "y"]), []);
    }
    assert Scopes(us) == {"list"} by {
      assert us[0].scope == "list";
    }
    assert Fold(map[], us).Keys == {"list"};
  }

  /**
   * Two reducers `a` (initially 1) and `b` (initially 2) delivered in that
   * order: the default seed is emitted first, and each slice appears only
   * when its reducer's first element arrives.
   */
  lemma TwoSlicesScenario()
    ensures Emissions(map[], CreateReducer("a", 1, []) + CreateReducer("b", 2, [])) ==
            [map[], map["a" := 1], map["a" := 1, "b" := 2]]
  {
  }
}
