/**
 * `createTransformer(name, initialState, actionTransforms)`: a record holding
 * the scope name, the initial state, an `actions` object that `actionCreator`
 * fills in place, and an observable of tagged values.
 *
 * `actionTransforms` is a callback the model cannot see. It is represented by
 * what it does: the names it passes to `actionCreator` while it runs, in
 * order, and the values its returned observable delivers, in order.
 */
module Transformers {
  import opened Streams
  import opened Subjects

  /**
   * The transformer's observable: `Observable.of(initialState)` merged with
   * the callback's stream and tagged. The first element carries the raw
   * initial state (not a function of the previous state); the delivered
   * values follow in order; everything is tagged with `name`.
   */
  function Seeded<X>(name: string, initialState: X, delivered: seq<X>): (r: seq<Pair<X>>)
    ensures |r| == |delivered| + 1
    ensures forall i :: 0 <= i < |r| ==> r[i].scope == name
    ensures r[0].value == initialState
    ensures forall i :: 0 <= i < |delivered| ==> r[i + 1].value == delivered[i]
  {
    Tag(name, [initialState] + delivered)
  }

  /** After its head, the observable is exactly the callback's stream, tagged. */
  lemma SeededTail<X>(name: string, initialState: X, delivered: seq<X>)
    ensures Seeded(name, initialState, delivered) == [Pair(name, initialState)] + Tag(name, delivered)
  {
  }

  class Transformer<X, V> {
    const name: string
    const initialState: X
    /** The `actions` object; `actionCreator` mutates this same object. */
    const actions: Registry<V>
    const observable: seq<Pair<X>>
    /** Every name passed to `actionCreator` so far, oldest first. */
    ghost var calls: seq<string>

    /** The keys of `actions` are exactly the names ever passed to `actionCreator`. */
    ghost predicate Valid()
      reads this, actions
    {
      actions.entries.Keys == Names(calls)
    }

    /**
     * Builds the record: `name` and `initialState` are the arguments, the
     * callback's registrations have gone into `actions` in order, and the
     * observable is the seeded, tagged stream.
     */
    constructor (name: string, initialState: X, registrations: seq<string>, delivered: seq<X>)
      ensures Valid() && fresh(actions)
      ensures this.name == name && this.initialState == initialState
      ensures calls == registrations
      ensures forall a :: a in actions.entries ==> fresh(actions.entries[a]) && actions.entries[a].log == []
      ensures observable == Seeded(name, initialState, delivered)
    {
      this.name := name;
      this.initialState := initialState;
      actions := new Registry();
      observable := Seeded(name, initialState, delivered);
      calls := [];
      new;
      for i := 0 to |registrations|
        invariant Valid() && calls == registrations[..i]
        invariant forall a :: a in actions.entries ==> fresh(actions.entries[a]) && actions.entries[a].log == []
      {
        ActionCreator(registrations[i]);
        assert registrations[..i + 1] == registrations[..i] + [registrations[i]];
      }
      assert registrations[..|registrations|] == registrations;
    }

    /**
     * `actionCreator(action)`: stores a new Subject under `action` in the
     * very `actions` object the record exposes, replacing any earlier one,
     * leaves every other entry as it was, and returns nothing.
     */
    method ActionCreator(action: string)
      requires Valid()
      modifies this, actions
      ensures Valid() && calls == old(calls) + [action]
      ensures actions.entries.Keys == old(actions.entries).Keys + {action}
      ensures fresh(actions.entries[action]) && actions.entries[action].log == []
      ensures forall a :: a in old(actions.entries) && a != action ==> actions.entries[a] == old(actions.entries)[a]
    {
      actions.Register(action);
      calls := calls + [action];
      assert Names(calls) == Names(old(calls)) + {action} by {
        forall a | a in Names(calls) ensures a in Names(old(calls)) + {action} {
          var i :| 0 <= i < |calls| && calls[i] == a;
          if i < |old(calls)| { assert old(calls)[i] == a; }
        }
        forall a | a in Names(old(calls)) ensures a in Names(calls) {
          var i :| 0 <= i < |old(calls)| && old(calls)[i] == a;
          assert calls[i] == a;
        }
        assert calls[|calls| - 1] == action;
      }
    }
  }
}
