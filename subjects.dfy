/**
 * Action channels. A Subject is modelled only by the log of values pushed into
 * it with `next`; a Registry is a plain JavaScript object whose properties map
 * action names to Subjects, filled in place.
 */
module Subjects {

  class Subject<V> {
    /** Every value passed to `next`, oldest first. */
    var log: seq<V>

    /** `new Rx.Subject()`: nothing has been pushed yet. */
    constructor ()
      ensures log == []
    {
      log := [];
    }

    /** `subject.next(x)`: appends `x` to the log and changes nothing else. */
    method Next(x: V)
      modifies this
      ensures log == old(log) + [x]
    {
      log := log + [x];
    }
  }

  class Registry<V> {
    /** The object's own properties: action name to Subject. */
    var entries: map<string, Subject<V>>

    /** The object literal `{}`. */
    constructor ()
      ensures entries == map[]
    {
      entries := map[];
    }

    /**
     * `o[name] = new Subject()`: the entry for `name` is always replaced by a
     * brand-new Subject (last registration wins, an existing Subject is not
     * reused); every other entry is left as it was.
     */
    method Register(name: string)
      modifies this
      ensures entries.Keys == old(entries).Keys + {name}
      ensures fresh(entries[name]) && entries[name].log == []
      ensures forall a :: a in old(entries) && a != name ==> entries[a] == old(entries)[a]
    {
      var s := new Subject();
      entries := entries[name := s];
    }
  }
}
