/**
 * Finite models of the observables the library builds. An observable is
 * represented by the finite sequence of values it delivers, in delivery order.
 */
module Streams {

  /** The two-element array `[name, x]` that tags a value with the scope it belongs to. */
  datatype Pair<X> = Pair(scope: string, value: X)

  /**
   * `.map(x => [name, x])`: every delivered value is tagged with `name`,
   * in the same order and with nothing added or dropped.
   */
  function Tag<X>(name: string, xs: seq<X>): (r: seq<Pair<X>>)
    ensures |r| == |xs|
    ensures forall i :: 0 <= i < |xs| ==> r[i].scope == name && r[i].value == xs[i]
  {
    if xs == [] then [] else [Pair(name, xs[0])] + Tag(name, xs[1..])
  }

  /** The set of names that occur in a sequence of names. */
  function Names(names: seq<string>): set<string>
  {
    set i | 0 <= i < |names| :: names[i]
  }

  /** Tagging distributes over concatenation of the delivered values. */
  lemma TagAppend<X>(name: string, xs: seq<X>, ys: seq<X>)
    ensures Tag(name, xs + ys) == Tag(name, xs) + Tag(name, ys)
  {
  }
}
