/** Optional values: a text that `findtext` did not find, a number that did not parse. */
module Wrappers {

  datatype Option<+T> = None | Some(value: T) {

    /** Returns the value, or `default` when there is none (Python's `x or default`, `d.get(k, default)`). */
    function GetOr(default: T): T {
      match this
      case Some(v) => v
      case None => default
    }
  }

  /** The list holding the value, if any: what a loop body that may `continue` appends. */
  function Keep<T>(o: Option<T>): (s: seq<T>)
    ensures |s| <= 1 && (s != [] <==> o.Some?)
  {
    if o.Some? then [o.value] else []
  }

  /** Appending to an accumulator one part at a time builds the same sequence as appending the
      parts at once. */
  lemma AppendAssoc<T>(a: seq<T>, b: seq<T>, c: seq<T>)
    ensures a + b + c == a + (b + c)
  {
  }
}
