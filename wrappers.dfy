/** Optional values: an absent, null or NaN reading is `None`. */
module Wrappers {

  datatype Option<+T> = None | Some(value: T)

  /** The list holding the value, if there is one. */
  function ToSeq<T>(o: Option<T>): (s: seq<T>)
    ensures |s| <= 1
    ensures o.None? <==> s == []
    ensures o.Some? ==> s == [o.value]
  {
    match o
    case None => []
    case Some(v) => [v]
  }
}
