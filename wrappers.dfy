/** Optional values: a record that may be missing, a number that may be undefined. */
module Wrappers {

  datatype Option<+T> = None | Some(value: T)

  /** The elements of an optional value as a sequence of length at most one. */
  function ToSeq<T>(o: Option<T>): (s: seq<T>)
    ensures |s| <= 1
    ensures o.Some? <==> |s| == 1
    ensures o.Some? ==> s[0] == o.value
  {
    if o.Some? then [o.value] else []
  }
}
