/** The optional value used throughout the model for Java's nullable results. */
module Wrappers {

  datatype Option<+T> = None | Some(value: T)

  /** The elements of an option as a sequence of length zero or one. */
  function ToSeq<T>(o: Option<T>): (s: seq<T>)
    ensures |s| <= 1
    ensures o.None? ==> s == []
    ensures o.Some? ==> s == [o.value]
  {
    match o
    case None => []
    case Some(v) => [v]
  }
}
