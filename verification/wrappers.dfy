/** The Some/None datatype used wherever the Kotlin source has a nullable type. */
module Wrappers {

  datatype Option<+T> = None | Some(value: T)

  /** The empty sequence for None and the singleton for Some. */
  function ToSeq<T>(o: Option<T>): (s: seq<T>)
    ensures |s| <= 1
    ensures o.Some? <==> |s| == 1
    ensures o.Some? ==> s[0] == o.value
  {
    match o
    case None => []
    case Some(v) => [v]
  }
}
