/** Optional values and results with a failure reason, used for JavaScript's
    `undefined`/`null` and for calls that can reject or throw. */
module Wrappers {

  datatype Option<+T> = None | Some(value: T)

  /** The outcome of a call that may reject (a backend call) or throw
      (a TypeError in the handler's own code). */
  datatype Result<+T> = Ok(value: T) | Err(reason: string)

  function OptionToSeq<T>(o: Option<T>): (s: seq<T>)
    ensures |s| <= 1
    ensures o.None? <==> s == []
    ensures o.Some? ==> s == [o.value]
  {
    match o
    case None => []
    case Some(v) => [v]
  }
}
