/** Optional values, results and the exceptions the generator can raise. */
module Wrappers {

  datatype Option<+T> = None | Some(value: T) {
    function GetOr(default: T): T {
      match this
      case None => default
      case Some(v) => v
    }
  }

  /** The JVM exceptions that the modelled code throws, with their message. */
  datatype Exception =
    | IllegalArgument(message: string)
    | IllegalState(message: string)
    | IndexOutOfBounds
    | NullCast

  datatype Result<+T> = Ok(value: T) | Err(error: Exception)

  /** A sequence without the elements of an `Option`: `listOfNotNull`. */
  function ToSeq<T>(o: Option<T>): (r: seq<T>)
    ensures |r| <= 1
    ensures o.None? <==> r == []
    ensures o.Some? ==> r == [o.value]
  {
    match o
    case None => []
    case Some(v) => [v]
  }
}
