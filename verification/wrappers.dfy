/** Optional values, used for the result line a tool call may or may not emit
    and for the value a helper may or may not return. */
module Wrappers {

  datatype Option<+T> = None | Some(value: T) {

    /** The zero- or one-element sequence holding the value, if any. */
    function ToSeq(): (s: seq<T>)
      ensures |s| <= 1
      ensures Some? <==> |s| == 1
      ensures Some? ==> s[0] == value
    {
      match this
      case Some(v) => [v]
      case None => []
    }
  }
}
