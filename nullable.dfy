/** C# reference types and nullable values: `null` is `None`. */
module Nullable {

  datatype Option<+T> = None | Some(value: T) {

    /** The null-coalescing operator `this ?? fallback`. */
    function Coalesce(fallback: T): (r: T)
      ensures Some? ==> r == value
      ensures None? ==> r == fallback
    {
      match this
      case Some(v) => v
      case None => fallback
    }
  }
}
