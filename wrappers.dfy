/** The optional value used wherever the source has `null`, `undefined` or an omitted prop. */
module Wrappers {

  datatype Option<+T> = None | Some(value: T) {

    /** The value, or `default` when there is none (a JavaScript default parameter). */
    function GetOr(default: T): T
    {
      match this
      case Some(v) => v
      case None => default
    }

    /** The zero- or one-element sequence holding the value. */
    function ToSeq(): seq<T>
    {
      match this
      case Some(v) => [v]
      case None => []
    }
  }
}
