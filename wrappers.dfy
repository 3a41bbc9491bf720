/** The optional value the model uses wherever the source returns `null` or a `TryGet` fails. */
module Wrappers {

  datatype Option<T> = None | Some(value: T) {

    function GetOr(default: T): (r: T)
      ensures Some? ==> r == value
      ensures None? ==> r == default
    {
      match this
      case Some(v) => v
      case None => default
    }
  }
}
