/** The optional value: Python's None, or a field left out of the metadata. */
module Wrappers {
  datatype Option<+T> = None | Some(value: T) {
    function GetOr(default: T): (r: T)
      ensures r == default || Some(r) == this
    {
      match this case None => default case Some(v) => v
    }
  }
}
