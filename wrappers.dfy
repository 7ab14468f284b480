/** Python's `Optional[...]`: a value or `None`. */
module Wrappers {

  datatype Option<+T> = None | Some(value: T) {

    /** `x if x is not None else default` */
    function GetOr(default: T): T
    {
      match this
      case Some(v) => v
      case None => default
    }
  }

  /** Python truthiness of an optional string: present and not empty. */
  predicate Truthy(s: Option<string>)
  {
    s.Some? && s.value != ""
  }
}
