/** Values that JavaScript leaves `undefined` when a field is absent. */
module Common {

  datatype Option<T> = None | Some(value: T) {

    /** `x ?? default`: the value if present, else the default. */
    function GetOr(default: T): (r: T)
      ensures Some? ==> r == value
      ensures None? ==> r == default
    {
      if Some? then value else default
    }
  }
}
