/** The Option type used for "parsed or dropped" results, usable with `:-`. */
module Wrappers {

  datatype Option<+T> = None | Some(value: T) {

    predicate IsFailure() {
      None?
    }

    function PropagateFailure<U>(): Option<U>
      requires None?
    {
      None
    }

    function Extract(): T
      requires Some?
    {
      value
    }
  }

  /** The values of the results that succeeded, in order: the records of the lines that were not dropped. */
  function Accepted<T>(os: seq<Option<T>>): (vs: seq<T>)
    ensures |vs| <= |os|
  {
    if |os| == 0 then []
    else
      var vs := Accepted(os[..|os| - 1]);
      match os[|os| - 1]
      case None => vs
      case Some(v) => vs + [v]
  }
}
