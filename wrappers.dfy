/** A nullable value: `None` stands for a NULL pointer or an unset field. */
module Wrappers {

  datatype Option<+T> = None | Some(value: T)

  /** The elements an optional value contributes to a set: none for `None`. */
  function Elems<T>(o: Option<T>): (s: set<T>)
    ensures o.None? ==> s == {}
    ensures o.Some? ==> s == {o.value}
  {
    match o
    case None => {}
    case Some(v) => {v}
  }
}
