/** The absent-or-present value that stands for a Java reference that may be null. */
module Wrappers {

  datatype Option<+T> = None | Some(value: T)

  /** The elements an optional value contributes to a multiset: none or one. */
  function AsMultiset<T>(o: Option<T>): (m: multiset<T>)
    ensures |m| <= 1
    ensures o.Some? ==> o.value in m
  {
    match o
    case None => multiset{}
    case Some(v) => multiset{v}
  }
}
