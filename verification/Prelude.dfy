/** The conventional option and result types, used where the source returns an
    optional value or a typed error. */
module Wrappers {

  datatype Option<+T> = None | Some(value: T)

  datatype Errc =
    | InvalidArgument
    | AlreadyExists
    | NotFound
    | Unavailable
    | DimensionMismatch
    | CorruptIndex
    | IoError

  datatype Result<+T> = Ok(value: T) | Err(error: Errc)

  function GetOr<K, V>(m: map<K, V>, k: K, default: V): V {
    if k in m then m[k] else default
  }
}

/** Facts about sets and sequences that several components need. */
module Collections {

  lemma {:induction false} SubsetSize<T>(a: set<T>, b: set<T>)
    requires a <= b
    ensures |a| <= |b|
    decreases |a|
  {
    if a != {} {
      var x :| x in a;
      SubsetSize(a - {x}, b - {x});
    }
  }

  lemma Reassociate<T>(a: seq<T>, b: seq<T>, c: seq<T>)
    ensures a + (b + c) == a + b + c
  {
  }
}
