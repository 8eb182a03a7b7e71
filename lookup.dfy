/** Finding a record in a collection: `findById` and `findOne` both return
    the first stored record whose key equals the one asked for. */
module Lookup {
  import opened Http

  /** The position of the first element whose key is `k`, or none when no element has it. */
  function FindFirst<T, K(==)>(s: seq<T>, key: T -> K, k: K): (r: Option<nat>)
    ensures r.Some? ==> r.value < |s| && key(s[r.value]) == k
    ensures r.Some? ==> forall j :: 0 <= j < r.value ==> key(s[j]) != k
    ensures r.None? ==> forall j :: 0 <= j < |s| ==> key(s[j]) != k
  {
    if s == [] then None
    else if key(s[0]) == k then Some(0)
    else match FindFirst(s[1..], key, k)
      case None => None
      case Some(i) => Some(i + 1)
  }
}
