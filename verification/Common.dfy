/** Declarations that several components share. */
module Common {

  datatype Option<T> = None | Some(value: T)

  /** No entry of the list occurs twice. */
  ghost predicate Distinct(ns: seq<nat>) {
    ns == [] || (ns[0] !in ns[1..] && Distinct(ns[1..]))
  }

  lemma {:induction false} DistinctAppend(ns: seq<nat>, n: nat)
    requires Distinct(ns) && n !in ns
    ensures Distinct(ns + [n])
  {
    if ns != [] {
      DistinctAppend(ns[1..], n);
      assert (ns + [n])[1..] == ns[1..] + [n];
    }
  }
}
