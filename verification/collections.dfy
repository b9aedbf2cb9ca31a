/** Small facts about sequences used as duplicate-free enumerations. */
module Collections {

  /** No element occurs twice: the shape of a hash set's enumeration. */
  predicate Distinct<T(==)>(xs: seq<T>) {
    forall i, j :: 0 <= i < j < |xs| ==> xs[i] != xs[j]
  }

  /** Adding to a hash set: append only when absent. */
  function AddAbsent<T(==)>(xs: seq<T>, x: T): (r: seq<T>)
    ensures x in r && multiset(xs) <= multiset(r)
    ensures forall i :: 0 <= i < |r| ==> r[i] in xs || r[i] == x
    ensures Distinct(xs) ==> Distinct(r)
    ensures |xs| <= |r| && r[..|xs|] == xs
  {
    if x in xs then xs else xs + [x]
  }

  /** The reversal of a sequence, as `Collections.reverse` does in place. */
  function Reverse<T>(xs: seq<T>): (r: seq<T>)
    ensures |r| == |xs|
    ensures forall i :: 0 <= i < |xs| ==> r[i] == xs[|xs| - 1 - i]
  {
    seq(|xs|, i requires 0 <= i < |xs| => xs[|xs| - 1 - i])
  }
}
