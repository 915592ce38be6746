/** Sequence and real-number helpers used by the profile transforms. */
module Seqs {

  function Abs(x: real): (r: real)
    ensures r >= 0.0
    ensures r == x || r == -x
  {
    if x < 0.0 then -x else x
  }

  /** The sequence read back to front (numpy's `flip` on one axis). */
  function Reverse<T>(s: seq<T>): (r: seq<T>)
    ensures |r| == |s|
    ensures forall i :: 0 <= i < |s| ==> r[i] == s[|s| - 1 - i]
  {
    seq(|s|, i requires 0 <= i < |s| => s[|s| - 1 - i])
  }

  lemma ReverseReverse<T>(s: seq<T>)
    ensures Reverse(Reverse(s)) == s
  {
  }

  predicate StrictlyIncreasing(s: seq<real>) {
    forall i, j :: 0 <= i < j < |s| ==> s[i] < s[j]
  }

  predicate StrictlyDecreasing(s: seq<real>) {
    forall i, j :: 0 <= i < j < |s| ==> s[i] > s[j]
  }

  predicate StrictlyMonotone(s: seq<real>) {
    StrictlyIncreasing(s) || StrictlyDecreasing(s)
  }

  lemma ReverseDecreasing(s: seq<real>)
    requires StrictlyDecreasing(s)
    ensures StrictlyIncreasing(Reverse(s))
  {
  }
}
