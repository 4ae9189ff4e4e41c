/** Sorted sequences of reals, shared by the numeric modules. */
module Ordering {
  predicate Sorted(s: seq<real>) {
    forall i, j :: 0 <= i <= j < |s| ==> s[i] <= s[j]
  }
}
