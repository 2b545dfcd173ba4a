/** Searching a sequence in order, as a database query with `find_one` or
    `update_one` picks the first matching document. */
module Sequences {

  /** The position of the first element satisfying `p`, or `|xs|` when none
      does. */
  function FirstIndex<T>(xs: seq<T>, p: T -> bool): (i: nat)
    ensures i <= |xs|
    ensures i < |xs| ==> p(xs[i])
    ensures forall j :: 0 <= j < i ==> !p(xs[j])
  {
    if |xs| == 0 then 0
    else if p(xs[0]) then 0
    else 1 + FirstIndex(xs[1..], p)
  }
}
