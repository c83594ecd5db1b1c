/** Ascending enumeration of a bounded bitmap, standing for both the plain
    multibit iteration over the active-leaf array and the sparse iteration
    over its intersection with the compiled EOD-capable mask. */
module Multibit {

  /** The members of `s` in `[lo, hi)`, in ascending order: what successive
      calls of the iterator return before it reports "invalid". */
  function Members(s: set<nat>, lo: nat, hi: nat): (r: seq<nat>)
    ensures forall i :: 0 <= i < |r| ==> lo <= r[i] < hi && r[i] in s
    ensures forall i, j :: 0 <= i < j < |r| ==> r[i] < r[j]
    ensures forall q :: lo <= q < hi && q in s ==> q in r
    decreases hi - lo
  {
    if lo >= hi then []
    else if lo in s then [lo] + Members(s, lo + 1, hi)
    else Members(s, lo + 1, hi)
  }

  /** Queue indices the EOD sparse iterator visits: the live engines that
      were also compiled as able to accept at end of data. */
  function SparseMembers(mask: set<nat>, active: set<nat>, count: nat): (r: seq<nat>)
    ensures forall q :: q in r <==> q in mask && q in active && q < count
    ensures forall i, j :: 0 <= i < j < |r| ==> r[i] < r[j]
  {
    Members(mask * active, 0, count)
  }
}
