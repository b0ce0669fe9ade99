/**
 * Leftmost-match search: `String.prototype.match` with a non-global regular expression
 * tries start positions 0, 1, 2, ... and reports the first one at which the pattern matches.
 * Each pattern of the application is hand-coded as a matcher anchored at one start index.
 */
module Scan {
  import opened Wrappers

  /** Where a match starts and what its capture groups hold. */
  datatype Found<C> = Found(start: nat, captures: C)

  /** The first start index `>= from` at which `matchAt` succeeds, with its captures. */
  function Leftmost<C>(matchAt: (string, nat) -> Option<C>, text: string, from: nat): (r: Option<Found<C>>)
    ensures r.Some? ==>
      && from <= r.value.start <= |text|
      && matchAt(text, r.value.start) == Some(r.value.captures)
      && forall k :: from <= k < r.value.start ==> matchAt(text, k).None?
    ensures r.None? <==> forall k :: from <= k <= |text| ==> matchAt(text, k).None?
    decreases |text| - from
  {
    if from > |text| then None
    else match matchAt(text, from)
      case Some(c) => Some(Found(from, c))
      case None => Leftmost(matchAt, text, from + 1)
  }

  /** A match at `i` with none before it is the one the search reports. */
  lemma LeftmostIs<C>(matchAt: (string, nat) -> Option<C>, text: string, i: nat)
    requires i <= |text| && matchAt(text, i).Some?
    requires forall k :: 0 <= k < i ==> matchAt(text, k).None?
    ensures Leftmost(matchAt, text, 0) == Some(Found(i, matchAt(text, i).value))
  {
  }
}
