/** Searching ordered lists, as `Array.prototype.findIndex` does. */
module Seqs {
  import opened Wrappers

  /** `i` is the first position of `s` whose element satisfies `p`. */
  ghost predicate IsFirst<T>(s: seq<T>, p: T -> bool, i: int) {
    && 0 <= i < |s|
    && p(s[i])
    && forall j :: 0 <= j < i ==> !p(s[j])
  }

  /** The first position whose element satisfies `p`, or `None` (the source's `-1`)
      when no element does. */
  function FindIndex<T>(s: seq<T>, p: T -> bool): (r: Option<nat>)
    ensures r.None? <==> forall j :: 0 <= j < |s| ==> !p(s[j])
    ensures r.Some? ==> IsFirst(s, p, r.value)
  {
    if |s| == 0 then None
    else if p(s[0]) then Some(0)
    else match FindIndex(s[1..], p)
      case None => None
      case Some(i) => Some(i + 1)
  }

  /** At most one position can be the first one. */
  lemma FirstIsUnique<T>(s: seq<T>, p: T -> bool, i: int, k: int)
    requires IsFirst(s, p, i) && IsFirst(s, p, k)
    ensures i == k
  {
  }
}
