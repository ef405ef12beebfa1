/** Facts about sequences of minted ids, shared by both entity kinds. */
module Ids {

  /** `ids` is strictly increasing and every element lies in `[lo, hi)`. */
  predicate IncreasingWithin(ids: seq<int>, lo: int, hi: int) {
    && (forall i :: 0 <= i < |ids| ==> lo <= ids[i] < hi)
    && (forall i, j :: 0 <= i < j < |ids| ==> ids[i] < ids[j])
  }

  /** Minting `lo` and then ids from `[lo + 1, hi)` gives an increasing run in `[lo, hi)`. */
  lemma PrependMinted(lo: int, rest: seq<int>, hi: int)
    requires lo < hi && IncreasingWithin(rest, lo + 1, hi)
    ensures IncreasingWithin([lo] + rest, lo, hi)
  {
    var ids := [lo] + rest;
    forall i | 0 < i < |ids| ensures ids[i] == rest[i - 1] {
    }
  }
}
