/** The recently-viewed list: most recent first, at most ten ids. */
module RecentlyViewed {
  import opened Lists

  const MaxRecent: nat := 10

  ghost predicate Valid(ids: seq<int>) {
    |ids| <= MaxRecent && NoDuplicates(ids)
  }

  /**
   * `addToRecent`: `id` moves (or enters) at the front and occurs once; the
   * others keep their relative order; a full list loses its oldest id.
   */
  function AddToRecent(ids: seq<int>, id: int): (r: seq<int>)
    ensures |r| <= MaxRecent
    ensures r != [] && r[0] == id && multiset(r)[id] == 1
    ensures Subsequence(r[1..], ids) && id !in r[1..]
    ensures forall y :: y in r ==> y == id || y in ids
    ensures |Without(ids, id)| < MaxRecent ==> forall y :: y in ids ==> y in r
    ensures id !in ids && |ids| >= MaxRecent ==> r == [id] + ids[..MaxRecent - 1]
    ensures Valid(ids) && ids != [] && ids[0] == id ==> r == ids
    ensures Valid(ids) ==> Valid(r)
  {
    PromoteFacts(ids, id, MaxRecent);
    PromoteFront(ids, MaxRecent);
    PromoteNoDuplicates(ids, id, MaxRecent);
    if id !in ids && |ids| >= MaxRecent then PromoteOverflow(ids, id, MaxRecent); Promote(ids, id, MaxRecent)
    else Promote(ids, id, MaxRecent)
  }

  /** `clearRecent`. */
  function ClearRecent(): (r: seq<int>)
    ensures |r| == 0 && Valid(r)
    ensures forall id :: AddToRecent(r, id) == [id]
  {
    []
  }
}
