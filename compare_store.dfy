/** The comparison tray: up to four property ids, each at most once. */
module CompareStore {
  import opened Lists

  const MaxCompare: nat := 4

  /** What every reachable tray satisfies. */
  ghost predicate Valid(ids: seq<int>) {
    |ids| <= MaxCompare && NoDuplicates(ids)
  }

  /** `addToCompare`: appends `id` unless the tray is full or already holds it. */
  function AddToCompare(ids: seq<int>, id: int): (r: seq<int>)
    ensures r == ids || r == ids + [id]
    ensures r == ids + [id] <==> |ids| < MaxCompare && id !in ids
    ensures id in r <==> id in ids || |ids| < MaxCompare
    ensures Valid(ids) ==> Valid(r)
  {
    if |ids| >= MaxCompare then ids
    else if id in ids then ids
    else
      assert Valid(ids) ==> Valid(ids + [id]) by {
        if Valid(ids) {
          forall i, j | 0 <= i < j < |ids + [id]| ensures (ids + [id])[i] != (ids + [id])[j] {
            if j == |ids| {
              assert (ids + [id])[i] == ids[i];
            }
          }
        }
      }
      ids + [id]
  }

  /** `removeFromCompare`: drops every occurrence of `id` and keeps the rest in order. */
  function RemoveFromCompare(ids: seq<int>, id: int): (r: seq<int>)
    ensures id !in r
    ensures Subsequence(r, ids)
    ensures forall y :: y != id ==> multiset(r)[y] == multiset(ids)[y]
    ensures Valid(ids) ==> Valid(r)
  {
    WithoutIsSubsequence(ids, id);
    WithoutCounts(ids, id);
    WithoutNoDuplicates(ids, id);
    Without(ids, id)
  }

  /** `clearCompare`. */
  function ClearCompare(): (r: seq<int>)
    ensures |r| == 0 && Valid(r)
    ensures forall id :: AddToCompare(r, id) == [id] && IsInCompare(AddToCompare(r, id), id)
  {
    []
  }

  /** `isInCompare`. */
  function IsInCompare(ids: seq<int>, id: int): (b: bool)
    ensures b <==> exists i :: 0 <= i < |ids| && ids[i] == id
  {
    id in ids
  }

  /** The tray's actions as a user issues them. */
  datatype Action = Add(id: int) | Remove(id: int) | Clear

  function Apply(ids: seq<int>, a: Action): seq<int> {
    match a
    case Add(id) => AddToCompare(ids, id)
    case Remove(id) => RemoveFromCompare(ids, id)
    case Clear => ClearCompare()
  }

  function ApplyAll(ids: seq<int>, actions: seq<Action>): seq<int>
    decreases |actions|
  {
    if actions == [] then ids else ApplyAll(Apply(ids, actions[0]), actions[1..])
  }

  /** From the empty tray, every sequence of actions leaves at most four ids and no duplicates. */
  lemma {:induction false} ReachableTraysValid(ids: seq<int>, actions: seq<Action>)
    requires Valid(ids)
    ensures Valid(ApplyAll(ids, actions))
    decreases |actions|
  {
    if actions != [] {
      ReachableTraysValid(Apply(ids, actions[0]), actions[1..]);
    }
  }

  lemma EmptyTrayReachesValid(actions: seq<Action>)
    ensures Valid(ApplyAll([], actions))
  {
    ReachableTraysValid([], actions);
  }
}
