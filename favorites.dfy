/**
 * The favourites hook: an optimistic toggle of a property id, synchronised
 * with the backend for a signed-in user (and reverted when that fails) or
 * written to browser storage for an anonymous one.
 */
module Favorites {
  import opened Wrappers
  import opened Lists

  /** The optimistic update: every occurrence removed when present, otherwise appended. */
  function Toggle(s: seq<int>, id: int): (r: seq<int>)
    ensures id in s ==> id !in r && Subsequence(r, s) && forall y :: y in s && y != id ==> y in r
    ensures id in s ==> forall y :: y != id ==> multiset(r)[y] == multiset(s)[y]
    ensures id !in s ==> r == s + [id]
  {
    if id in s then WithoutIsSubsequence(s, id); WithoutCounts(s, id); Without(s, id) else s + [id]
  }

  /** Toggling twice gives back the membership of `id`; a list without `id` comes back exactly. */
  lemma ToggleTwice(s: seq<int>, id: int)
    ensures id in Toggle(Toggle(s, id), id) <==> id in s
    ensures id !in s ==> Toggle(Toggle(s, id), id) == s
    ensures forall y :: y != id ==> (y in Toggle(Toggle(s, id), id) <==> y in s)
  {
    if id !in s {
      RemoveAppended(s, id);
    }
  }

  /** Removing an id that was just appended to a list without it restores the list. */
  lemma {:induction false} RemoveAppended(s: seq<int>, id: int)
    requires id !in s
    ensures Without(s + [id], id) == s
  {
    if s != [] {
      assert (s + [id])[1..] == s[1..] + [id];
      RemoveAppended(s[1..], id);
      assert Without(s + [id], id) == [s[0]] + Without(s[1..] + [id], id);
      assert [s[0]] + s[1..] == s;
    } else {
      assert Without([id], id) == Without([], id);
    }
  }

  /** What the browser storage holds under the favourites key. */
  datatype Stored = Missing | Unreadable | Ids(ids: seq<int>)

  datatype Toast = Toast(title: string, description: string, destructive: bool)

  /** The success toast, chosen by membership before the toggle. */
  function ToggledToast(wasFavorite: bool): (t: Toast)
    ensures !t.destructive
    ensures t.title == (if wasFavorite then "Removed from favorites" else "Added to favorites")
  {
    if wasFavorite then Toast("Removed from favorites", "Property removed from your saved list", false)
    else Toast("Added to favorites", "Property saved to your favorites", false)
  }

  class FavoritesHook {
    var favorites: seq<int>
    var stored: Stored

    constructor (stored: Stored)
      ensures favorites == [] && this.stored == stored
    {
      favorites := [];
      this.stored := stored;
    }

    /** `isFavorite`. */
    function IsFavorite(id: int): (b: bool)
      reads this
      ensures b <==> exists i :: 0 <= i < |favorites| && favorites[i] == id
    {
      id in favorites
    }

    /**
     * The load effect: a signed-in user gets the ids the backend returns
     * (`remote`; `None` when the query fails, which keeps the list); an
     * anonymous user gets the stored ids, `[]` when they cannot be read,
     * and keeps the list when nothing is stored.
     */
    method Load(signedIn: bool, remote: Option<seq<int>>)
      modifies this`favorites
      ensures signedIn ==> favorites == (if remote.Some? then remote.value else old(favorites))
      ensures !signedIn ==> favorites == (match stored
                                           case Missing => old(favorites)
                                           case Unreadable => []
                                           case Ids(ids) => ids)
    {
      if signedIn {
        if remote.Some? {
          favorites := remote.value;
        }
      } else {
        match stored
        case Missing =>
        case Unreadable => favorites := [];
        case Ids(ids) => favorites := ids;
      }
    }

    /**
     * `toggleFavorite`: the list is toggled at once. For a signed-in user
     * whose remote delete fails the id is appended again, and when the
     * remote insert fails it is removed again, each with an error toast and
     * storage untouched; an anonymous user's toggled list is written to
     * storage. `remoteOk` is the backend's answer.
     */
    method ToggleFavorite(id: int, signedIn: bool, remoteOk: bool) returns (toast: Toast)
      modifies this
      ensures var wasFavorite := id in old(favorites);
        && (signedIn && wasFavorite && !remoteOk ==>
             favorites == Toggle(old(favorites), id) + [id] && stored == old(stored)
             && toast == Toast("Error", "Failed to remove favorite", true))
        && (signedIn && !wasFavorite && !remoteOk ==>
             favorites == old(favorites) && stored == old(stored)
             && toast == Toast("Error", "Failed to save favorite", true))
        && (signedIn && remoteOk ==>
             favorites == Toggle(old(favorites), id) && stored == old(stored) && toast == ToggledToast(wasFavorite))
        && (!signedIn ==>
             favorites == Toggle(old(favorites), id) && stored == Ids(favorites) && toast == ToggledToast(wasFavorite))
    {
      var isCurrentlyFavorite := id in favorites;
      var previous := favorites;
      favorites := Toggle(favorites, id);
      if signedIn {
        if isCurrentlyFavorite && !remoteOk {
          favorites := favorites + [id];
          return Toast("Error", "Failed to remove favorite", true);
        } else if !isCurrentlyFavorite && !remoteOk {
          RemoveAppended(previous, id);
          favorites := Without(favorites, id);
          return Toast("Error", "Failed to save favorite", true);
        }
      } else {
        stored := Ids(Toggle(previous, id));
      }
      toast := ToggledToast(isCurrentlyFavorite);
    }
  }

  /** A failed remote delete of an id held once gives back the same ids, with that id moved to the end. */
  lemma FailedRemoveRestoresIds(s: seq<int>, id: int)
    requires multiset(s)[id] == 1
    ensures multiset(Toggle(s, id) + [id]) == multiset(s)
    ensures Subsequence(Toggle(s, id), s)
  {
    WithoutCounts(s, id);
    assert id in s;
    var r := Without(s, id);
    assert multiset(r)[id] == 0;
    forall y | true ensures multiset(r + [id])[y] == multiset(s)[y] {
      assert multiset(r + [id]) == multiset(r) + multiset{id};
    }
    assert multiset(r + [id]) == multiset(s);
  }
}
