/** The favorites provider of src/hooks/use-favorites.tsx: the listing ids the
    signed-in user has favorited, mirrored from the remote `favorites` table. */
module Favorites {
  import opened Common
  import opened Seqs

  /** A row of `favorites` as loaded: only its `ad_id` column is selected. */
  datatype FavoriteRow = FavoriteRow(adId: string)

  /** The remote write a toggle issues, keyed by user and listing. */
  datatype FavoriteWrite = Insert(userId: string, adId: string) | Delete(userId: string, adId: string)

  datatype ToggleResult = AuthenticationRequired | Added | Removed | WriteFailed

  /** `data.map(fav => fav.ad_id)`: the ids in row order. */
  function AdIdsOf(rows: seq<FavoriteRow>): (ids: seq<string>)
    ensures |ids| == |rows|
    ensures forall i :: 0 <= i < |rows| ==> ids[i] == rows[i].adId
  {
    if rows == [] then [] else [rows[0].adId] + AdIdsOf(rows[1..])
  }

  /** The list after a toggle whose remote write succeeded: a current favorite
      is filtered out, any other id is appended. */
  function Toggled(favorites: seq<string>, adId: string): seq<string> {
    if adId in favorites then Remove(favorites, adId) else favorites + [adId]
  }

  /** A toggle flips membership of the toggled id and leaves every other id's
      membership alone. */
  lemma ToggleFlips(favorites: seq<string>, adId: string)
    ensures (adId in Toggled(favorites, adId)) == (adId !in favorites)
    ensures forall other :: other != adId ==> (other in Toggled(favorites, adId) <==> other in favorites)
  {
  }

  /** Two successful toggles of the same id restore whether it is a favorite;
      starting from a non-favorite they restore the list itself. */
  lemma {:induction false} ToggleTwice(favorites: seq<string>, adId: string)
    ensures (adId in Toggled(Toggled(favorites, adId), adId)) == (adId in favorites)
    ensures adId !in favorites ==> Toggled(Toggled(favorites, adId), adId) == favorites
  {
    if adId !in favorites {
      var once := favorites + [adId];
      assert adId in once;
      RemoveAppend(favorites, [adId], adId);
      RemoveAbsent(favorites, adId);
      assert Remove([adId], adId) == [];
    }
  }

  class FavoritesProvider {
    var user: Option<string>
    var favorites: seq<string>
    var isLoading: bool

    constructor ()
      ensures user == None && favorites == [] && !isLoading
    {
      user := None;
      favorites := [];
      isLoading := false;
    }

    /** `isFavorite(adId)`: `favorites.includes(adId)`. */
    function IsFavorite(adId: string): bool
      reads this
    {
      adId in favorites
    }

    /** `loadFavorites()`; `rows` is the answer to the read of the user's rows
        (None when the read failed, which is only logged). */
    method LoadFavorites(rows: Option<seq<FavoriteRow>>)
      modifies this`favorites, this`isLoading
      ensures user.None? ==> favorites == old(favorites) && isLoading == old(isLoading)
      ensures user.Some? ==> !isLoading
      ensures user.Some? ==> favorites == if rows.Some? then AdIdsOf(rows.value) else old(favorites)
    {
      if user.None? {
        return;
      }
      isLoading := true;
      if rows.Some? {
        favorites := AdIdsOf(rows.value);
      }
      isLoading := false;
    }

    /** The effect run when the signed-in user changes: sign-out clears the
        list, sign-in replaces it with the new user's remote rows. */
    method UserChanged(newUser: Option<string>, rows: Option<seq<FavoriteRow>>)
      modifies this
      ensures user == newUser
      ensures newUser.None? ==> favorites == [] && isLoading == old(isLoading)
      ensures newUser.Some? ==> favorites == (if rows.Some? then AdIdsOf(rows.value) else old(favorites)) && !isLoading
    {
      user := newUser;
      if newUser.Some? {
        LoadFavorites(rows);
      } else {
        favorites := [];
      }
    }

    /** `toggleFavorite(adId)`; `write` is the outcome of the remote insert or
        delete, and `request` is that write (None when none was issued). */
    method ToggleFavorite(adId: string, write: Outcome) returns (request: Option<FavoriteWrite>, result: ToggleResult)
      modifies this`favorites, this`isLoading
      ensures user.None? ==> request == None && result == AuthenticationRequired
      ensures user.None? ==> favorites == old(favorites) && isLoading == old(isLoading)
      ensures user.Some? ==> request == Some(if adId in old(favorites) then Delete(user.value, adId) else Insert(user.value, adId))
      ensures user.Some? ==> favorites == (if write == Ok then Toggled(old(favorites), adId) else old(favorites))
      ensures user.Some? ==> result == (if write == Err then WriteFailed else if adId in old(favorites) then Removed else Added)
      ensures user.Some? ==> !isLoading
    {
      if user.None? {
        return None, AuthenticationRequired;
      }
      isLoading := true;
      if IsFavorite(adId) {
        request := Some(Delete(user.value, adId));
        if write == Ok {
          favorites := Remove(favorites, adId);
          result := Removed;
        } else {
          result := WriteFailed;
        }
      } else {
        request := Some(Insert(user.value, adId));
        if write == Ok {
          favorites := favorites + [adId];
          result := Added;
        } else {
          result := WriteFailed;
        }
      }
      isLoading := false;
    }
  }
}
