/** FavoriteArtistViewModel from FavUtils.kt: three state fields and the
    list `currentFavorites`, which only adding (append) and removing (drop
    every entry with the removed `favId`) change. The three API helpers are
    abstracted to what they hand back; each Success holds a snapshot of the
    list. The ghost `events` records, in order, every state assignment and
    every snackbar message. */
module Favorites {
  import opened Common
  import opened FetchStates

  datatype FavoriteArtist = FavoriteArtist(
    id: string,
    favId: string,
    email: string,
    name: string,
    birthyear: string,
    deathyear: string,
    nationality: string,
    bgImg: string,
    addedAt: string)

  datatype FavEvent =
    | GetSet(getState: FetchState<FavoriteArtist>)
    | AddSet(addState: FetchState<FavoriteArtist>)
    | RemoveSet(removeState: FetchState<FavoriteArtist>)
    | Snackbar(message: string)

  const AddFailed := "Failed to add to favorites"
  const RemoveFailed := "Failed to remove from favorites"
  const Added := "Added to favorites"
  const Removed := "Removed from favorites"

  /** What `addToFavoritesAPI` and `removeFavoritesFromAPI` hand back: the
      `data` element (the decoded artist, or the removed id's text), or null
      when it is missing or anything threw. */
  function OrNull<T>(fetched: Fetched<Option<T>>): (r: Option<T>)
    ensures r.Some? <==> fetched.Fetched? && fetched.value.Some?
    ensures r.Some? ==> r == fetched.value
  {
    match fetched
    case Fetched(data) => data
    case FetchFailed => None
  }

  function HasOtherFavId(favId: string): FavoriteArtist -> bool {
    (a: FavoriteArtist) => a.favId != favId
  }

  /** `removeAll { it.favId == favId }` as a value: the rest, in order. */
  function WithoutFavId(list: seq<FavoriteArtist>, favId: string): (r: seq<FavoriteArtist>)
    ensures |r| <= |list|
    ensures forall a :: a in r <==> a in list && a.favId != favId
  {
    Filter(list, HasOtherFavId(favId))
  }

  /** Removal keeps the order of the entries it keeps. */
  lemma WithoutFavIdKeepsOrder(a: seq<FavoriteArtist>, b: seq<FavoriteArtist>, favId: string)
    ensures WithoutFavId(a + b, favId) == WithoutFavId(a, favId) + WithoutFavId(b, favId)
  {
    FilterConcat(a, b, HasOtherFavId(favId));
  }

  /** Removing an id that no entry has leaves the list as it was. */
  lemma WithoutAbsentFavId(list: seq<FavoriteArtist>, favId: string)
    requires forall i :: 0 <= i < |list| ==> list[i].favId != favId
    ensures WithoutFavId(list, favId) == list
  {
    FilterAllKept(list, HasOtherFavId(favId));
  }

  /** Adding an artist and then removing its `favId` gives the list without
      that id, whatever the list held before. */
  lemma AddThenRemove(list: seq<FavoriteArtist>, artist: FavoriteArtist)
    ensures WithoutFavId(list + [artist], artist.favId) == WithoutFavId(list, artist.favId)
  {
    WithoutFavIdKeepsOrder(list, [artist], artist.favId);
    assert WithoutFavId([artist], artist.favId) == [];
  }

  class FavoriteArtistViewModel {
    var addFavoriteArtistState: FetchState<FavoriteArtist>
    var removeFavoriteArtistState: FetchState<FavoriteArtist>
    var getFavoritesState: FetchState<FavoriteArtist>
    var currentFavorites: seq<FavoriteArtist>
    ghost var events: seq<FavEvent>

    constructor()
      ensures addFavoriteArtistState == Loading && removeFavoriteArtistState == Loading
      ensures getFavoritesState == Loading
      ensures currentFavorites == [] && events == []
    {
      addFavoriteArtistState := Loading;
      removeFavoriteArtistState := Loading;
      getFavoritesState := Loading;
      currentFavorites := [];
      events := [];
    }

    /** Loading, then Success with the fetched list if it is non-empty, else
      Error("No results found"). The favourites list is not touched. */
    method FetchFavorites(fetched: Fetched<ListResponse<FavoriteArtist>>)
      modifies this`getFavoritesState, this`events
      ensures getFavoritesState == Settle(DataOrEmpty(fetched))
      ensures events == old(events) + [GetSet(Loading), GetSet(getFavoritesState)]
    {
      getFavoritesState := Loading;
      events := events + [GetSet(Loading)];
      var results := DataOrEmpty(fetched);
      getFavoritesState := if results != [] then Success(results) else Error(NoResults);
      events := events + [GetSet(getFavoritesState)];
    }

    method AddToFavorites(fetched: Fetched<Option<FavoriteArtist>>)
      modifies this`addFavoriteArtistState, this`currentFavorites, this`events
      ensures OrNull(fetched).Some? ==>
                currentFavorites == old(currentFavorites) + [OrNull(fetched).value]
                && addFavoriteArtistState == Success(currentFavorites)
      ensures OrNull(fetched).None? ==>
                currentFavorites == old(currentFavorites) && addFavoriteArtistState == Error(AddFailed)
      ensures events == old(events) + [AddSet(Loading), AddSet(addFavoriteArtistState)]
    {
      addFavoriteArtistState := Loading;
      events := events + [AddSet(Loading)];
      var newFavorite := OrNull(fetched);
      if newFavorite.Some? {
        currentFavorites := currentFavorites + [newFavorite.value];
        addFavoriteArtistState := Success(currentFavorites);
      } else {
        addFavoriteArtistState := Error(AddFailed);
      }
      events := events + [AddSet(addFavoriteArtistState)];
    }

    method RemoveFromFavorites(fetched: Fetched<Option<string>>)
      modifies this`removeFavoriteArtistState, this`currentFavorites, this`events
      ensures OrNull(fetched).Some? ==>
                currentFavorites == WithoutFavId(old(currentFavorites), OrNull(fetched).value)
                && removeFavoriteArtistState == Success(currentFavorites)
      ensures OrNull(fetched).None? ==>
                currentFavorites == old(currentFavorites) && removeFavoriteArtistState == Error(RemoveFailed)
      ensures events == old(events) + [RemoveSet(Loading), RemoveSet(removeFavoriteArtistState)]
    {
      removeFavoriteArtistState := Loading;
      events := events + [RemoveSet(Loading)];
      var removedId := OrNull(fetched);
      if removedId.Some? {
        currentFavorites := WithoutFavId(currentFavorites, removedId.value);
        removeFavoriteArtistState := Success(currentFavorites);
      } else {
        removeFavoriteArtistState := Error(RemoveFailed);
      }
      events := events + [RemoveSet(removeFavoriteArtistState)];
    }

    /** The launched block of `addFavorite`: add, a message only on Success,
      then always a refetch. */
    method AddFavorite(added: Fetched<Option<FavoriteArtist>>, refetched: Fetched<ListResponse<FavoriteArtist>>)
      returns (shown: Option<string>)
      modifies this
      ensures shown == (if OrNull(added).Some? then Some(Added) else None)
      ensures currentFavorites ==
                if OrNull(added).Some? then old(currentFavorites) + [OrNull(added).value]
                else old(currentFavorites)
      ensures OrNull(added).Some? ==> addFavoriteArtistState == Success(currentFavorites)
      ensures OrNull(added).None? ==> addFavoriteArtistState == Error(AddFailed)
      ensures removeFavoriteArtistState == old(removeFavoriteArtistState)
      ensures getFavoritesState == Settle(DataOrEmpty(refetched))
      ensures events ==
                old(events) + [AddSet(Loading), AddSet(addFavoriteArtistState)]
                + (if shown.Some? then [Snackbar(Added)] else [])
                + [GetSet(Loading), GetSet(getFavoritesState)]
    {
      AddToFavorites(added);
      shown := None;
      if addFavoriteArtistState.Success? {
        shown := Some(Added);
        events := events + [Snackbar(Added)];
      }
      FetchFavorites(refetched);
    }

    /** The launched block of `removeFavorite`: remove, a message only on
      Success, then always a refetch. */
    method RemoveFavorite(removed: Fetched<Option<string>>, refetched: Fetched<ListResponse<FavoriteArtist>>)
      returns (shown: Option<string>)
      modifies this
      ensures shown == (if OrNull(removed).Some? then Some(Removed) else None)
      ensures currentFavorites ==
                if OrNull(removed).Some? then WithoutFavId(old(currentFavorites), OrNull(removed).value)
                else old(currentFavorites)
      ensures OrNull(removed).Some? ==> removeFavoriteArtistState == Success(currentFavorites)
      ensures OrNull(removed).None? ==> removeFavoriteArtistState == Error(RemoveFailed)
      ensures addFavoriteArtistState == old(addFavoriteArtistState)
      ensures getFavoritesState == Settle(DataOrEmpty(refetched))
      ensures events ==
                old(events) + [RemoveSet(Loading), RemoveSet(removeFavoriteArtistState)]
                + (if shown.Some? then [Snackbar(Removed)] else [])
                + [GetSet(Loading), GetSet(getFavoritesState)]
    {
      RemoveFromFavorites(removed);
      shown := None;
      if removeFavoriteArtistState.Success? {
        shown := Some(Removed);
        events := events + [Snackbar(Removed)];
      }
      FetchFavorites(refetched);
    }
  }
}
