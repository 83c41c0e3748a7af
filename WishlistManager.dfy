/** The DJ's wishlist manager page: the create form's guard and the
    wishlist open in the modal, kept in step with song events. */
module WishlistManager {
  import opened Common
  import opened WishlistModel

  /** The JSON body posted to create a wishlist. */
  datatype CreateBody = CreateBody(name: string, description: string, eventDate: string)

  datatype FormError = MissingName

  /** `createWishlist`: name and description are trimmed, the date is sent
      as entered; a blank name refuses the submission. */
  function CreateWishlistRequest(name: string, description: string, eventDate: string): (r: Result<CreateBody, FormError>)
    ensures r.Err? <==> AllSpace(name)
    ensures r.Ok? ==> r.value == CreateBody(Trim(name), Trim(description), eventDate) && r.value.name != []
  {
    TrimEmptyIff(name);
    if Trim(name) == [] then Err(MissingName) else Ok(CreateBody(Trim(name), Trim(description), eventDate))
  }

  /** The page's state: the wishlist open in the modal, the displayed song
      count, and the wishlist rooms this page's socket has joined. */
  class ManagerPage {
    var current: Option<Wishlist>
    var songCount: int
    var joinedRooms: set<string>

    /** While a wishlist is open the displayed count is its number of songs. */
    ghost predicate Valid()
      reads this
    {
      current.Some? ==> songCount == |current.value.songs|
    }

    constructor ()
      ensures Valid() && current.None? && joinedRooms == {}
    {
      current := None;
      songCount := 0;
      joinedRooms := {};
    }

    /** `viewWishlist` then `showModal`: `response` is the fetched wishlist,
        `None` when the fetch failed (an alert, nothing else). The wishlist's
        room is joined when the socket is connected. */
    method ViewWishlist(response: Option<Wishlist>, connected: bool)
      requires Valid()
      modifies this
      ensures Valid()
      ensures response.Some? ==>
        && current == response
        && songCount == |response.value.songs|
        && joinedRooms == old(joinedRooms) + (if connected then {response.value.wishlistId} else {})
      ensures response.None? ==>
        current == old(current) && songCount == old(songCount) && joinedRooms == old(joinedRooms)
    {
      if response.Some? {
        current := response;
        if connected {
          joinedRooms := joinedRooms + {response.value.wishlistId};
        }
        songCount := |response.value.songs|;
      }
    }

    /** `closeModal`: nothing is open any more; no room is left. */
    method CloseModal()
      requires Valid()
      modifies this
      ensures Valid()
      ensures current.None? && songCount == old(songCount) && joinedRooms == old(joinedRooms)
    {
      current := None;
    }

    /** `wishlist-song-added`, from whichever joined room: appended to the
        open wishlist; ignored when none is open. */
    method SongAdded(song: WishlistSong)
      requires Valid()
      modifies this
      ensures Valid()
      ensures joinedRooms == old(joinedRooms)
      ensures old(current).None? ==> current == old(current) && songCount == old(songCount)
      ensures old(current).Some? ==>
        current == Some(old(current).value.(songs := old(current).value.songs + [song]))
    {
      if current.Some? {
        var w := current.value;
        current := Some(w.(songs := w.songs + [song]));
        songCount := |current.value.songs|;
      }
    }

    /** `wishlist-song-deleted`: every song with that id leaves the open
        wishlist, the rest stay in order; ignored when none is open. */
    method SongDeleted(songId: string)
      requires Valid()
      modifies this
      ensures Valid()
      ensures joinedRooms == old(joinedRooms)
      ensures old(current).None? ==> current == old(current) && songCount == old(songCount)
      ensures old(current).Some? ==>
        current == Some(old(current).value.(songs := RemoveSong(old(current).value.songs, songId)))
    {
      if current.Some? {
        var w := current.value;
        current := Some(w.(songs := RemoveSong(w.songs, songId)));
        songCount := |current.value.songs|;
      }
    }
  }

  /** Once the modal is closed, song events from any room change nothing. */
  method CloseThenEvents(page: ManagerPage, added: WishlistSong, deletedId: string)
    requires page.Valid()
    modifies page
    ensures page.current.None? && page.joinedRooms == old(page.joinedRooms)
  {
    page.CloseModal();
    page.SongAdded(added);
    page.SongDeleted(deletedId);
  }
}
