/** The wishlist document: songs guests suggest before an event. */
module WishlistModel {
  import opened Common

  const DefaultGenre: string := "Desconocido"
  const DefaultAddedBy: string := "Invitado"
  const DefaultMaxSongsPerUser: int := 3

  /** One suggested song (`wishlistSongSchema`); `id` is its `_id`. */
  datatype WishlistSong = WishlistSong(id: string, titulo: string, artista: string, genre: string, addedBy: string, timestamp: int)

  /** A wishlist (`wishlistSchema`). */
  datatype Wishlist = Wishlist(
    wishlistId: string,
    name: string,
    djUsername: string,
    description: string,
    songs: seq<WishlistSong>,
    isActive: bool,
    eventDate: Option<int>,
    maxSongsPerUser: int)

  /** A song as the schema builds it: a missing genre, submitter or
      timestamp takes its default. */
  function NewWishlistSong(id: string, titulo: string, artista: string,
                           genre: Option<string>, addedBy: Option<string>, now: int): (s: WishlistSong)
    ensures s.id == id && s.titulo == titulo && s.artista == artista && s.timestamp == now
    ensures s.genre == (if genre.Some? then genre.value else "Desconocido")
    ensures s.addedBy == (if addedBy.Some? then addedBy.value else "Invitado")
  {
    WishlistSong(id, titulo, artista,
                 if genre.Some? then genre.value else DefaultGenre,
                 if addedBy.Some? then addedBy.value else DefaultAddedBy,
                 now)
  }

  /** A wishlist as the schema builds it: active, no songs, an empty
      description unless one is given, and three songs per guest. */
  function NewWishlist(wishlistId: string, name: string, djUsername: string,
                       description: Option<string>, eventDate: Option<int>): (w: Wishlist)
    ensures w.wishlistId == wishlistId && w.name == name && w.djUsername == djUsername
    ensures w.isActive && w.songs == [] && w.maxSongsPerUser == 3 && w.eventDate == eventDate
    ensures w.description == (if description.Some? then description.value else "")
  {
    Wishlist(wishlistId, name, djUsername,
             if description.Some? then description.value else "",
             [], true, eventDate, DefaultMaxSongsPerUser)
  }

  /** The schema's `required` validators. */
  predicate ValidWishlistSong(s: WishlistSong)
  {
    s.titulo != [] && s.artista != []
  }

  predicate ValidWishlist(w: Wishlist)
  {
    && w.wishlistId != [] && w.name != [] && w.djUsername != []
    && forall i :: 0 <= i < |w.songs| ==> ValidWishlistSong(w.songs[i])
  }

  /** A song built with defaults always has a non-empty genre and submitter
      when none were given, and validates exactly when title and artist are
      present. */
  lemma DefaultsFillSong(id: string, titulo: string, artista: string, now: int)
    ensures NewWishlistSong(id, titulo, artista, None, None, now).genre != []
    ensures NewWishlistSong(id, titulo, artista, None, None, now).addedBy != []
    ensures ValidWishlistSong(NewWishlistSong(id, titulo, artista, None, None, now)) <==> titulo != [] && artista != []
  {
  }

  /** The songs other than those with `_id` equal to `id`, in their order:
      what both wishlist pages keep on `wishlist-song-deleted`. */
  function RemoveSong(songs: seq<WishlistSong>, id: string): (r: seq<WishlistSong>)
    ensures |r| <= |songs|
    ensures forall s :: s in r <==> s in songs && s.id != id
  {
    if songs == [] then []
    else (if songs[0].id == id then [] else [songs[0]]) + RemoveSong(songs[1..], id)
  }

  /** Removal works piecewise: the kept songs of `a + b` are the kept songs of
      `a` followed by those of `b`, so the survivors keep their order. */
  lemma {:induction false} RemoveSongAppend(a: seq<WishlistSong>, b: seq<WishlistSong>, id: string)
    ensures RemoveSong(a + b, id) == RemoveSong(a, id) + RemoveSong(b, id)
  {
    if a == [] {
      assert a + b == b;
    } else {
      assert (a + b)[1..] == a[1..] + b;
      RemoveSongAppend(a[1..], b, id);
    }
  }

  /** Removing an id no song has changes nothing. */
  lemma {:induction false} RemoveAbsentSong(songs: seq<WishlistSong>, id: string)
    requires forall i :: 0 <= i < |songs| ==> songs[i].id != id
    ensures RemoveSong(songs, id) == songs
  {
    if songs != [] {
      RemoveAbsentSong(songs[1..], id);
    }
  }

  /** The wishlist collection, indexed by its unique key `wishlistId`. */
  ghost predicate KeyedById(store: map<string, Wishlist>)
  {
    forall k :: k in store ==> store[k].wishlistId == k
  }
}
