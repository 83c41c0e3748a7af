/** The guests' wishlist page: the manual-song form, the search threshold,
    the body sent to add a song, and the loaded wishlist kept in step with
    the room's song events. */
module GuestWishlist {
  import opened Common
  import opened WishlistModel

  /** A song as the page hands it to `addSongToWishlist`; a field the page
      does not set is `None`. */
  datatype SongDraft = SongDraft(titulo: string, artista: string, genre: Option<string>, addedBy: Option<string>)

  /** The JSON body posted to add a song. */
  datatype SongBody = SongBody(titulo: string, artista: string, genre: string, addedBy: string)

  datatype FormError = MissingTitleOrArtist

  /** The manual form: title, artist and name are trimmed; a blank name
      becomes the default submitter; the genre is always the default one.
      A blank title or artist refuses the submission. */
  function ManualSong(title: string, artist: string, name: string): (r: Result<SongDraft, FormError>)
    ensures r.Err? <==> AllSpace(title) || AllSpace(artist)
    ensures r.Ok? ==> r.value.titulo == Trim(title) && r.value.artista == Trim(artist)
    ensures r.Ok? ==> r.value.titulo != [] && r.value.artista != []
    ensures r.Ok? ==> r.value.genre == Some("Desconocido")
    ensures r.Ok? ==> r.value.addedBy == Some(if AllSpace(name) then "Invitado" else Trim(name))
  {
    TrimEmptyIff(title);
    TrimEmptyIff(artist);
    TrimEmptyIff(name);
    var addedBy := if Trim(name) == [] then DefaultAddedBy else Trim(name);
    var song := SongDraft(Trim(title), Trim(artist), Some(DefaultGenre), Some(addedBy));
    if song.titulo == [] || song.artista == [] then Err(MissingTitleOrArtist) else Ok(song)
  }

  /** A clicked suggestion: its genre is the search result's genre, or the
      default one when the result has none; no submitter is set. */
  function SuggestionSong(titulo: string, artista: string, genre: Option<string>): (d: SongDraft)
    ensures d.titulo == titulo && d.artista == artista && d.addedBy.None?
    ensures d.genre.Some? && d.genre.value != []
    ensures genre.Some? && genre.value != [] ==> d.genre == genre
    ensures genre.None? || genre.value == [] ==> d.genre == Some("Desconocido")
  {
    SongDraft(titulo, artista, Some(OrDefault(genre, DefaultGenre)), None)
  }

  /** JavaScript's `value || fallback` on an optional string: an absent or
      empty value takes the fallback. */
  function OrDefault(v: Option<string>, fallback: string): (r: string)
    ensures v.Some? && v.value != [] ==> r == v.value
    ensures v.None? || v.value == [] ==> r == fallback
  {
    if v.Some? && v.value != [] then v.value else fallback
  }

  /** The body `addSongToWishlist` posts: genre and submitter are never
      empty. */
  function AddSongBody(d: SongDraft): (b: SongBody)
    ensures b.titulo == d.titulo && b.artista == d.artista
    ensures b.genre != [] && b.addedBy != []
    ensures d.genre.Some? && d.genre.value != [] ==> b.genre == d.genre.value
    ensures d.addedBy.Some? && d.addedBy.value != [] ==> b.addedBy == d.addedBy.value
    ensures d.genre.None? || d.genre.value == [] ==> b.genre == "Desconocido"
    ensures d.addedBy.None? || d.addedBy.value == [] ==> b.addedBy == "Invitado"
  {
    SongBody(d.titulo, d.artista, OrDefault(d.genre, DefaultGenre), OrDefault(d.addedBy, DefaultAddedBy))
  }

  /** A manual submission posts the trimmed title and artist, the default
      genre, and the trimmed name or the default submitter. */
  lemma ManualSongBody(title: string, artist: string, name: string)
    requires ManualSong(title, artist, name).Ok?
    ensures AddSongBody(ManualSong(title, artist, name).value)
         == SongBody(Trim(title), Trim(artist), "Desconocido", if AllSpace(name) then "Invitado" else Trim(name))
  {
    TrimEmptyIff(name);
  }

  /** What a key press in the search box does. */
  datatype SearchAction = ClearSuggestions | ScheduleSearch(query: string)

  function OnSearchKeyup(query: string): (a: SearchAction)
    ensures a.ClearSuggestions? <==> |query| < 3
    ensures a.ScheduleSearch? ==> a.query == query
  {
    if |query| < 3 then ClearSuggestions else ScheduleSearch(query)
  }

  /** The page's state: the loaded wishlist, if any, and the song counter. */
  class GuestPage {
    var current: Option<Wishlist>
    var counter: int

    /** While a wishlist is loaded the counter shows its number of songs. */
    ghost predicate Valid()
      reads this
    {
      current.Some? ==> counter == |current.value.songs|
    }

    constructor ()
      ensures Valid() && current.None?
    {
      current := None;
      counter := 0;
    }

    /** `loadWishlist`: `response` is the fetched wishlist, `None` when the
        fetch failed (an error is shown and nothing is loaded). */
    method LoadWishlist(response: Option<Wishlist>)
      requires Valid()
      modifies this
      ensures Valid()
      ensures response.Some? ==> current == response && counter == |response.value.songs|
      ensures response.None? ==> current == old(current) && counter == old(counter)
    {
      if response.Some? {
        current := response;
        counter := |response.value.songs|;
      }
    }

    /** `wishlist-song-added`: appended at the end of the loaded wishlist;
        ignored when none is loaded. */
    method SongAdded(song: WishlistSong)
      requires Valid()
      modifies this
      ensures Valid()
      ensures old(current).None? ==> current == old(current) && counter == old(counter)
      ensures old(current).Some? ==>
        current == Some(old(current).value.(songs := old(current).value.songs + [song]))
    {
      if current.Some? {
        var w := current.value;
        current := Some(w.(songs := w.songs + [song]));
        counter := |current.value.songs|;
      }
    }

    /** `wishlist-song-deleted`: every song with that id goes, the rest stay
        in order; ignored when none is loaded. */
    method SongDeleted(songId: string)
      requires Valid()
      modifies this
      ensures Valid()
      ensures old(current).None? ==> current == old(current) && counter == old(counter)
      ensures old(current).Some? ==>
        current == Some(old(current).value.(songs := RemoveSong(old(current).value.songs, songId)))
    {
      if current.Some? {
        var w := current.value;
        current := Some(w.(songs := RemoveSong(w.songs, songId)));
        counter := |current.value.songs|;
      }
    }
  }
}
