/** The DJ dashboard page: the party-id slug built when a DJ creates a party,
    and the live list of requests the dashboard keeps in step with the
    server's socket events. */
module DjDashboard {
  import opened Common
  import opened PartyModel

  // ---------------------------------------------------------------------
  // Party id construction
  // ---------------------------------------------------------------------

  /** `toLowerCase` on one character (ASCII letters). */
  function LowerAscii(c: char): char
  {
    if 'A' <= c <= 'Z' then (c as int + 32) as char else c
  }

  function ToLower(s: string): (r: string)
    ensures |r| == |s|
    ensures forall i :: 0 <= i < |s| ==> r[i] == LowerAscii(s[i])
  {
    if s == [] then [] else [LowerAscii(s[0])] + ToLower(s[1..])
  }

  /** `.replace(/\s+/g, '-')`: every maximal run of white space becomes a
      single '-'. No white space is left, and a string without white space
      is unchanged. */
  function DashSpaces(s: string): (r: string)
    ensures forall i :: 0 <= i < |r| ==> !IsJsSpace(r[i])
    ensures |r| <= |s|
    ensures (forall i :: 0 <= i < |s| ==> !IsJsSpace(s[i])) ==> r == s
    decreases |s|
  {
    if s == [] then []
    else if IsJsSpace(s[0]) then "-" + DashSpaces(TrimStart(s[1..]))
    else [s[0]] + DashSpaces(s[1..])
  }

  /** Replacing white space keeps every character that is neither white
      space nor '-' as often as it occurs. */
  lemma {:induction false} DashSpacesKeepsOthers(s: string, c: char)
    requires !IsJsSpace(c) && c != '-'
    ensures multiset(DashSpaces(s))[c] == multiset(s)[c]
    decreases |s|
  {
    if s != [] {
      if IsJsSpace(s[0]) {
        var t := TrimStart(s);
        var run := s[..|s| - |t|];
        assert s == run + t;
        NoneInSpaces(run, c);
        DashSpacesKeepsOthers(t, c);
        assert DashSpaces(s) == "-" + DashSpaces(t);
      } else {
        assert s == [s[0]] + s[1..];
        DashSpacesKeepsOthers(s[1..], c);
        assert DashSpaces(s) == [s[0]] + DashSpaces(s[1..]);
      }
    }
  }

  /** A run of white space holds no character that is not white space. */
  lemma NoneInSpaces(run: string, c: char)
    requires AllSpace(run) && !IsJsSpace(c)
    ensures multiset(run)[c] == 0
  {
    assert forall i :: 0 <= i < |run| ==> run[i] != c;
  }

  /** The characters a cleaned name may hold: a-z, 0-9 and '-'. */
  predicate IsSlugChar(c: char)
  {
    ('a' <= c <= 'z') || ('0' <= c <= '9') || c == '-'
  }

  predicate IsSlug(s: string)
  {
    forall i :: 0 <= i < |s| ==> IsSlugChar(s[i])
  }

  /** `.replace(/[^a-z0-9-]/g, '')`. */
  function KeepSlugChars(s: string): (r: string)
    ensures IsSlug(r)
    ensures |r| <= |s|
    ensures forall c :: IsSlugChar(c) ==> multiset(r)[c] == multiset(s)[c]
  {
    if s == [] then []
    else
      assert s == [s[0]] + s[1..];
      if IsSlugChar(s[0]) then [s[0]] + KeepSlugChars(s[1..])
      else KeepSlugChars(s[1..])
  }

  /** The filter works piecewise, so the kept characters keep their order. */
  lemma {:induction false} KeepSlugCharsAppend(a: string, b: string)
    ensures KeepSlugChars(a + b) == KeepSlugChars(a) + KeepSlugChars(b)
  {
    if a == [] {
      assert a + b == b;
    } else {
      assert (a + b)[1..] == a[1..] + b;
      KeepSlugCharsAppend(a[1..], b);
    }
  }

  /** The cleaned party name. */
  function CleanName(s: string): string
  {
    KeepSlugChars(DashSpaces(ToLower(s)))
  }

  lemma {:induction false} ToLowerOfSlug(s: string)
    requires IsSlug(s)
    ensures ToLower(s) == s
  {
    if s != [] {
      ToLowerOfSlug(s[1..]);
    }
  }

  /** No slug character is white space. */
  lemma SlugHasNoSpace(s: string)
    requires IsSlug(s)
    ensures forall i :: 0 <= i < |s| ==> !IsJsSpace(s[i])
  {
    forall i | 0 <= i < |s| ensures !IsJsSpace(s[i]) {
      assert IsSlugChar(s[i]);
    }
  }

  lemma {:induction false} KeepSlugCharsOfSlug(s: string)
    requires IsSlug(s)
    ensures KeepSlugChars(s) == s
  {
    if s != [] {
      KeepSlugCharsOfSlug(s[1..]);
    }
  }

  /** A cleaned name holds only a-z, 0-9 and '-' (so no white space), and
      cleaning leaves an already-clean name unchanged; hence cleaning twice
      is cleaning once. */
  lemma CleanNameIsSlug(s: string)
    ensures IsSlug(CleanName(s))
    ensures forall i :: 0 <= i < |CleanName(s)| ==> !IsJsSpace(CleanName(s)[i])
    ensures IsSlug(s) ==> CleanName(s) == s
    ensures CleanName(CleanName(s)) == CleanName(s)
  {
    if IsSlug(s) {
      ToLowerOfSlug(s);
      SlugHasNoSpace(s);
      KeepSlugCharsOfSlug(s);
    }
    var c := CleanName(s);
    ToLowerOfSlug(c);
    SlugHasNoSpace(c);
    KeepSlugCharsOfSlug(c);
  }

  /** `String.prototype.substring(start, end)` for `start <= end`: both
      indices are clamped to the string's length. */
  function Substring(s: string, start: nat, end: nat): (r: string)
    requires start <= end
    ensures |r| <= end - start
    ensures end <= |s| ==> r == s[start..end]
    ensures start <= |s| <= end ==> r == s[start..]
    ensures |s| <= start ==> r == []
  {
    var a := if start <= |s| then start else |s|;
    var b := if end <= |s| then end else |s|;
    s[a..b]
  }

  datatype CreatePartyError = EmptyPartyName

  /** The create-party click handler. `randomBase36` is
      `Math.random().toString(36)`; on success the page navigates to the
      dashboard of the returned party id. */
  function CreatePartyId(input: string, randomBase36: string): (r: Result<string, CreatePartyError>)
    ensures r.Err? <==> AllSpace(input)
    ensures r.Ok? ==>
      var clean := CleanName(Trim(input));
      && |clean| + 1 <= |r.value| <= |clean| + 7
      && r.value[..|clean| + 1] == clean + "-"
      && r.value[|clean| + 1..] == Substring(randomBase36, 2, 8)
  {
    TrimEmptyIff(input);
    var name := Trim(input);
    if name == [] then Err(EmptyPartyName)
    else Ok(CleanName(name) + "-" + Substring(randomBase36, 2, 8))
  }

  /** When the random digits are base-36 digits, the whole party id is a
      slug: a-z, 0-9 and '-' only. */
  lemma CreatedPartyIdIsSlug(input: string, randomBase36: string)
    requires IsSlug(Substring(randomBase36, 2, 8))
    requires CreatePartyId(input, randomBase36).Ok?
    ensures IsSlug(CreatePartyId(input, randomBase36).value)
  {
    var clean := CleanName(Trim(input));
    var tail := Substring(randomBase36, 2, 8);
    CleanNameIsSlug(Trim(input));
    SlugJoin(clean, tail);
    assert CreatePartyId(input, randomBase36).value == clean + "-" + tail;
  }

  /** Two slugs joined by '-' form a slug. */
  lemma SlugJoin(a: string, b: string)
    requires IsSlug(a) && IsSlug(b)
    ensures IsSlug(a + "-" + b)
  {
    var id := a + "-" + b;
    forall i | 0 <= i < |id| ensures IsSlugChar(id[i]) {
      if i < |a| {
        assert id[i] == a[i];
      } else if i > |a| {
        assert id[i] == b[i - |a| - 1];
      }
    }
  }

  /** The dashboard page, with the party id as its `dj` query parameter. */
  const DashboardPath := "/html/dj.html?dj="

  /** Where the create-party click sends the browser: the dashboard of the
      new party id, or nowhere (an alert) when the name is empty. */
  function CreatePartyUrl(input: string, randomBase36: string): (r: Result<string, CreatePartyError>)
    ensures r.Err? <==> AllSpace(input)
    ensures r.Ok? ==> |DashboardPath| < |r.value| && r.value[..|DashboardPath|] == DashboardPath
    ensures r.Ok? ==> CreatePartyId(input, randomBase36).Ok?
                      && r.value[|DashboardPath|..] == CreatePartyId(input, randomBase36).value
  {
    match CreatePartyId(input, randomBase36)
    case Err(e) => Err(e)
    case Ok(id) => Ok(DashboardPath + id)
  }

  /** The text of `s` before the first `c`, or all of `s`. */
  function UpTo(s: string, c: char): (r: string)
    ensures r <= s && c !in r
    ensures |r| < |s| ==> s[|r|] == c
  {
    if s == [] || s[0] == c then [] else [s[0]] + UpTo(s[1..], c)
  }

  /** `urlParams.get('dj')` as the dashboard reads it from a URL of the form
      the handler builds: the value after `dj=`, up to the next parameter.
      Percent- and '+'-decoding are not modelled. */
  function DjParam(url: string): (r: Option<string>)
    ensures r.Some? <==> |DashboardPath| <= |url| && url[..|DashboardPath|] == DashboardPath
    ensures r.Some? ==> r.value <= url[|DashboardPath|..] && '&' !in r.value
    ensures r.Some? && |DashboardPath| + |r.value| < |url| ==> url[|DashboardPath| + |r.value|] == '&'
  {
    if |DashboardPath| <= |url| && url[..|DashboardPath|] == DashboardPath
    then Some(UpTo(url[|DashboardPath|..], '&'))
    else None
  }

  /** The dashboard reached after creating a party reads back exactly the
      party id that was created. */
  lemma {:induction false} CreatedUrlCarriesPartyId(input: string, randomBase36: string)
    requires IsSlug(Substring(randomBase36, 2, 8))
    requires CreatePartyId(input, randomBase36).Ok?
    ensures CreatePartyUrl(input, randomBase36).Ok?
    ensures DjParam(CreatePartyUrl(input, randomBase36).value) == Some(CreatePartyId(input, randomBase36).value)
  {
    var id := CreatePartyId(input, randomBase36).value;
    CreatedPartyIdIsSlug(input, randomBase36);
    assert forall i :: 0 <= i < |id| ==> id[i] != '&';
    var url := DashboardPath + id;
    assert url[..|DashboardPath|] == DashboardPath;
    assert url[|DashboardPath|..] == id;
    UpToAbsent(id, '&');
  }

  /** Without `c`, `UpTo` keeps the whole string. */
  lemma {:induction false} UpToAbsent(s: string, c: char)
    requires c !in s
    ensures UpTo(s, c) == s
  {
    if s != [] {
      assert s[0] != c;
      assert c !in s[1..];
      UpToAbsent(s[1..], c);
    }
  }

  // ---------------------------------------------------------------------
  // The live request list
  // ---------------------------------------------------------------------

  /** A list item: the request's fields, the `played` class, and whether its
      "mark played" button is disabled. */
  datatype SongItem = SongItem(id: ObjectId, titulo: string, artista: string, hora: string,
                               played: bool, buttonDisabled: bool)

  /** `createSongItem`: a played request shows as played, its button off. */
  function ItemFor(c: SongRequest): (it: SongItem)
    ensures it.id == c.id && it.titulo == c.titulo && it.artista == c.artista && it.hora == c.hora
    ensures it.played == c.played && it.buttonDisabled == c.played
  {
    SongItem(c.id, c.titulo, c.artista, c.hora, c.played, c.played)
  }

  function Items(songs: seq<SongRequest>): (r: seq<SongItem>)
    ensures |r| == |songs|
    ensures forall i :: 0 <= i < |songs| ==> r[i] == ItemFor(songs[i])
  {
    if songs == [] then [] else Items(songs[..|songs| - 1]) + [ItemFor(songs[|songs| - 1])]
  }

  /** No item carries the id. */
  predicate ItemAbsent(items: seq<SongItem>, id: ObjectId)
  {
    forall i :: 0 <= i < |items| ==> items[i].id != id
  }

  /** `song-was-played`: `getElementById` finds the first item with the id,
      which gets the `played` class and a disabled button. */
  function MarkItemPlayed(items: seq<SongItem>, id: ObjectId): (r: seq<SongItem>)
    ensures |r| == |items|
    ensures forall i :: 0 <= i < |r| ==>
      var hit := items[i].id == id && ItemAbsent(items[..i], id);
      r[i] == items[i].(played := items[i].played || hit, buttonDisabled := items[i].buttonDisabled || hit)
  {
    if items == [] then []
    else if items[0].id == id then [items[0].(played := true, buttonDisabled := true)] + items[1..]
    else
      var rest := MarkItemPlayed(items[1..], id);
      assert forall i :: 1 <= i < |items| ==> items[1..][..i - 1] == items[1..i];
      assert forall i :: 1 <= i < |items| ==> ItemAbsent(items[..i], id) == ItemAbsent(items[1..i], id);
      [items[0]] + rest
  }

  /** An unknown id changes nothing. */
  lemma MarkItemPlayedUnknown(items: seq<SongItem>, id: ObjectId)
    requires ItemAbsent(items, id)
    ensures MarkItemPlayed(items, id) == items
  {
    var r := MarkItemPlayed(items, id);
    assert forall i :: 0 <= i < |r| ==> r[i] == items[i];
  }

  /** What a click on the list sends to the server. */
  datatype MarkRequest = MarkRequest(partyId: string, songId: ObjectId)

  class Dashboard {
    const partyId: string
    var items: seq<SongItem>

    /** A button is disabled exactly when its item shows as played. */
    ghost predicate Valid()
      reads this
    {
      forall i :: 0 <= i < |items| ==> items[i].buttonDisabled == items[i].played
    }

    constructor (partyId: string)
      ensures Valid() && this.partyId == partyId && items == []
    {
      this.partyId := partyId;
      items := [];
    }

    /** `load-initial-songs`: the list is emptied and one item per request
        is appended, in the order given. */
    method LoadInitialSongs(songs: seq<SongRequest>)
      modifies this
      ensures Valid()
      ensures items == Items(songs)
    {
      items := [];
      var i := 0;
      while i < |songs|
        invariant 0 <= i <= |songs|
        invariant items == Items(songs[..i])
      {
        assert songs[..i + 1][..i] == songs[..i];
        items := items + [ItemFor(songs[i])];
        i := i + 1;
      }
      assert songs[..i] == songs;
    }

    /** `recibir-cancion`: the new request is shown first, the others keep
        their order. */
    method RecibirCancion(song: SongRequest)
      requires Valid()
      modifies this
      ensures Valid()
      ensures items == [ItemFor(song)] + old(items)
    {
      items := [ItemFor(song)] + items;
    }

    /** `song-was-played`. */
    method SongWasPlayed(songId: ObjectId)
      requires Valid()
      modifies this
      ensures Valid()
      ensures items == MarkItemPlayed(old(items), songId)
    {
      items := MarkItemPlayed(items, songId);
    }

    /** The "new party" button clears the view once confirmed; the requests
        stay stored on the server. */
    method ClearView(confirmed: bool)
      requires Valid()
      modifies this
      ensures Valid()
      ensures items == if confirmed then [] else old(items)
    {
      if confirmed {
        items := [];
      }
    }

    /** A click on the list: `target` is the index of the item whose button
        was clicked, if any. Only an enabled button, that is an unplayed
        item, emits `mark-song-as-played`. */
    method Click(target: Option<nat>) returns (emit: Option<MarkRequest>)
      requires Valid()
      ensures emit.Some? <==> target.Some? && target.value < |items| && !items[target.value].played
      ensures emit.Some? ==> emit.value == MarkRequest(partyId, items[target.value].id)
    {
      if target.Some? && target.value < |items| && !items[target.value].buttonDisabled {
        emit := Some(MarkRequest(partyId, items[target.value].id));
      } else {
        emit := None;
      }
    }
  }
}
