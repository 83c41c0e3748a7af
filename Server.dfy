/** The server's shared state and its handlers: the account routes
    (`/register`, `/forgot-password`, `/reset-password`), the active-party
    routes (`/api/active-party`, `/api/end-party`) and the socket handlers
    (`join-dj-room`, `nueva-cancion`, `submit-rating`, `mark-song-as-played`).
    Each handler is one atomic step. Socket rooms map a party id to the
    connections that joined it; every emission is appended to `outbox`. */
module Server {
  import opened Common
  import opened PartyModel
  import opened DjModel

  /** A socket connection. */
  type ConnId = nat

  /** The messages the server emits. */
  datatype Event =
    | LoadInitialSongs(songs: seq<SongRequest>)
    | RecibirCancion(song: SongRequest)
    | SongWasPlayed(songId: ObjectId)
    | AuthError

  /** `io.to(room).emit(...)` or `socket.emit(...)`. */
  datatype Emission = ToRoom(room: string, event: Event) | ToSocket(conn: ConnId, event: Event)

  /** What a bearer token amounts to: absent, failing JWT verification, or
      verified and naming a DJ. */
  datatype Auth = NoToken | Rejected | Verified(username: string)

  /** The error replies the modelled routes give. */
  datatype Failure =
    | Unauthorized            // 401: no token
    | Forbidden               // 403: the token does not verify
    | NotFound                // 404: no such DJ
    | UsernameOrEmailTaken    // 400 from /register
    | ValidationFailed        // the schema refuses the new account (500)
    | InvalidOrExpiredToken   // 400 from /reset-password

  /** A reset token is valid for one hour. */
  const ResetTokenLifetime: int := 3600000

  function RoomMembers(rooms: map<string, set<ConnId>>, room: string): set<ConnId>
  {
    if room in rooms then rooms[room] else {}
  }

  /** No two requests in the list share an id. */
  predicate DistinctIds(reqs: seq<SongRequest>)
  {
    forall i, j :: 0 <= i < j < |reqs| ==> reqs[i].id != reqs[j].id
  }

  /** MongoDB's positional update `songRequests.$.played = true`: the first
      request carrying the id is marked played; everything else is kept. */
  function MarkPlayed(reqs: seq<SongRequest>, id: ObjectId): (r: seq<SongRequest>)
    ensures |r| == |reqs|
    ensures forall i :: 0 <= i < |r| ==>
      r[i] == reqs[i].(played := reqs[i].played || (reqs[i].id == id && IdAbsent(reqs[..i], id)))
  {
    if reqs == [] then []
    else if reqs[0].id == id then [reqs[0].(played := true)] + reqs[1..]
    else
      var rest := MarkPlayed(reqs[1..], id);
      assert forall i :: 1 <= i < |reqs| ==> reqs[1..][..i - 1] == reqs[1..i];
      assert forall i :: 1 <= i < |reqs| ==> IdAbsent(reqs[..i], id) == IdAbsent(reqs[1..i], id);
      [reqs[0]] + rest
  }

  /** With distinct ids, exactly the request with that id ends up played. */
  lemma MarkPlayedOnlyThatRequest(reqs: seq<SongRequest>, id: ObjectId)
    requires DistinctIds(reqs)
    ensures forall i :: 0 <= i < |reqs| ==>
      MarkPlayed(reqs, id)[i] == reqs[i].(played := reqs[i].played || reqs[i].id == id)
  {
    forall i | 0 <= i < |reqs| && reqs[i].id == id
      ensures IdAbsent(reqs[..i], id)
    {
      forall j | 0 <= j < i ensures reqs[..i][j].id != id {
        assert reqs[j].id != reqs[i].id;
      }
    }
  }

  /** An unknown id changes nothing. */
  lemma MarkPlayedUnknownId(reqs: seq<SongRequest>, id: ObjectId)
    requires IdAbsent(reqs, id)
    ensures MarkPlayed(reqs, id) == reqs
  {
    var r := MarkPlayed(reqs, id);
    assert forall i :: 0 <= i < |r| ==> r[i] == reqs[i];
  }

  /** Marking twice is marking once. */
  lemma {:induction false} MarkPlayedIdempotent(reqs: seq<SongRequest>, id: ObjectId)
    ensures MarkPlayed(MarkPlayed(reqs, id), id) == MarkPlayed(reqs, id)
  {
    if reqs != [] && reqs[0].id != id {
      MarkPlayedIdempotent(reqs[1..], id);
      assert MarkPlayed(reqs, id)[1..] == MarkPlayed(reqs[1..], id);
    }
  }

  /** The party `join-dj-room` leaves under `partyId`: the stored one, or a
      new one owned by the joining DJ (`$setOnInsert` with defaults). */
  function JoinedParty(store: PartyStore, partyId: string, username: string): Party
  {
    if partyId in store then store[partyId] else NewParty(partyId, username)
  }

  /** A join never rewrites an existing party, and creates one owned by the
      joining DJ under the requested id otherwise. */
  lemma JoinKeepsOwner(store: PartyStore, partyId: string, username: string)
    requires PartyModel.KeyedById(store)
    ensures JoinedParty(store, partyId, username).partyId == partyId
    ensures partyId in store ==> JoinedParty(store, partyId, username) == store[partyId]
    ensures partyId !in store ==> JoinedParty(store, partyId, username).djUsername == username
    ensures partyId !in store ==> JoinedParty(store, partyId, username).songRequests == []
  {
  }

  /** The joining DJ's record: the active party is set, and the lifetime
      counter is bumped when the party has no requests yet. */
  function JoinedDj(d: Dj, partyId: string, party: Party): Dj
  {
    d.(activePartyId := Some(partyId),
       partyCount := d.partyCount + if |party.songRequests| == 0 then 1 else 0)
  }

  /** The upsert of `join-dj-room` keeps the party store keyed by id and its
      request ids unique and below the id counter. */
  lemma JoinKeepsPartyStoreValid(store: PartyStore, partyId: string, username: string, bound: ObjectId)
    requires PartyModel.KeyedById(store) && RequestIdsBelow(store, bound) && RequestIdsUnique(store)
    ensures var after := store[partyId := JoinedParty(store, partyId, username)];
      PartyModel.KeyedById(after) && RequestIdsBelow(after, bound) && RequestIdsUnique(after)
  {
    if partyId in store {
      assert store[partyId := store[partyId]] == store;
    }
  }

  /** Replacing an account by one with the same username, email and reset
      token keeps the account store's keys unique. */
  lemma SameKeysKeepDjStoreValid(djs: DjStore, u: string, d: Dj)
    requires u in djs && d.username == djs[u].username && d.email == djs[u].email && d.resetToken == djs[u].resetToken
    requires KeyedByUsername(djs) && EmailsUnique(djs) && ResetTokensUnique(djs)
    ensures KeyedByUsername(djs[u := d]) && EmailsUnique(djs[u := d]) && ResetTokensUnique(djs[u := d])
  {
  }

  /** The accounts currently holding a reset token. */
  ghost function TokenHolders(djs: DjStore, token: string): set<string>
  {
    set u | u in djs && djs[u].resetToken == Some(token)
  }

  /** No reset token is held by two accounts. */
  ghost predicate ResetTokensUnique(djs: DjStore)
  {
    forall u, v :: u in djs && v in djs && djs[u].resetToken.Some? && djs[u].resetToken == djs[v].resetToken ==> u == v
  }

  /** The `/reset-password` query: this token, and an expiry after now. */
  predicate ResetMatches(d: Dj, token: string, now: int)
  {
    d.resetToken == Some(token) && d.resetExpires.Some? && d.resetExpires.value > now
  }

  class Server {
    var parties: PartyStore
    var djs: DjStore
    var rooms: map<string, set<ConnId>>
    var outbox: seq<Emission>
    /** The next ObjectId to hand out. */
    var nextObjectId: ObjectId

    ghost predicate Valid()
      reads this
    {
      && PartyModel.KeyedById(parties)
      && RequestIdsBelow(parties, nextObjectId)
      && RequestIdsUnique(parties)
      && KeyedByUsername(djs)
      && EmailsUnique(djs)
      && ResetTokensUnique(djs)
    }

    constructor ()
      ensures Valid()
      ensures parties == map[] && djs == map[] && rooms == map[] && outbox == [] && nextObjectId == 0
    {
      parties, djs, rooms, outbox, nextObjectId := map[], map[], map[], [], 0;
    }

    /** `/register`: refused when any account has the username or the email;
        otherwise the new account, with its schema defaults, is stored. */
    method Register(username: string, email: string, hashedPassword: string) returns (r: Result<(), Failure>)
      requires Valid()
      modifies this
      ensures Valid()
      ensures r == Err(UsernameOrEmailTaken) <==> username in old(djs) || EmailTaken(old(djs), email)
      ensures r.Ok? <==> !(username in old(djs) || EmailTaken(old(djs), email)) && ValidDj(NewDj(username, email, hashedPassword))
      ensures r.Ok? ==> djs == old(djs)[username := NewDj(username, email, hashedPassword)]
      ensures r.Ok? ==> username in djs && EmailTaken(djs, email)
      ensures r.Err? ==> djs == old(djs)
      ensures parties == old(parties) && rooms == old(rooms) && outbox == old(outbox) && nextObjectId == old(nextObjectId)
    {
      if exists u :: u in djs && (u == username || djs[u].email == email) {
        return Err(UsernameOrEmailTaken);
      }
      var account := NewDj(username, email, hashedPassword);
      if !ValidDj(account) {
        return Err(ValidationFailed);
      }
      djs := djs[username := account];
      r := Ok(());
    }

    /** `/forgot-password`: an account with that email gets a fresh token
        that expires in an hour. The reply is the same whether or not the
        email is registered. `token` stands for `crypto.randomBytes`, so it
        is held by no account yet. */
    method ForgotPassword(email: string, token: string, now: int) returns (r: Result<(), Failure>)
      requires Valid()
      requires TokenHolders(djs, token) == {}
      modifies this
      ensures Valid()
      ensures r.Ok?
      ensures !EmailTaken(old(djs), email) ==> djs == old(djs)
      ensures EmailTaken(old(djs), email) ==>
        exists u :: u in old(djs) && old(djs)[u].email == email &&
          djs == old(djs)[u := old(djs)[u].(resetToken := Some(token), resetExpires := Some(now + ResetTokenLifetime))]
      ensures parties == old(parties) && rooms == old(rooms) && outbox == old(outbox) && nextObjectId == old(nextObjectId)
    {
      if u :| u in djs && djs[u].email == email {
        ghost var before := djs;
        forall v | v in before ensures before[v].resetToken != Some(token) {
          assert v !in TokenHolders(before, token);
        }
        djs := djs[u := djs[u].(resetToken := Some(token), resetExpires := Some(now + ResetTokenLifetime))];
      }
      r := Ok(());
    }

    /** `/reset-password`: succeeds only for a stored token whose expiry is
        after now; the password is replaced and token and expiry are cleared,
        so the token is held by no account afterwards. */
    method ResetPassword(token: string, hashedPassword: string, now: int) returns (r: Result<(), Failure>)
      requires Valid()
      modifies this
      ensures Valid()
      ensures r.Err? <==> !(exists u :: u in old(djs) && ResetMatches(old(djs)[u], token, now))
      ensures r.Err? ==> r.error == InvalidOrExpiredToken && djs == old(djs)
      ensures r.Ok? ==>
        exists u :: u in old(djs) && ResetMatches(old(djs)[u], token, now) &&
          djs == old(djs)[u := old(djs)[u].(password := hashedPassword, resetToken := None, resetExpires := None)]
      ensures r.Ok? ==> TokenHolders(djs, token) == {}
      ensures parties == old(parties) && rooms == old(rooms) && outbox == old(outbox) && nextObjectId == old(nextObjectId)
    {
      if u :| u in djs && ResetMatches(djs[u], token, now) {
        djs := djs[u := djs[u].(password := hashedPassword, resetToken := None, resetExpires := None)];
        r := Ok(());
      } else {
        r := Err(InvalidOrExpiredToken);
      }
    }

    /** `/api/active-party`: the authenticated DJ's active party. */
    method ActiveParty(auth: Auth) returns (r: Result<Option<string>, Failure>)
      ensures auth.NoToken? ==> r == Err(Unauthorized)
      ensures auth.Rejected? ==> r == Err(Forbidden)
      ensures auth.Verified? && auth.username !in djs ==> r == Err(NotFound)
      ensures auth.Verified? && auth.username in djs ==> r == Ok(djs[auth.username].activePartyId)
    {
      match auth
      case NoToken => r := Err(Unauthorized);
      case Rejected => r := Err(Forbidden);
      case Verified(u) =>
        if u in djs {
          r := Ok(djs[u].activePartyId);
        } else {
          r := Err(NotFound);
        }
    }

    /** `/api/end-party`: clears the DJ's active party. Nothing else changes:
        the party, its requests and its room stay as they are. */
    method EndParty(auth: Auth) returns (r: Result<(), Failure>)
      requires Valid()
      modifies this
      ensures Valid()
      ensures auth.NoToken? ==> r == Err(Unauthorized) && djs == old(djs)
      ensures auth.Rejected? ==> r == Err(Forbidden) && djs == old(djs)
      ensures auth.Verified? ==>
        (r.Ok? &&
         djs == (if auth.username in old(djs)
                 then old(djs)[auth.username := old(djs)[auth.username].(activePartyId := None)]
                 else old(djs)))
      ensures parties == old(parties) && rooms == old(rooms) && outbox == old(outbox) && nextObjectId == old(nextObjectId)
    {
      match auth
      case NoToken => r := Err(Unauthorized);
      case Rejected => r := Err(Forbidden);
      case Verified(u) =>
        if u in djs {
          djs := djs[u := djs[u].(activePartyId := None)];
        }
        r := Ok(());
    }

    /** `join-dj-room`. Without a token nothing happens. A token that fails
        verification gets `auth_error` back. Otherwise the socket joins the
        room, the DJ's active party is set, the party is created if new
        (owned by this DJ) and never rewritten if it exists, the DJ's party
        counter rises by one when the party has no requests, and the socket
        receives the party's requests. */
    method JoinDjRoom(conn: ConnId, partyId: string, auth: Auth)
      requires Valid()
      modifies this
      ensures Valid()
      ensures auth.NoToken? ==>
        parties == old(parties) && djs == old(djs) && rooms == old(rooms) && outbox == old(outbox)
      ensures auth.Rejected? ==>
        parties == old(parties) && djs == old(djs) && rooms == old(rooms) &&
        outbox == old(outbox) + [ToSocket(conn, AuthError)]
      ensures auth.Verified? ==>
        var u := auth.username;
        var party := JoinedParty(old(parties), partyId, u);
        && parties == old(parties)[partyId := party]
        && rooms == old(rooms)[partyId := RoomMembers(old(rooms), partyId) + {conn}]
        && djs == (if u in old(djs) then old(djs)[u := JoinedDj(old(djs)[u], partyId, party)] else old(djs))
        && outbox == old(outbox) + [ToSocket(conn, LoadInitialSongs(party.songRequests))]
      ensures nextObjectId == old(nextObjectId)
    {
      match auth
      case NoToken =>
      case Rejected =>
        outbox := outbox + [ToSocket(conn, AuthError)];
      case Verified(u) =>
        rooms := rooms[partyId := RoomMembers(rooms, partyId) + {conn}];
        if u in djs {
          SameKeysKeepDjStoreValid(djs, u, djs[u].(activePartyId := Some(partyId)));
          djs := djs[u := djs[u].(activePartyId := Some(partyId))];
        }
        var party := if partyId in parties then parties[partyId] else NewParty(partyId, u);
        JoinKeepsPartyStoreValid(parties, partyId, u, nextObjectId);
        parties := parties[partyId := party];
        if |party.songRequests| == 0 && u in djs {
          SameKeysKeepDjStoreValid(djs, u, djs[u].(partyCount := djs[u].partyCount + 1));
          djs := djs[u := djs[u].(partyCount := djs[u].partyCount + 1)];
        }
        assert u in old(djs) ==> djs == old(djs)[u := JoinedDj(old(djs)[u], partyId, party)];
        outbox := outbox + [ToSocket(conn, LoadInitialSongs(party.songRequests))];
    }

    /** `nueva-cancion`: a record with a fresh id, unplayed, is appended at
        the end of that party's requests and broadcast to the party's room.
        When no party has that id nothing is stored, but the broadcast still
        happens. */
    method NuevaCancion(salaId: string, titulo: string, artista: string, hora: string) returns (song: SongRequest)
      requires Valid()
      modifies this
      ensures Valid()
      ensures song == NewSongRequest(old(nextObjectId), titulo, artista, hora)
      ensures forall p, i :: p in old(parties) && 0 <= i < |old(parties)[p].songRequests| ==>
        old(parties)[p].songRequests[i].id != song.id
      ensures parties == (if salaId in old(parties)
                          then old(parties)[salaId := old(parties)[salaId].(songRequests := old(parties)[salaId].songRequests + [song])]
                          else old(parties))
      ensures outbox == old(outbox) + [ToRoom(salaId, RecibirCancion(song))]
      ensures djs == old(djs) && rooms == old(rooms) && nextObjectId == old(nextObjectId) + 1
    {
      song := NewSongRequest(nextObjectId, titulo, artista, hora);
      nextObjectId := nextObjectId + 1;
      if salaId in parties {
        var before := parties[salaId].songRequests;
        parties := parties[salaId := parties[salaId].(songRequests := before + [song])];
        assert forall i :: 0 <= i < |before| ==> parties[salaId].songRequests[i] == before[i];
      }
      outbox := outbox + [ToRoom(salaId, RecibirCancion(song))];
    }

    /** `submit-rating`: the rating, dated now, is appended to the ratings of
        the party's owner. An unknown party changes nothing. The value is not
        range-checked. */
    method SubmitRating(partyId: string, rating: real, now: int)
      requires Valid()
      modifies this
      ensures Valid()
      ensures djs == (if partyId in old(parties) && old(parties)[partyId].djUsername in old(djs)
                      then var owner := old(parties)[partyId].djUsername;
                           old(djs)[owner := old(djs)[owner].(ratings := old(djs)[owner].ratings + [NewRating(rating, now)])]
                      else old(djs))
      ensures parties == old(parties) && rooms == old(rooms) && outbox == old(outbox) && nextObjectId == old(nextObjectId)
    {
      if partyId in parties {
        var owner := parties[partyId].djUsername;
        if owner in djs {
          djs := djs[owner := djs[owner].(ratings := djs[owner].ratings + [NewRating(rating, now)])];
        }
      }
    }

    /** `mark-song-as-played`: the request with that id is marked played,
        and `song-was-played` is broadcast on every call, whether or not the
        request exists or was already played. */
    method MarkSongAsPlayed(partyId: string, songId: ObjectId)
      requires Valid()
      modifies this
      ensures Valid()
      ensures parties == (if partyId in old(parties)
                          then old(parties)[partyId := old(parties)[partyId].(songRequests := MarkPlayed(old(parties)[partyId].songRequests, songId))]
                          else old(parties))
      ensures outbox == old(outbox) + [ToRoom(partyId, SongWasPlayed(songId))]
      ensures djs == old(djs) && rooms == old(rooms) && nextObjectId == old(nextObjectId)
    {
      if partyId in parties {
        var reqs := parties[partyId].songRequests;
        var marked := MarkPlayed(reqs, songId);
        parties := parties[partyId := parties[partyId].(songRequests := marked)];
        assert forall i :: 0 <= i < |marked| ==> marked[i].id == reqs[i].id;
      }
      outbox := outbox + [ToRoom(partyId, SongWasPlayed(songId))];
    }
  }

  /** A reset token works once: after a successful reset with it, a second
      reset with the same token fails, whatever the clock says. */
  method ResetTokenIsSingleUse(s: Server, token: string, first: string, second: string, now: int, later: int)
    returns (r1: Result<(), Failure>, r2: Result<(), Failure>)
    requires s.Valid()
    modifies s
    ensures r1.Ok? ==> r2 == Err(InvalidOrExpiredToken)
  {
    r1 := s.ResetPassword(token, first, now);
    if r1.Ok? {
      ghost var holders := TokenHolders(s.djs, token);
      forall u | u in s.djs ensures !ResetMatches(s.djs[u], token, later) {
        assert u !in holders;
      }
    }
    r2 := s.ResetPassword(token, second, later);
  }

  /** Every join to a party that has no requests yet counts as a party for
      the DJ, so two joins before the first request add two. */
  method JoinTwiceBeforeAnyRequest(s: Server, c1: ConnId, c2: ConnId, partyId: string, username: string)
    requires s.Valid() && username in s.djs
    requires partyId !in s.parties || s.parties[partyId].songRequests == []
    modifies s
    ensures username in s.djs && s.djs[username].partyCount == old(s.djs[username].partyCount) + 2
    ensures partyId in s.parties && s.parties[partyId].songRequests == []
  {
    s.JoinDjRoom(c1, partyId, Verified(username));
    s.JoinDjRoom(c2, partyId, Verified(username));
  }
}
