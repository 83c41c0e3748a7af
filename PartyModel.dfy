/** The party document: a party identified by its `partyId`, owned by one DJ,
    embedding the ordered list of song requests guests have made. */
module PartyModel {

  /** A MongoDB ObjectId. Ids are drawn from a counter that only grows, which
      is what makes every generated id fresh. */
  type ObjectId = nat

  /** One song request (`songRequestSchema`): title, artist, the request's
      time of day as text, and whether the DJ has played it. */
  datatype SongRequest = SongRequest(id: ObjectId, titulo: string, artista: string, hora: string, played: bool)

  /** A party (`partySchema`). */
  datatype Party = Party(partyId: string, djUsername: string, songRequests: seq<SongRequest>)

  /** A request record as the schema builds it: `played` takes its default. */
  function NewSongRequest(id: ObjectId, titulo: string, artista: string, hora: string): (r: SongRequest)
    ensures !r.played
    ensures r.id == id && r.titulo == titulo && r.artista == artista && r.hora == hora
  {
    SongRequest(id, titulo, artista, hora, false)
  }

  /** A party as the upsert's insert branch creates it: the given key and
      owner, and the default empty request list. */
  function NewParty(partyId: string, djUsername: string): (p: Party)
    ensures p.partyId == partyId && p.djUsername == djUsername && p.songRequests == []
  {
    Party(partyId, djUsername, [])
  }

  /** The schema's `required` validators: a required string must be non-empty. */
  predicate ValidSongRequest(r: SongRequest)
  {
    r.titulo != [] && r.artista != [] && r.hora != []
  }

  predicate ValidParty(p: Party)
  {
    && p.partyId != []
    && p.djUsername != []
    && forall i :: 0 <= i < |p.songRequests| ==> ValidSongRequest(p.songRequests[i])
  }

  /** The party collection, indexed by its unique key `partyId`. */
  type PartyStore = map<string, Party>

  /** Every stored party sits under its own `partyId`. */
  ghost predicate KeyedById(store: PartyStore)
  {
    forall k :: k in store ==> store[k].partyId == k
  }

  /** The unique index on `partyId`, restated for the keyed store: it follows
      at once from `KeyedById`, since two keys holding the same `partyId`
      are equal. */
  lemma AtMostOnePartyPerId(store: PartyStore, k1: string, k2: string)
    requires KeyedById(store)
    requires k1 in store && k2 in store
    requires store[k1].partyId == store[k2].partyId
    ensures k1 == k2 && store[k1] == store[k2]
  {
  }

  /** The ids of all requests of all stored parties, which are generated
      fresh, are pairwise different: a request belongs to exactly one party
      and occurs in it once. */
  ghost predicate RequestIdsUnique(store: PartyStore)
  {
    forall p, q, i, j ::
      p in store && q in store &&
      0 <= i < |store[p].songRequests| && 0 <= j < |store[q].songRequests| &&
      store[p].songRequests[i].id == store[q].songRequests[j].id
      ==> p == q && i == j
  }

  /** Every stored request id is below `bound`. */
  ghost predicate RequestIdsBelow(store: PartyStore, bound: ObjectId)
  {
    forall p, i :: p in store && 0 <= i < |store[p].songRequests| ==> store[p].songRequests[i].id < bound
  }

  /** No request in the list carries the id. */
  predicate IdAbsent(reqs: seq<SongRequest>, id: ObjectId)
  {
    forall i :: 0 <= i < |reqs| ==> reqs[i].id != id
  }
}
