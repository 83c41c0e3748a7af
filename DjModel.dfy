/** The DJ account document: credentials, role, reset token, the lifetime
    party counter, the ratings guests gave, and the active-party fields. */
module DjModel {
  import opened Common

  datatype Role = DjRole | AdminRole

  /** The stored spelling of a role. */
  function RoleName(r: Role): string
  {
    match r
    case DjRole => "dj"
    case AdminRole => "admin"
  }

  /** The schema's `enum: ['dj', 'admin']` check on a stored role string. */
  function ParseRole(s: string): (r: Option<Role>)
    ensures r.Some? <==> (s == "dj" || s == "admin")
    ensures r.Some? ==> RoleName(r.value) == s
  {
    if s == "dj" then Some(DjRole)
    else if s == "admin" then Some(AdminRole)
    else None
  }

  /** The two spellings are distinct, so parsing undoes naming. */
  lemma RoleRoundTrip(r: Role)
    ensures ParseRole(RoleName(r)) == Some(r)
  {
  }

  /** A guest's rating: a value and the time it was stored, in milliseconds.
      The schema's `Number` takes any number, fractions included, so the
      value is a `real`. */
  datatype Rating = Rating(value: real, date: int)

  /** A rating as the schema builds it: `date` defaults to the current time. */
  function NewRating(value: real, now: int): (r: Rating)
    ensures r.value == value && r.date == now
  {
    Rating(value, now)
  }

  const DefaultMaxSimultaneousParties: int := 3

  /** The DJ document. `activePartyIds` and `maxSimultaneousParties` are the
      schema's fields; `activePartyId` is the single field the server writes
      and reads. */
  datatype Dj = Dj(
    username: string,
    email: string,
    password: string,
    role: Role,
    resetToken: Option<string>,
    resetExpires: Option<int>,
    partyCount: int,
    ratings: seq<Rating>,
    activePartyIds: seq<string>,
    maxSimultaneousParties: int,
    activePartyId: Option<string>)

  /** A new account as `new DJ({ username, email, password })` builds it:
      every other field takes its schema default. */
  function NewDj(username: string, email: string, password: string): (d: Dj)
    ensures d.username == username && d.email == email && d.password == password
    ensures d.role == DjRole && RoleName(d.role) == "dj"
    ensures d.partyCount == 0 && d.ratings == []
    ensures d.activePartyIds == [] && d.maxSimultaneousParties == 3
    ensures d.resetToken.None? && d.resetExpires.None? && d.activePartyId.None?
  {
    Dj(username, email, password, DjRole, None, None, 0, [], [], DefaultMaxSimultaneousParties, None)
  }

  /** The schema's `required` validators. */
  predicate ValidDj(d: Dj)
  {
    d.username != [] && d.email != [] && d.password != []
  }

  /** The DJ collection, indexed by username. */
  type DjStore = map<string, Dj>

  /** Every account sits under its own username (the unique username index). */
  ghost predicate KeyedByUsername(store: DjStore)
  {
    forall u :: u in store ==> store[u].username == u
  }

  /** The unique email index. */
  ghost predicate EmailsUnique(store: DjStore)
  {
    forall u, v :: u in store && v in store && store[u].email == store[v].email ==> u == v
  }

  /** Some account uses this email. */
  ghost predicate EmailTaken(store: DjStore, email: string)
  {
    exists u :: u in store && store[u].email == email
  }
}
