/** The admin's party page: the DJ selector with its three-active-parties
    gating, and the create form's guard. */
module AdminParties {
  import opened Common
  import opened AdminDjs

  const MaxActiveParties := 3

  /** One option of the DJ selector. */
  datatype DjOption = DjOption(username: string, activeParties: nat, disabled: bool)

  /** A DJ's option: disabled exactly when three or more parties are
      active. */
  function OptionFor(d: DjListing): (o: DjOption)
    ensures o.username == d.username && o.activeParties == ActivePartyCount(d)
    ensures o.disabled <==> o.activeParties >= 3
  {
    var n := ActivePartyCount(d);
    DjOption(d.username, n, n >= MaxActiveParties)
  }

  /** `loadDJs`: one option per role-`'dj'` account, in listing order. */
  function DjOptions(djs: seq<DjListing>): (opts: seq<DjOption>)
    ensures |opts| == |DjAccounts(djs)|
    ensures forall i :: 0 <= i < |opts| ==> opts[i] == OptionFor(DjAccounts(djs)[i])
  {
    var accounts := DjAccounts(djs);
    seq(|accounts|, i requires 0 <= i < |accounts| => OptionFor(accounts[i]))
  }

  /** Only DJ-role accounts are offered, each of them is, and an option can
      be chosen exactly while its DJ has fewer than three active parties. */
  lemma OffersExactlyTheDjs(djs: seq<DjListing>)
    ensures forall o :: o in DjOptions(djs) ==>
      (exists d :: d in djs && d.role == "dj" && o == OptionFor(d)) && (o.disabled <==> o.activeParties >= 3)
    ensures forall d :: d in djs && d.role == "dj" ==> OptionFor(d) in DjOptions(djs)
  {
    var opts := DjOptions(djs);
    var accounts := DjAccounts(djs);
    forall o | o in opts
      ensures exists d :: d in djs && d.role == "dj" && o == OptionFor(d)
    {
      var i :| 0 <= i < |opts| && opts[i] == o;
      assert accounts[i] in accounts;
    }
    forall d | d in djs && d.role == "dj"
      ensures OptionFor(d) in opts
    {
      var i :| 0 <= i < |accounts| && accounts[i] == d;
      assert opts[i] == OptionFor(d);
    }
  }

  /** The body posted to create a party. */
  datatype NewPartyBody = NewPartyBody(partyName: string, djUsername: string)

  /** `createParty`: the name is trimmed and the selected DJ sent as is;
      either empty refuses the submission. */
  function CreatePartyRequest(partyName: string, djUsername: string): (r: Result<NewPartyBody, FormError>)
    ensures r.Err? <==> AllSpace(partyName) || djUsername == []
    ensures r.Ok? ==> r.value == NewPartyBody(Trim(partyName), djUsername) && r.value.partyName != []
  {
    TrimEmptyIff(partyName);
    var name := Trim(partyName);
    if name == [] || djUsername == [] then Err(MissingField) else Ok(NewPartyBody(name, djUsername))
  }
}
