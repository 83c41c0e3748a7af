/** The admin's DJ management page: the listing of accounts, the create
    form's guard, the password-change modal and its checks. */
module AdminDjs {
  import opened Common

  /** An account as the admin listing returns it; fields a document lacks
      are `None`. */
  datatype DjListing = DjListing(
    id: string,
    username: string,
    email: string,
    role: string,
    partyCount: Option<int>,
    activePartyIds: Option<seq<string>>)

  /** `activePartyIds ? activePartyIds.length : 0`. */
  function ActivePartyCount(d: DjListing): (n: nat)
    ensures d.activePartyIds.Some? ==> n == |d.activePartyIds.value|
    ensures d.activePartyIds.None? ==> n == 0
  {
    if d.activePartyIds.Some? then |d.activePartyIds.value| else 0
  }

  /** The accounts with role `'dj'`, in listing order (`filter`): the DJ
      selectors of the party and wishlist admin pages list these. The DJ
      management page itself lists every account. */
  function DjAccounts(djs: seq<DjListing>): (r: seq<DjListing>)
    ensures |r| <= |djs|
    ensures forall d :: d in r <==> d in djs && d.role == "dj"
  {
    if djs == [] then []
    else (if djs[0].role == "dj" then [djs[0]] else []) + DjAccounts(djs[1..])
  }

  /** The filter works piecewise, so the kept accounts keep their order. */
  lemma {:induction false} DjAccountsAppend(a: seq<DjListing>, b: seq<DjListing>)
    ensures DjAccounts(a + b) == DjAccounts(a) + DjAccounts(b)
  {
    if a == [] {
      assert a + b == b;
    } else {
      assert (a + b)[1..] == a[1..] + b;
      DjAccountsAppend(a[1..], b);
    }
  }

  /** The buttons a DJ card carries. */
  datatype CardAction = ChangePasswordAction | DeleteAction

  /** Every card offers a password change; only non-admin accounts can be
      deleted. */
  function CardActions(d: DjListing): (actions: set<CardAction>)
    ensures ChangePasswordAction in actions
    ensures DeleteAction in actions <==> d.role != "admin"
  {
    if d.role != "admin" then {ChangePasswordAction, DeleteAction} else {ChangePasswordAction}
  }

  /** The body posted to create a DJ. */
  datatype NewDjBody = NewDjBody(username: string, email: string, password: string)

  datatype FormError = MissingField

  /** `createDJ`: username and email are trimmed, the password is sent as
      typed; any of the three empty refuses the submission. */
  function CreateDjRequest(username: string, email: string, password: string): (r: Result<NewDjBody, FormError>)
    ensures r.Err? <==> AllSpace(username) || AllSpace(email) || password == []
    ensures r.Ok? ==> r.value == NewDjBody(Trim(username), Trim(email), password)
    ensures r.Ok? ==> r.value.username != [] && r.value.email != []
  {
    TrimEmptyIff(username);
    TrimEmptyIff(email);
    var u := Trim(username);
    var e := Trim(email);
    if u == [] || e == [] || password == [] then Err(MissingField) else Ok(NewDjBody(u, e, password))
  }

  datatype PasswordError = Mismatch | TooShort

  const MinPasswordLength := 6

  /** `changePassword`'s checks: a mismatch is reported first, then a
      password shorter than six characters. */
  function CheckNewPassword(newPassword: string, confirmPassword: string): (r: Result<string, PasswordError>)
    ensures newPassword != confirmPassword ==> r == Err(Mismatch)
    ensures newPassword == confirmPassword && |newPassword| < 6 ==> r == Err(TooShort)
    ensures r.Ok? <==> newPassword == confirmPassword && |newPassword| >= 6
    ensures r.Ok? ==> r.value == newPassword
  {
    if newPassword != confirmPassword then Err(Mismatch)
    else if |newPassword| < MinPasswordLength then Err(TooShort)
    else Ok(newPassword)
  }

  /** The password-change request: the account id in the URL (the modal's
      `currentDJId`, possibly unset) and the new password. */
  datatype PasswordChange = PasswordChange(djId: Option<string>, password: string)

  class AdminDjsPage {
    var currentDJId: Option<string>

    constructor ()
      ensures currentDJId.None?
    {
      currentDJId := None;
    }

    method OpenPasswordModal(djId: string)
      modifies this
      ensures currentDJId == Some(djId)
    {
      currentDJId := Some(djId);
    }

    /** Called on cancel and after a successful change. */
    method ClosePasswordModal()
      modifies this
      ensures currentDJId.None?
    {
      currentDJId := None;
    }

    /** The submit handler up to the request: the checks, then the request
        for the account the modal was opened for. */
    method SubmitPasswordChange(newPassword: string, confirmPassword: string) returns (r: Result<PasswordChange, PasswordError>)
      ensures r.Err? <==> newPassword != confirmPassword || |newPassword| < 6
      ensures newPassword != confirmPassword ==> r == Err(Mismatch)
      ensures newPassword == confirmPassword && |newPassword| < 6 ==> r == Err(TooShort)
      ensures r.Ok? ==> r.value == PasswordChange(currentDJId, newPassword)
    {
      var check := CheckNewPassword(newPassword, confirmPassword);
      if check.Err? {
        r := Err(check.error);
      } else {
        r := Ok(PasswordChange(currentDJId, check.value));
      }
    }
  }
}
