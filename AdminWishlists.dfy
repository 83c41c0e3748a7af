/** The admin's wishlist page: the DJ selector, the create form's guard and
    the name of the exported PDF. */
module AdminWishlists {
  import opened Common
  import opened AdminDjs

  /** One option of the DJ selector: the DJ and the parties it has held. */
  datatype DjChoice = DjChoice(username: string, partyCount: int)

  /** `dj.partyCount || 0`: a missing count shows as 0. */
  function ChoiceFor(d: DjListing): (c: DjChoice)
    ensures c.username == d.username
    ensures d.partyCount.Some? ==> c.partyCount == d.partyCount.value
    ensures d.partyCount.None? ==> c.partyCount == 0
  {
    DjChoice(d.username, if d.partyCount.Some? then d.partyCount.value else 0)
  }

  /** `loadDJs`: one option per role-`'dj'` account, in listing order. */
  function DjChoices(djs: seq<DjListing>): (cs: seq<DjChoice>)
    ensures |cs| == |DjAccounts(djs)|
    ensures forall i :: 0 <= i < |cs| ==> cs[i] == ChoiceFor(DjAccounts(djs)[i])
  {
    var accounts := DjAccounts(djs);
    seq(|accounts|, i requires 0 <= i < |accounts| => ChoiceFor(accounts[i]))
  }

  /** Only DJ-role accounts are listed, and each of them is. */
  lemma ListsExactlyTheDjs(djs: seq<DjListing>)
    ensures forall c :: c in DjChoices(djs) ==> exists d :: d in djs && d.role == "dj" && c == ChoiceFor(d)
    ensures forall d :: d in djs && d.role == "dj" ==> ChoiceFor(d) in DjChoices(djs)
  {
    var cs := DjChoices(djs);
    var accounts := DjAccounts(djs);
    forall c | c in cs
      ensures exists d :: d in djs && d.role == "dj" && c == ChoiceFor(d)
    {
      var i :| 0 <= i < |cs| && cs[i] == c;
      assert accounts[i] in accounts;
    }
    forall d | d in djs && d.role == "dj"
      ensures ChoiceFor(d) in cs
    {
      var i :| 0 <= i < |accounts| && accounts[i] == d;
      assert cs[i] == ChoiceFor(d);
    }
  }

  /** The body posted to create a wishlist for a DJ. */
  datatype NewWishlistBody = NewWishlistBody(name: string, description: string, eventDate: string, djUsername: string)

  /** `createWishlist`: name and description are trimmed; a blank name or
      no selected DJ refuses the submission. */
  function CreateWishlistRequest(name: string, description: string, eventDate: string, djUsername: string)
    : (r: Result<NewWishlistBody, FormError>)
    ensures r.Err? <==> AllSpace(name) || djUsername == []
    ensures r.Ok? ==> r.value == NewWishlistBody(Trim(name), Trim(description), eventDate, djUsername)
    ensures r.Ok? ==> r.value.name != []
  {
    TrimEmptyIff(name);
    var n := Trim(name);
    if n == [] || djUsername == [] then Err(MissingField)
    else Ok(NewWishlistBody(n, Trim(description), eventDate, djUsername))
  }

  // ---------------------------------------------------------------------
  // PDF file name
  // ---------------------------------------------------------------------

  predicate IsAsciiAlnum(c: char)
  {
    ('A' <= c <= 'Z') || ('a' <= c <= 'z') || ('0' <= c <= '9')
  }

  /** `replace(/[^a-zA-Z0-9]/g, '_')`: each character that is not an ASCII
      letter or digit becomes one '_'; letters and digits stay in place. */
  function Sanitize(s: string): (r: string)
    ensures |r| == |s|
    ensures forall i :: 0 <= i < |s| ==> r[i] == (if IsAsciiAlnum(s[i]) then s[i] else '_')
  {
    if s == [] then [] else [if IsAsciiAlnum(s[0]) then s[0] else '_'] + Sanitize(s[1..])
  }

  /** The sanitised name holds only letters, digits and '_', and sanitising
      it again changes nothing. */
  lemma SanitizeIsClean(s: string)
    ensures forall i :: 0 <= i < |Sanitize(s)| ==> IsAsciiAlnum(Sanitize(s)[i]) || Sanitize(s)[i] == '_'
    ensures Sanitize(Sanitize(s)) == Sanitize(s)
  {
    var r := Sanitize(s);
    assert forall i :: 0 <= i < |r| ==> Sanitize(r)[i] == r[i];
  }

  /** `split('T')[0]`: the text before the first 'T', or all of it. */
  function BeforeT(s: string): (r: string)
    ensures |r| <= |s| && r == s[..|r|]
    ensures forall i :: 0 <= i < |r| ==> r[i] != 'T'
    ensures |r| < |s| ==> s[|r|] == 'T'
  {
    if s == [] || s[0] == 'T' then [] else [s[0]] + BeforeT(s[1..])
  }

  /** An ISO-8601 timestamp as `toISOString` writes it: a ten-character date
      `YYYY-MM-DD` followed by 'T' and the time. */
  predicate IsIsoTimestamp(iso: string)
  {
    && |iso| > 10 && iso[10] == 'T'
    && (forall i :: 0 <= i < 10 && i != 4 && i != 7 ==> '0' <= iso[i] <= '9')
    && iso[4] == '-' && iso[7] == '-'
  }

  /** For a timestamp, the part before 'T' is exactly its date. */
  lemma BeforeTOfIso(iso: string)
    requires IsIsoTimestamp(iso)
    ensures BeforeT(iso) == iso[..10]
  {
    assert forall i :: 0 <= i < 10 ==> iso[i] != 'T';
  }

  /** The exported file's name: `wishlist_`, the sanitised wishlist name,
      `_`, the date part of the timestamp, `.pdf`. */
  function PdfFileName(name: string, isoNow: string): (f: string)
    ensures StartsWith(f, "wishlist_")
    ensures |f| == 9 + |name| + 1 + |BeforeT(isoNow)| + 4
    ensures f[9..9 + |name|] == Sanitize(name) && f[9 + |name|] == '_'
    ensures f[9 + |name| + 1..|f| - 4] == BeforeT(isoNow)
    ensures f[|f| - 4..] == ".pdf"
  {
    "wishlist_" + Sanitize(name) + "_" + BeforeT(isoNow) + ".pdf"
  }

  /** With a `toISOString` timestamp the file name is
      `wishlist_<sanitised name>_YYYY-MM-DD.pdf`. */
  lemma PdfFileNameOfIso(name: string, isoNow: string)
    requires IsIsoTimestamp(isoNow)
    ensures PdfFileName(name, isoNow) == "wishlist_" + Sanitize(name) + "_" + isoNow[..10] + ".pdf"
  {
    BeforeTOfIso(isoNow);
  }
}
