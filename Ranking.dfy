/** The `/ranking` route: each DJ's rating count and average, sorted with
    rated DJs first, by descending average. Averages are exact rationals. */
module Ranking {
  import opened Common
  import opened DjModel
  import Server

  /** One row of the ranking; `averageRating` is `None` for the
      "Sin valoraciones" sentinel. */
  datatype RankEntry = RankEntry(username: string, partyCount: int, averageRating: Option<real>, totalRatings: nat)

  /** `ratings.reduce((acc, r) => acc + r.value, 0)`. */
  function SumValues(rs: seq<Rating>): real
  {
    if rs == [] then 0.0 else SumValues(rs[..|rs| - 1]) + rs[|rs| - 1].value
  }

  /** The row for one DJ: the number of ratings, and their mean when there
      is at least one. */
  function EntryOf(d: Dj): (e: RankEntry)
    ensures e.username == d.username && e.partyCount == d.partyCount
    ensures e.totalRatings == |d.ratings|
    ensures e.averageRating.None? <==> d.ratings == []
    ensures e.averageRating.Some? ==> e.averageRating.value * (|d.ratings| as real) == SumValues(d.ratings)
  {
    var n := |d.ratings|;
    RankEntry(d.username, d.partyCount,
              if n > 0 then Some(SumValues(d.ratings) / n as real) else None,
              n)
  }

  /** The sort's comparator: positive when `a` goes after `b`. */
  function Compare(a: RankEntry, b: RankEntry): real
  {
    if a.averageRating.None? then 1.0
    else if b.averageRating.None? then -1.0
    else b.averageRating.value - a.averageRating.value
  }

  /** `a` may stand before `b` in the ranking. */
  predicate RanksAbove(a: RankEntry, b: RankEntry)
  {
    match (a.averageRating, b.averageRating)
    case (Some(x), Some(y)) => x >= y
    case (Some(_), None) => true
    case (None, None) => true
    case (None, Some(_)) => false
  }

  ghost predicate Sorted(s: seq<RankEntry>)
  {
    forall i, j :: 0 <= i < j < |s| ==> RanksAbove(s[i], s[j])
  }

  /** Inserts `e` before the first row it ranks above. */
  function Insert(e: RankEntry, s: seq<RankEntry>): (r: seq<RankEntry>)
    requires Sorted(s)
    ensures Sorted(r)
    ensures multiset(r) == multiset(s) + multiset{e}
  {
    if s == [] then [e]
    else if RanksAbove(e, s[0]) then [e] + s
    else
      var rest := Insert(e, s[1..]);
      assert s == [s[0]] + s[1..];
      forall x | x in rest ensures RanksAbove(s[0], x) {
        assert x in multiset(rest);
      }
      [s[0]] + rest
  }

  /** An insertion sort by `RanksAbove`. */
  function Sort(s: seq<RankEntry>): (r: seq<RankEntry>)
    ensures Sorted(r)
    ensures multiset(r) == multiset(s)
  {
    if s == [] then []
    else
      assert s == [s[0]] + s[1..];
      Insert(s[0], Sort(s[1..]))
  }

  function Entries(docs: seq<Dj>): (r: seq<RankEntry>)
    ensures |r| == |docs|
    ensures forall i :: 0 <= i < |docs| ==> r[i] == EntryOf(docs[i])
  {
    if docs == [] then [] else [EntryOf(docs[0])] + Entries(docs[1..])
  }

  /** The ranking of the DJ documents: one row per DJ, every rated DJ before
      every unrated one, rated DJs by descending average. */
  function RankingOf(docs: seq<Dj>): (r: seq<RankEntry>)
    ensures multiset(r) == multiset(Entries(docs))
    ensures |r| == |docs|
    ensures forall i, j :: 0 <= i < j < |r| && r[j].averageRating.Some? ==> r[i].averageRating.Some?
    ensures forall i, j :: 0 <= i < j < |r| && r[i].averageRating.Some? && r[j].averageRating.Some? ==>
      r[i].averageRating.value >= r[j].averageRating.value
  {
    var r := Sort(Entries(docs));
    assert |r| == |multiset(r)| == |multiset(Entries(docs))|;
    assert forall i, j :: 0 <= i < j < |r| ==> RanksAbove(r[i], r[j]);
    r
  }

  /** Every DJ has its row in the ranking, and every row is some DJ's. */
  lemma RankingRowsAreEntries(docs: seq<Dj>)
    ensures forall i :: 0 <= i < |docs| ==> EntryOf(docs[i]) in RankingOf(docs)
    ensures forall e :: e in RankingOf(docs) ==> exists i :: 0 <= i < |docs| && e == EntryOf(docs[i])
  {
    var r := RankingOf(docs);
    var es := Entries(docs);
    forall i | 0 <= i < |docs| ensures EntryOf(docs[i]) in r {
      assert es[i] in multiset(es);
      assert es[i] in multiset(r);
    }
    forall e | e in r ensures exists i :: 0 <= i < |docs| && e == EntryOf(docs[i]) {
      assert e in multiset(r);
      assert e in multiset(es);
      var i :| 0 <= i < |es| && es[i] == e;
      assert e == EntryOf(docs[i]);
    }
  }

  /** The order agrees with the route's comparator: a rated row is never
      placed after a row the comparator would put behind it. */
  lemma RankingAgreesWithComparator(docs: seq<Dj>)
    ensures forall i, j :: 0 <= i < j < |RankingOf(docs)| && RankingOf(docs)[i].averageRating.Some? ==>
      Compare(RankingOf(docs)[i], RankingOf(docs)[j]) <= 0.0
  {
  }

  /** `/ranking` behind `authenticateToken`. */
  function RankingRoute(auth: Server.Auth, docs: seq<Dj>): (r: Result<seq<RankEntry>, Server.Failure>)
    ensures auth.NoToken? ==> r == Err(Server.Unauthorized)
    ensures auth.Rejected? ==> r == Err(Server.Forbidden)
    ensures auth.Verified? ==> r == Ok(RankingOf(docs)) && |r.value| == |docs|
  {
    match auth
    case NoToken => Err(Server.Unauthorized)
    case Rejected => Err(Server.Forbidden)
    case Verified(_) => Ok(RankingOf(docs))
  }
}
