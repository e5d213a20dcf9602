/** POST /api/rankings/initial: the bulk ranking that sets every position of a user at once. */
module InitialRankingRoute {
  import opened Common
  import opened Positions
  import opened RatingTable

  datatype InitialResponse = Success | InitialError(status: int, error: string)

  predicate Increasing(s: seq<RatingId>) {
    forall i, j :: 0 <= i < j < |s| ==> s[i] < s[j]
  }

  /** The user's ids not mentioned in `ordered`, kept in their original order. */
  function Remaining(ids: seq<RatingId>, ordered: seq<RatingId>): (r: seq<RatingId>)
    ensures |r| <= |ids|
    ensures forall x :: x in r <==> x in ids && x !in ordered
    ensures Increasing(ids) ==> Increasing(r)
  {
    if ids == [] then []
    else
      var rest := Remaining(ids[1..], ordered);
      if ids[0] in ordered then rest
      else
        assert Increasing(ids) ==> forall k :: 0 <= k < |rest| ==> ids[0] < rest[k] by {
          if Increasing(ids) {
            forall k | 0 <= k < |rest|
              ensures ids[0] < rest[k]
            {
              assert rest[k] in ids[1..];
              var j :| 0 <= j < |ids| - 1 && ids[1..][j] == rest[k];
              assert ids[j + 1] == rest[k];
            }
          }
        }
        [ids[0]] + rest
  }

  /** `finalOrder`: the submitted ids followed by the ones the client left out. */
  function FinalOrder(ids: seq<RatingId>, ordered: seq<RatingId>): seq<RatingId> {
    ordered + Remaining(ids, ordered)
  }

  lemma {:induction false} DistinctCounts(s: seq<RatingId>)
    requires Distinct(s)
    ensures forall x :: multiset(s)[x] == if x in s then 1 else 0
  {
    if s != [] {
      assert s == [s[0]] + s[1..];
      assert s[0] !in s[1..];
      DistinctCounts(s[1..]);
    }
  }

  /** With a duplicate-free submission that names only the user's ratings, `finalOrder`
      lists every rating of the user exactly once. */
  lemma FinalOrderPermutation(ids: seq<RatingId>, ordered: seq<RatingId>)
    requires Increasing(ids) && Distinct(ordered)
    requires forall x :: x in ordered ==> x in ids
    ensures Distinct(FinalOrder(ids, ordered))
    ensures multiset(FinalOrder(ids, ordered)) == multiset(ids)
    ensures |FinalOrder(ids, ordered)| == |ids|
  {
    var rest := Remaining(ids, ordered);
    var f := FinalOrder(ids, ordered);
    forall i, j | 0 <= i < j < |f|
      ensures f[i] != f[j]
    {
      if j < |ordered| {
      } else if i < |ordered| {
        assert f[j] == rest[j - |ordered|];
        assert f[j] in rest;
      } else {
        assert f[i] == rest[i - |ordered|] && f[j] == rest[j - |ordered|];
      }
    }
    assert Distinct(ids);
    DistinctCounts(f);
    DistinctCounts(ids);
    assert forall x :: x in f <==> x in ids;
    assert multiset(f) == multiset(ids);
  }

  /** The ids of a user's ratings are listed in creation order, which is increasing id order. */
  lemma UserIdsIncreasing(rows: seq<Rating>, user: UserId)
    requires CreationOrdered(rows)
    ensures Increasing(UserIds(rows, user))
  {
    UserRowsCreationOrdered(rows, user);
  }

  /** What a successful submission does to the table: each rating of the user gets the
      position of its index in `finalOrder` and the score derived from that position, the
      positions strictly increase along `finalOrder`, and no other user's rating changes. */
  lemma InitialRankingEffect(rows: seq<Rating>, user: UserId, ordered: seq<RatingId>)
    requires CreationOrdered(rows) && Distinct(ordered)
    requires forall x :: x in ordered ==> x in UserIds(rows, user)
    ensures var f := FinalOrder(UserIds(rows, user), ordered);
      var r := Respaced(rows, f, |f|, true);
      && SameRows(rows, r)
      && (forall m :: 0 <= m < |rows| && rows[m].userId == user ==> rows[m].id in f)
      && (forall m, j :: 0 <= m < |rows| && 0 <= j < |f| && rows[m].id == f[j] ==>
            r[m].position == Some(NormalizePosition(j, |f|))
            && r[m].rating == PositionToRating(NormalizePosition(j, |f|)))
      && (forall m :: 0 <= m < |rows| && rows[m].userId != user ==> r[m] == rows[m])
  {
    var ids := UserIds(rows, user);
    var f := FinalOrder(ids, ordered);
    UserIdsIncreasing(rows, user);
    FinalOrderPermutation(ids, ordered);
    RespacedEffect(rows, f, true);
    forall m | 0 <= m < |rows| && rows[m].userId == user
      ensures rows[m].id in f
    {
      UserIdsMembership(rows, user, rows[m].id);
      assert rows[m].id in multiset(ids);
    }
    forall m | 0 <= m < |rows| && rows[m].userId != user
      ensures rows[m].id !in f
    {
      if rows[m].id in f {
        assert rows[m].id in multiset(f);
        UserIdsMembership(rows, user, rows[m].id);
        assert false;
      }
    }
  }

  /** The positions written along `finalOrder` strictly increase, lie in (0, 1), and the
      scores derived from them never decrease. */
  lemma InitialPositionsOrdered(n: nat, i: nat, j: nat)
    requires i < j < n
    ensures 0.0 < NormalizePosition(i, n) < NormalizePosition(j, n) < 1.0
    ensures PositionToRating(NormalizePosition(i, n)) <= PositionToRating(NormalizePosition(j, n))
  {
    NormalizeStrictlyIncreasing(i, j, n);
    PositionToRatingMonotone(NormalizePosition(i, n), NormalizePosition(j, n));
  }

  /** POST /api/rankings/initial. Every failure leaves the database as it was; the writes of
      a success (all positions, scores and the flag) form one batch. */
  method PostInitial(db: Db, session: Option<UserId>, orderedIds: Option<seq<RatingId>>) returns (resp: InitialResponse)
    requires db.Valid()
    modifies db
    ensures db.Valid()
    ensures resp.InitialError? ==>
      db.ratings == old(db.ratings) && db.stackRanked == old(db.stackRanked)
      && db.activities == old(db.activities) && db.nextId == old(db.nextId) && db.clock == old(db.clock)
    ensures session.None? ==> resp == InitialError(401, "Unauthorized - Please sign in")
    ensures session.Some? && (orderedIds.None? || orderedIds.value == []) ==>
      resp == InitialError(400, "Please provide the ordered rating ids")
    ensures session.Some? && orderedIds.Some? && orderedIds.value != [] && CountFor(old(db.ratings), session.value) < 10 ==>
      resp == InitialError(400, "At least 10 ratings are required before ranking")
    ensures session.Some? && orderedIds.Some? && orderedIds.value != [] && CountFor(old(db.ratings), session.value) >= 10
            && (exists x :: x in orderedIds.value && x !in UserIds(old(db.ratings), session.value)) ==>
      resp == InitialError(400, "One or more ratings are invalid")
    ensures resp == Success <==>
      && session.Some? && orderedIds.Some? && orderedIds.value != []
      && CountFor(old(db.ratings), session.value) >= 10
      && (forall x :: x in orderedIds.value ==> x in UserIds(old(db.ratings), session.value))
      && session.value in old(db.stackRanked)
    ensures resp == Success ==>
      var f := FinalOrder(UserIds(old(db.ratings), session.value), orderedIds.value);
      && db.ratings == Respaced(old(db.ratings), f, |f|, true)
      && db.stackRanked == old(db.stackRanked)[session.value := true]
      && db.activities == old(db.activities) && db.nextId == old(db.nextId) && db.clock == old(db.clock)
  {
    if session.None? {
      return InitialError(401, "Unauthorized - Please sign in");
    }
    var u := session.value;
    if orderedIds.None? || |orderedIds.value| == 0 {
      return InitialError(400, "Please provide the ordered rating ids");
    }
    var ordered := orderedIds.value;
    var ids := UserIds(db.ratings, u);
    if |ids| < 10 {
      return InitialError(400, "At least 10 ratings are required before ranking");
    }
    if exists x :: x in ordered && x !in ids {
      return InitialError(400, "One or more ratings are invalid");
    }
    if u !in db.stackRanked {
      // The user update inside the transaction fails, so none of the batch is applied.
      return InitialError(500, "Failed to save ranking");
    }
    Commit(db, u, FinalOrder(ids, ordered));
    resp := Success;
  }

  /** The transaction: every listed row respaced and rescored, and the user's flag set. */
  method Commit(db: Db, u: UserId, order: seq<RatingId>)
    requires db.Valid() && u in db.stackRanked
    modifies db
    ensures db.Valid()
    ensures db.ratings == Respaced(old(db.ratings), order, |order|, true)
    ensures db.stackRanked == old(db.stackRanked)[u := true]
    ensures db.activities == old(db.activities) && db.nextId == old(db.nextId) && db.clock == old(db.clock)
  {
    db.Respace(order, true);
    db.stackRanked := db.stackRanked[u := true];
  }
}
