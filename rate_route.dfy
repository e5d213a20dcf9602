/** POST /api/movies/rate: validation, the rating gate, the position allocator with its
    one-time rebalance, and the upsert of the rating with its activity. */
module RateRoute {
  import opened Common
  import opened Positions
  import opened RatingTable
  import opened RankingState

  datatype MovieInfo = MovieInfo(title: Option<string>, posterPath: Option<string>, releaseDate: Option<string>)

  /** The request body. `tmdbId` is `Number(body.tmdbId)`, None standing for NaN; a missing
      field is None. */
  datatype RateBody = RateBody(
    tmdbId: Option<int>,
    category: Option<string>,
    movie: Option<MovieInfo>,
    placement: Option<Placement>)

  datatype RateResponse = Saved(rating: Rating) | RateError(status: int, error: string)

  /** The category names CATEGORY_VALUE knows. */
  function ParseCategory(s: Option<string>): (c: Option<RatingCategory>)
    ensures c == Some(Bad) <==> s == Some("bad")
    ensures c == Some(Ok) <==> s == Some("ok")
    ensures c == Some(Great) <==> s == Some("great")
  {
    match s
    case Some("bad") => Some(Bad)
    case Some("ok") => Some(Ok)
    case Some("great") => Some(Great)
    case _ => None
  }

  datatype CheckedBody =
    | Accepted(category: RatingCategory, tmdbId: int, title: string)
    | Rejected(error: string)

  /** The three 400 checks made before the session is even looked at, in their order. */
  function CheckBody(body: RateBody): (r: CheckedBody)
    ensures r.Accepted? <==>
      && ParseCategory(body.category).Some?
      && body.tmdbId.Some? && body.tmdbId.value != 0
      && body.movie.Some? && body.movie.value.title.Some? && body.movie.value.title.value != ""
    ensures ParseCategory(body.category).None? ==> r == Rejected("Invalid rating category")
    ensures ParseCategory(body.category).Some? && (body.tmdbId.None? || body.tmdbId.value == 0) ==>
      r == Rejected("Missing tmdbId")
    ensures ParseCategory(body.category).Some? && body.tmdbId.Some? && body.tmdbId.value != 0
            && (body.movie.None? || body.movie.value.title.None? || body.movie.value.title.value == "") ==>
      r == Rejected("Movie title is required")
    ensures r.Accepted? ==>
      Some(r.category) == ParseCategory(body.category) && Some(r.tmdbId) == body.tmdbId
      && Some(r.title) == body.movie.value.title
  {
    match ParseCategory(body.category)
    case None => Rejected("Invalid rating category")
    case Some(c) =>
      if body.tmdbId.None? || body.tmdbId.value == 0 then Rejected("Missing tmdbId")
      else if body.movie.None? || body.movie.value.title.None? || body.movie.value.title.value == "" then
        Rejected("Movie title is required")
      else Accepted(c, body.tmdbId.value, body.movie.value.title.value)
  }

  datatype PositionPlan = UseDefault | UsePlacement(placement: Placement) | Refuse(status: int, error: string)

  /** How the position of a new rating is chosen from the user's rating count and flag. */
  function PlanPosition(totalRatings: nat, initialStackRanked: bool, placement: Option<Placement>): (plan: PositionPlan)
    ensures (plan.Refuse? && plan.status == 409) <==> NeedsInitialRanking(totalRatings, initialStackRanked)
    ensures plan == UseDefault <==> totalRatings < 10
    ensures plan.UsePlacement? <==> totalRatings >= 10 && initialStackRanked && placement.Some?
    ensures plan.UsePlacement? ==> plan.placement == placement.value
    ensures (plan.Refuse? && plan.status == 400) <==> totalRatings >= 10 && initialStackRanked && placement.None?
  {
    if totalRatings >= 10 && !initialStackRanked then
      Refuse(409, "Stack ranking required before adding more reviews")
    else if totalRatings < 10 then UseDefault
    else if placement.None? then Refuse(400, "Placement details are required")
    else UsePlacement(placement.value)
  }

  /** The rate route refuses with 409 exactly when the state route reports that the initial
      ranking is needed, for the same count and flag. */
  lemma GateAgreesWithState(rows: seq<Rating>, users: map<UserId, bool>, u: UserId, placement: Option<Placement>)
    requires u in users
    ensures var plan := PlanPosition(CountFor(rows, u), users[u], placement);
      (plan.Refuse? && plan.status == 409) <==> GetState(rows, users, Some(u)).payload.needsInitialRanking
  {
  }

  /** A submission without placement from a user past the threshold who has completed the
      initial ranking is refused with 400. */
  lemma MissingPlacementRefused(totalRatings: nat)
    requires totalRatings >= 10
    ensures PlanPosition(totalRatings, true, None) == Refuse(400, "Placement details are required")
  {
  }

  function RowById(rows: seq<Rating>, id: RatingId): Option<Rating> {
    match IndexOfId(rows, id)
    case None => None
    case Some(k) => Some(rows[k])
  }

  /** The database order `position asc, createdAt asc` (nulls last). */
  predicate ByPosition(a: Rating, b: Rating) {
    match (a.position, b.position)
    case (Some(p), Some(q)) => p < q || (p == q && a.createdAt <= b.createdAt)
    case (Some(_), None) => true
    case (None, Some(_)) => false
    case (None, None) => a.createdAt <= b.createdAt
  }

  /** `sorted` is what the query in rebalancePositions returns: the user's rating ids, each
      once, ordered by position then creation time. */
  ghost predicate ListsUserByPosition(rows: seq<Rating>, user: UserId, sorted: seq<RatingId>) {
    && Distinct(sorted)
    && (forall id :: id in sorted <==> id in UserIds(rows, user))
    && (forall i, j :: 0 <= i < j < |sorted| ==>
          RowById(rows, sorted[i]).Some? && RowById(rows, sorted[j]).Some?
          && ByPosition(RowById(rows, sorted[i]).value, RowById(rows, sorted[j]).value))
  }

  function PositionOf(rows: seq<Rating>, id: RatingId): Option<real> {
    match RowById(rows, id)
    case None => None
    case Some(r) => r.position
  }

  lemma {:induction false} IndexOfIdSameRows(a: seq<Rating>, b: seq<Rating>, id: RatingId)
    requires SameRows(a, b)
    ensures IndexOfId(a, id) == IndexOfId(b, id)
  {
    if a != [] {
      assert b[0] == a[0].(position := b[0].position, rating := b[0].rating);
      assert SameRows(a[1..], b[1..]) by {
        forall k | 0 <= k < |a| - 1
          ensures b[1..][k] == a[1..][k].(position := b[1..][k].position, rating := b[1..][k].rating)
        {
          assert b[k + 1] == a[k + 1].(position := b[k + 1].position, rating := b[k + 1].rating);
        }
      }
      IndexOfIdSameRows(a[1..], b[1..], id);
    }
  }

  /** A rating listed at index i gets position (i+1)/(n+1). */
  lemma RebalancedPosition(rows: seq<Rating>, sorted: seq<RatingId>, i: nat)
    requires CreationOrdered(rows) && Distinct(sorted) && i < |sorted|
    requires IndexOfId(rows, sorted[i]).Some?
    ensures PositionOf(Respaced(rows, sorted, |sorted|, false), sorted[i]) == Some(NormalizePosition(i, |sorted|))
  {
    var r := Respaced(rows, sorted, |sorted|, false);
    IndexOfIdSameRows(rows, r, sorted[i]);
    var m := IndexOfId(rows, sorted[i]).value;
    RespacedRow(rows, sorted, |sorted|, false, m);
    assert sorted[..|sorted|] == sorted;
  }

  /** A rating of another user is not touched by the rebalance. */
  lemma RebalanceSkipsOthers(rows: seq<Rating>, user: UserId, sorted: seq<RatingId>, m: nat)
    requires CreationOrdered(rows) && Distinct(sorted)
    requires forall id :: id in sorted ==> id in UserIds(rows, user)
    requires m < |rows| && rows[m].userId != user
    ensures Respaced(rows, sorted, |sorted|, false)[m] == rows[m]
  {
    if rows[m].id in sorted {
      UserIdsMembership(rows, user, rows[m].id);
      assert false;
    }
    RespacedRow(rows, sorted, |sorted|, false, m);
    assert sorted[..|sorted|] == sorted;
  }

  /** The effect of a rebalance, stated per rating id: the listed ratings get positions
      (i+1)/(n+1) in list order, and ratings of other users are untouched. */
  lemma RebalanceEffect(rows: seq<Rating>, user: UserId, sorted: seq<RatingId>)
    requires CreationOrdered(rows) && Distinct(sorted)
    requires forall id :: id in sorted ==> id in UserIds(rows, user)
    requires forall i :: 0 <= i < |sorted| ==> IndexOfId(rows, sorted[i]).Some?
    ensures var r := Respaced(rows, sorted, |sorted|, false);
      && SameRows(rows, r)
      && (forall i :: 0 <= i < |sorted| ==> PositionOf(r, sorted[i]) == Some(NormalizePosition(i, |sorted|)))
      && (forall m :: 0 <= m < |rows| && rows[m].userId != user ==> r[m] == rows[m])
  {
    forall i | 0 <= i < |sorted| {
      RebalancedPosition(rows, sorted, i);
    }
    forall m | 0 <= m < |rows| && rows[m].userId != user {
      RebalanceSkipsOthers(rows, user, sorted, m);
    }
  }

  /** Every listed id names a row of the table. */
  lemma ListedRowsExist(rows: seq<Rating>, user: UserId, sorted: seq<RatingId>)
    requires ListsUserByPosition(rows, user, sorted)
    ensures forall i :: 0 <= i < |sorted| ==> IndexOfId(rows, sorted[i]).Some?
  {
    forall i | 0 <= i < |sorted|
      ensures IndexOfId(rows, sorted[i]).Some?
    {
      assert sorted[i] in sorted;
      UserIdsMembership(rows, user, sorted[i]);
    }
  }

  /** Rebalancing leaves the listed order strictly increasing in position: the previous
      (position, createdAt) order is kept and no two of the user's ratings collide. */
  lemma RebalanceKeepsOrder(rows: seq<Rating>, user: UserId, sorted: seq<RatingId>)
    requires CreationOrdered(rows) && Distinct(sorted)
    requires forall id :: id in sorted ==> id in UserIds(rows, user)
    requires forall i :: 0 <= i < |sorted| ==> IndexOfId(rows, sorted[i]).Some?
    ensures var r := Respaced(rows, sorted, |sorted|, false);
      forall i, j :: 0 <= i < j < |sorted| ==>
        PositionOf(r, sorted[i]).Some? && PositionOf(r, sorted[j]).Some?
        && PositionOf(r, sorted[i]).value < PositionOf(r, sorted[j]).value
  {
    RebalanceEffect(rows, user, sorted);
    forall i, j | 0 <= i < j < |sorted| {
      NormalizeStrictlyIncreasing(i, j, |sorted|);
    }
  }

  /** rebalancePositions: one batch of updates giving the user's ratings even spacing. */
  method Rebalance(db: Db, user: UserId, sorted: seq<RatingId>)
    requires db.Valid() && ListsUserByPosition(db.ratings, user, sorted)
    modifies db
    ensures db.Valid()
    ensures db.ratings == Respaced(old(db.ratings), sorted, |sorted|, false)
    ensures forall i :: 0 <= i < |sorted| ==> PositionOf(db.ratings, sorted[i]) == Some(NormalizePosition(i, |sorted|))
    ensures forall m :: 0 <= m < |db.ratings| && old(db.ratings[m].userId) != user ==> db.ratings[m] == old(db.ratings[m])
    ensures sorted == [] ==> db.ratings == old(db.ratings)
    ensures db.stackRanked == old(db.stackRanked) && db.activities == old(db.activities)
    ensures db.nextId == old(db.nextId) && db.clock == old(db.clock)
  {
    if |sorted| == 0 {
      return;
    }
    ListedRowsExist(db.ratings, user, sorted);
    RebalanceEffect(db.ratings, user, sorted);
    db.Respace(sorted, false);
  }

  /** The neighbour bounds of a placement: a missing neighbour, an unknown id or a row without
      position count as the boundary 0 (before) or 1 (after). */
  function BeforeBound(rows: seq<Rating>, placement: Placement): real {
    BoundFor(rows, placement.beforeId, 0.0)
  }

  function AfterBound(rows: seq<Rating>, placement: Placement): real {
    BoundFor(rows, placement.afterId, 1.0)
  }

  const FallbackOffset: real := 0.0000000001

  /** resolvePlacementPosition: the midpoint of the neighbour bounds; when there is no room,
      rebalance once and retry; after that, `before + 1e-10`. */
  method ResolvePlacementPosition(db: Db, user: UserId, placement: Placement, sorted: seq<RatingId>, hasRebalanced: bool)
    returns (p: real)
    requires db.Valid()
    requires !hasRebalanced ==> ListsUserByPosition(db.ratings, user, sorted)
    modifies db
    decreases if hasRebalanced then 0 else 1
    ensures db.Valid()
    ensures BeforeBound(db.ratings, placement) < p
    ensures BeforeBound(db.ratings, placement) < AfterBound(db.ratings, placement) ==>
      p == Midpoint(BeforeBound(db.ratings, placement), AfterBound(db.ratings, placement))
      && p < AfterBound(db.ratings, placement)
    ensures AfterBound(db.ratings, placement) <= BeforeBound(db.ratings, placement) ==>
      p == BeforeBound(db.ratings, placement) + FallbackOffset
    ensures BeforeBound(old(db.ratings), placement) < AfterBound(old(db.ratings), placement) ==>
      db.ratings == old(db.ratings)
    ensures db.ratings == old(db.ratings) || (!hasRebalanced && db.ratings == Respaced(old(db.ratings), sorted, |sorted|, false))
    ensures !hasRebalanced && AfterBound(old(db.ratings), placement) <= BeforeBound(old(db.ratings), placement) ==>
      db.ratings == Respaced(old(db.ratings), sorted, |sorted|, false)
    ensures db.stackRanked == old(db.stackRanked) && db.activities == old(db.activities)
    ensures db.nextId == old(db.nextId) && db.clock == old(db.clock)
  {
    var beforePosition := BeforeBound(db.ratings, placement);
    var afterPosition := AfterBound(db.ratings, placement);
    if afterPosition <= beforePosition {
      if hasRebalanced {
        return beforePosition + FallbackOffset;
      }
      Rebalance(db, user, sorted);
      p := ResolvePlacementPosition(db, user, placement, sorted, true);
      return;
    }
    p := Midpoint(beforePosition, afterPosition);
  }

  /** POST /api/movies/rate. `session` is the signed-in user; `sorted` is what the rebalance
      query would return for that user. `table` is the table just before the upsert. */
  method Rate(db: Db, session: Option<UserId>, body: RateBody, sorted: seq<RatingId>)
    returns (resp: RateResponse, ghost table: seq<Rating>)
    requires db.Valid()
    requires session.Some? ==> ListsUserByPosition(db.ratings, session.value, sorted)
    modifies db
    ensures db.Valid()
    ensures db.stackRanked == old(db.stackRanked)
    ensures resp.RateError? ==>
      db.ratings == old(db.ratings) && db.activities == old(db.activities)
      && db.nextId == old(db.nextId) && db.clock == old(db.clock)
    ensures CheckBody(body).Rejected? ==> resp == RateError(400, CheckBody(body).error)
    ensures CheckBody(body).Accepted? && session.None? ==> resp == RateError(401, "Unauthorized - Please sign in")
    ensures CheckBody(body).Accepted? && session.Some? && session.value !in old(db.stackRanked) ==>
      resp == RateError(404, "User not found")
    ensures CheckBody(body).Accepted? && session.Some? && session.value in old(db.stackRanked) ==>
      var u := session.value;
      var plan := PlanPosition(CountFor(old(db.ratings), u), old(db.stackRanked[u]), body.placement);
      (plan.Refuse? ==> resp == RateError(plan.status, plan.error))
      && (!plan.Refuse? ==> resp.Saved?)
    ensures resp.Saved? ==>
      var c := CheckBody(body).category;
      var tmdbId := CheckBody(body).tmdbId;
      var u := session.value;
      var n := CountFor(old(db.ratings), u);
      && (table == old(db.ratings) || table == Respaced(old(db.ratings), sorted, |sorted|, false))
      && (n < 10 ==> table == old(db.ratings) && resp.rating.position == Some(DefaultPosition(c)))
      && (n >= 10 ==>
            var pl := body.placement.value;
            resp.rating.position.Some?
            && BeforeBound(table, pl) < resp.rating.position.value
            && (BeforeBound(table, pl) < AfterBound(table, pl) ==>
                  resp.rating.position.value == Midpoint(BeforeBound(table, pl), AfterBound(table, pl))
                  && resp.rating.position.value < AfterBound(table, pl))
            && (AfterBound(table, pl) <= BeforeBound(table, pl) ==>
                  resp.rating.position.value == BeforeBound(table, pl) + FallbackOffset)
            && (BeforeBound(old(db.ratings), pl) < AfterBound(old(db.ratings), pl) ==> table == old(db.ratings))
            && (AfterBound(old(db.ratings), pl) <= BeforeBound(old(db.ratings), pl) ==>
                  table == Respaced(old(db.ratings), sorted, |sorted|, false)))
      && db.ratings == Upsert(table, u, tmdbId, RatingInput(CategoryValue(c), resp.rating.position.value,
                                                      CheckBody(body).title, body.movie.value.posterPath,
                                                      body.movie.value.releaseDate), old(db.nextId), old(db.clock))
      && IndexOfMovie(db.ratings, u, tmdbId).Some?
      && db.ratings[IndexOfMovie(db.ratings, u, tmdbId).value] == resp.rating
      && resp.rating.rating == CategoryValue(c) as real
      && db.activities == old(db.activities) + [RatedMovie(u, tmdbId, CategoryValue(c), c)]
  {
    table := db.ratings;
    var checked := CheckBody(body);
    if checked.Rejected? {
      return RateError(400, checked.error), table;
    }
    if session.None? {
      return RateError(401, "Unauthorized - Please sign in"), table;
    }
    var u := session.value;
    if u !in db.stackRanked {
      return RateError(404, "User not found"), table;
    }
    var totalRatings := CountFor(db.ratings, u);
    var plan := PlanPosition(totalRatings, db.stackRanked[u], body.placement);
    var position: real;
    match plan {
      case Refuse(status, error) =>
        return RateError(status, error), table;
      case UseDefault =>
        position := DefaultPosition(checked.category);
      case UsePlacement(pl) =>
        position := ResolvePlacementPosition(db, u, pl, sorted, false);
    }
    table := db.ratings;
    var c := checked.category;
    var input := RatingInput(CategoryValue(c), position, checked.title, body.movie.value.posterPath, body.movie.value.releaseDate);
    var saved := Save(db, u, checked.tmdbId, input, c);
    resp := Saved(saved);
  }

  /** The upsert on (user, movie) and the activity entry, with the database defaults for a
      new row taken from the id and clock counters. */
  method Save(db: Db, u: UserId, tmdbId: int, input: RatingInput, c: RatingCategory) returns (saved: Rating)
    requires db.Valid()
    modifies db
    ensures db.Valid()
    ensures db.ratings == Upsert(old(db.ratings), u, tmdbId, input, old(db.nextId), old(db.clock))
    ensures IndexOfMovie(db.ratings, u, tmdbId).Some? && db.ratings[IndexOfMovie(db.ratings, u, tmdbId).value] == saved
    ensures saved.rating == input.rating as real && saved.position == Some(input.position)
    ensures db.nextId == old(db.nextId) + 1 && db.clock == old(db.clock) + 1
    ensures db.activities == old(db.activities) + [RatedMovie(u, tmdbId, input.rating, c)]
    ensures db.stackRanked == old(db.stackRanked)
  {
    UpsertEffect(db.ratings, u, tmdbId, input, db.nextId, db.clock);
    db.ratings, db.nextId, db.clock, db.activities :=
      Upsert(db.ratings, u, tmdbId, input, db.nextId, db.clock), db.nextId + 1, db.clock + 1,
      db.activities + [RatedMovie(u, tmdbId, input.rating, c)];
    var k := IndexOfMovie(db.ratings, u, tmdbId);
    saved := db.ratings[k.value];
  }
}
