/** GET /api/rankings/state: whether the user must do the initial bulk ranking, and which
    ratings to offer for it. */
module RankingState {
  import opened Common
  import opened RatingTable

  /** The rating gate: at ten ratings or more, further ratings wait for the initial ranking. */
  predicate NeedsInitialRanking(totalRatings: int, initialStackRanked: bool) {
    totalRatings >= 10 && !initialStackRanked
  }

  /** One entry of `initialRatings` (also the item type of the drag list). */
  datatype RankingMovie = RankingMovie(id: RatingId, tmdbId: int, title: string, posterPath: Option<string>, rating: real)

  datatype StatePayload = StatePayload(totalRatings: nat, needsInitialRanking: bool, initialRatings: Option<seq<RankingMovie>>)

  datatype StateResponse = StateOk(payload: StatePayload) | StateError(status: int, error: string)

  function Entry(row: Rating): RankingMovie {
    RankingMovie(row.id, row.tmdbId, row.cachedTitle, row.cachedPosterPath, row.rating)
  }

  /** The user's ten oldest ratings (findMany ordered by createdAt, take 10). */
  function OldestTen(rows: seq<Rating>, user: UserId): (r: seq<Rating>)
    ensures |r| == Min(10, CountFor(rows, user))
    ensures r == UserRows(rows, user)[..|r|]
  {
    var own := UserRows(rows, user);
    own[..Min(10, |own|)]
  }

  function GetState(rows: seq<Rating>, users: map<UserId, bool>, session: Option<UserId>): (r: StateResponse)
    ensures session.None? ==> r == StateError(401, "Unauthorized - Please sign in")
    ensures session.Some? && session.value !in users ==> r == StateError(404, "User not found")
    ensures session.Some? && session.value in users ==>
      var u := session.value;
      var own := UserRows(rows, u);
      && r.StateOk?
      && r.payload.totalRatings == CountFor(rows, u)
      && r.payload.needsInitialRanking == NeedsInitialRanking(CountFor(rows, u), users[u])
      && (r.payload.initialRatings.Some? <==> r.payload.needsInitialRanking)
      && (r.payload.initialRatings.Some? ==>
            var list := r.payload.initialRatings.value;
            && |list| == 10
            && forall k :: 0 <= k < 10 ==>
                 && list[k].id == own[k].id && list[k].tmdbId == own[k].tmdbId
                 && list[k].title == own[k].cachedTitle && list[k].posterPath == own[k].cachedPosterPath
                 && list[k].rating == own[k].rating)
  {
    match session
    case None => StateError(401, "Unauthorized - Please sign in")
    case Some(u) =>
      if u !in users then StateError(404, "User not found")
      else
        var total := CountFor(rows, u);
        var needs := NeedsInitialRanking(total, users[u]);
        var oldest := OldestTen(rows, u);
        var initial := if needs then Some(seq(|oldest|, k requires 0 <= k < |oldest| => Entry(oldest[k]))) else None;
        StateOk(StatePayload(total, needs, initial))
  }

  /** The offered ratings are the oldest: every rating of the user left out of them was
      created after each of them, and they come in ascending creation order. */
  lemma OldestTenAreOldest(rows: seq<Rating>, user: UserId)
    requires CreationOrdered(rows)
    ensures var own := UserRows(rows, user);
      var ten := OldestTen(rows, user);
      && (forall i, j :: 0 <= i < j < |ten| ==> ten[i].createdAt < ten[j].createdAt)
      && (forall i, j :: 0 <= i < |ten| <= j < |own| ==> ten[i].createdAt < own[j].createdAt)
  {
    UserRowsCreationOrdered(rows, user);
  }
}
