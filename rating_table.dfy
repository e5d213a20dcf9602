/** The rating table and the activity log, held in memory.
    Rows are kept in creation order, so "ordered by createdAt ascending" is the order of the sequence. */
module RatingTable {
  import opened Common
  import opened Positions

  datatype Rating = Rating(
    id: RatingId,
    userId: UserId,
    tmdbId: int,
    createdAt: int,
    position: Option<real>,
    rating: real,
    cachedTitle: string,
    cachedPosterPath: Option<string>,
    cachedReleaseDate: Option<string>)

  /** A RATED_MOVIE activity with its metadata. */
  datatype Activity = RatedMovie(userId: UserId, tmdbId: int, rating: int, category: RatingCategory)

  /** What one rate request writes into a row. */
  datatype RatingInput = RatingInput(
    rating: int,
    position: real,
    title: string,
    posterPath: Option<string>,
    releaseDate: Option<string>)

  /** Ids and creation times strictly increase along the table (so ids are unique). */
  ghost predicate CreationOrdered(rows: seq<Rating>) {
    forall i, j :: 0 <= i < j < |rows| ==> rows[i].id < rows[j].id && rows[i].createdAt < rows[j].createdAt
  }

  /** The (userId, tmdbId) uniqueness constraint. */
  ghost predicate OneRatingPerMovie(rows: seq<Rating>) {
    forall i, j :: 0 <= i < j < |rows| ==> rows[i].userId != rows[j].userId || rows[i].tmdbId != rows[j].tmdbId
  }

  /** `b` is `a` with at most the position and the rating of each row changed. */
  ghost predicate SameRows(a: seq<Rating>, b: seq<Rating>) {
    |a| == |b| && forall k :: 0 <= k < |a| ==> b[k] == a[k].(position := b[k].position, rating := b[k].rating)
  }

  lemma SameRowsKeepInvariants(a: seq<Rating>, b: seq<Rating>)
    requires SameRows(a, b) && CreationOrdered(a) && OneRatingPerMovie(a)
    ensures CreationOrdered(b) && OneRatingPerMovie(b)
  {
    forall i, j | 0 <= i < j < |b|
      ensures b[i].id < b[j].id && b[i].createdAt < b[j].createdAt
      ensures b[i].userId != b[j].userId || b[i].tmdbId != b[j].tmdbId
    {
      assert b[i] == a[i].(position := b[i].position, rating := b[i].rating);
      assert b[j] == a[j].(position := b[j].position, rating := b[j].rating);
    }
  }

  /** findUnique by id: the index of the row with that id. */
  function IndexOfId(rows: seq<Rating>, id: RatingId): (r: Option<nat>)
    ensures r.Some? ==> r.value < |rows| && rows[r.value].id == id
    ensures r.None? ==> forall k :: 0 <= k < |rows| ==> rows[k].id != id
  {
    if rows == [] then None
    else if rows[0].id == id then Some(0)
    else match IndexOfId(rows[1..], id)
      case None => None
      case Some(k) => Some(k + 1)
  }

  /** The row of `user` for movie `tmdbId`, if any. */
  function IndexOfMovie(rows: seq<Rating>, user: UserId, tmdbId: int): (r: Option<nat>)
    ensures r.Some? ==> r.value < |rows| && rows[r.value].userId == user && rows[r.value].tmdbId == tmdbId
    ensures r.None? ==> forall k :: 0 <= k < |rows| ==> rows[k].userId != user || rows[k].tmdbId != tmdbId
  {
    if rows == [] then None
    else if rows[0].userId == user && rows[0].tmdbId == tmdbId then Some(0)
    else match IndexOfMovie(rows[1..], user, tmdbId)
      case None => None
      case Some(k) => Some(k + 1)
  }

  /** The rows of one user, in creation order. */
  function UserRows(rows: seq<Rating>, user: UserId): (r: seq<Rating>)
    ensures |r| <= |rows|
    ensures forall x :: x in r <==> x in rows && x.userId == user
  {
    if rows == [] then []
    else if rows[0].userId == user then [rows[0]] + UserRows(rows[1..], user)
    else UserRows(rows[1..], user)
  }

  lemma {:induction false} UserRowsCreationOrdered(rows: seq<Rating>, user: UserId)
    requires CreationOrdered(rows)
    ensures CreationOrdered(UserRows(rows, user))
  {
    if rows != [] {
      assert CreationOrdered(rows[1..]) by {
        forall i, j | 0 <= i < j < |rows[1..]|
          ensures rows[1..][i].id < rows[1..][j].id && rows[1..][i].createdAt < rows[1..][j].createdAt
        {
          assert rows[1..][i] == rows[i + 1] && rows[1..][j] == rows[j + 1];
        }
      }
      UserRowsCreationOrdered(rows[1..], user);
      if rows[0].userId == user {
        var rest := UserRows(rows[1..], user);
        forall x | x in rest
          ensures rows[0].id < x.id && rows[0].createdAt < x.createdAt
        {
          var k :| 0 <= k < |rows[1..]| && rows[1..][k] == x;
          assert rows[k + 1] == x;
        }
        PrependCreationOrdered(rows[0], rest);
      }
    }
  }

  lemma PrependCreationOrdered(row: Rating, rest: seq<Rating>)
    requires CreationOrdered(rest)
    requires forall x :: x in rest ==> row.id < x.id && row.createdAt < x.createdAt
    ensures CreationOrdered([row] + rest)
  {
    var r := [row] + rest;
    forall i, j | 0 <= i < j < |r|
      ensures r[i].id < r[j].id && r[i].createdAt < r[j].createdAt
    {
      assert r[j] == rest[j - 1];
      if i > 0 { assert r[i] == rest[i - 1]; }
    }
  }

  /** The ids of one user's rows, in creation order. */
  function UserIds(rows: seq<Rating>, user: UserId): (r: seq<RatingId>)
    ensures |r| == |UserRows(rows, user)|
    ensures forall k :: 0 <= k < |r| ==> r[k] == UserRows(rows, user)[k].id
  {
    var own := UserRows(rows, user);
    seq(|own|, k requires 0 <= k < |own| => own[k].id)
  }

  lemma UserIdsMembership(rows: seq<Rating>, user: UserId, id: RatingId)
    ensures id in UserIds(rows, user) <==> exists k :: 0 <= k < |rows| && rows[k].id == id && rows[k].userId == user
  {
    var own := UserRows(rows, user);
    var ids := UserIds(rows, user);
    if id in ids {
      var i :| 0 <= i < |ids| && ids[i] == id;
      assert own[i] in own;
      var k :| 0 <= k < |rows| && rows[k] == own[i];
    }
    if exists k :: 0 <= k < |rows| && rows[k].id == id && rows[k].userId == user {
      var k :| 0 <= k < |rows| && rows[k].id == id && rows[k].userId == user;
      assert rows[k] in own;
      var i :| 0 <= i < |own| && own[i] == rows[k];
      assert ids[i] == id;
    }
  }

  lemma {:induction false} UserIdsDistinct(rows: seq<Rating>, user: UserId)
    requires CreationOrdered(rows)
    ensures Distinct(UserIds(rows, user))
  {
    UserRowsCreationOrdered(rows, user);
  }

  /** Number of ratings of a user (rating.count where userId). */
  function CountFor(rows: seq<Rating>, user: UserId): (n: nat)
    ensures n == |UserIds(rows, user)|
  {
    |UserRows(rows, user)|
  }

  /** The count is the number of table positions holding a row of the user. */
  lemma CountForCountsRows(rows: seq<Rating>, user: UserId)
    ensures CountFor(rows, user) == |set k | 0 <= k < |rows| && rows[k].userId == user|
  {
    UserRowsFromCount(rows, user, 0);
    assert rows[0..] == rows;
  }

  lemma {:induction false} UserRowsFromCount(rows: seq<Rating>, user: UserId, lo: nat)
    requires lo <= |rows|
    ensures |UserRows(rows[lo..], user)| == |set k | lo <= k < |rows| && rows[k].userId == user|
    decreases |rows| - lo
  {
    if lo < |rows| {
      UserRowsFromCount(rows, user, lo + 1);
      var tail := rows[lo..];
      assert tail[1..] == rows[lo + 1..];
      UserRowsStep(tail, user);
      UserIndicesStep(rows, user, lo);
    }
  }

  lemma UserRowsStep(rows: seq<Rating>, user: UserId)
    requires rows != []
    ensures |UserRows(rows, user)| == |UserRows(rows[1..], user)| + (if rows[0].userId == user then 1 else 0)
  {
  }

  lemma UserIndicesStep(rows: seq<Rating>, user: UserId, lo: nat)
    requires lo < |rows|
    ensures |set k | lo <= k < |rows| && rows[k].userId == user| ==
      |set k | lo + 1 <= k < |rows| && rows[k].userId == user| + (if rows[lo].userId == user then 1 else 0)
  {
    var later := set k | lo + 1 <= k < |rows| && rows[k].userId == user;
    assert lo !in later;
    assert (set k | lo <= k < |rows| && rows[k].userId == user) ==
      later + (if rows[lo].userId == user then {lo} else {});
  }

  /** The stored position of the row a placement id refers to, or `boundary` when the id is
      absent, names no row, or the row has no position (`before?.position ?? boundary`). */
  function BoundFor(rows: seq<Rating>, id: Option<RatingId>, boundary: real): (p: real)
    ensures id.None? ==> p == boundary
    ensures id.Some? && IndexOfId(rows, id.value).None? ==> p == boundary
    ensures id.Some? && IndexOfId(rows, id.value).Some? ==>
      p == (match rows[IndexOfId(rows, id.value).value].position
            case Some(v) => v
            case None => boundary)
  {
    match id
    case None => boundary
    case Some(i) =>
      match IndexOfId(rows, i)
      case None => boundary
      case Some(k) =>
        match rows[k].position
        case Some(v) => v
        case None => boundary
  }

  /** With unique ids the bound does not depend on how the row is looked up: it is the
      position of the row carrying the id when that row has one, and the boundary when no
      row carries the id or the row has no position. */
  lemma BoundForRow(rows: seq<Rating>, id: RatingId, boundary: real)
    requires CreationOrdered(rows)
    ensures forall k :: 0 <= k < |rows| && rows[k].id == id ==>
      BoundFor(rows, Some(id), boundary) == (if rows[k].position.Some? then rows[k].position.value else boundary)
    ensures (forall k :: 0 <= k < |rows| ==> rows[k].id != id) ==> BoundFor(rows, Some(id), boundary) == boundary
  {
    forall k | 0 <= k < |rows| && rows[k].id == id
      ensures BoundFor(rows, Some(id), boundary) == (if rows[k].position.Some? then rows[k].position.value else boundary)
    {
      assert IndexOfId(rows, id) == Some(k);
    }
  }

  /** One `rating.update` by id: new position and, when `rescore`, the rating derived from it. */
  function Assign(rows: seq<Rating>, id: RatingId, p: real, rescore: bool): (r: seq<Rating>)
    ensures SameRows(rows, r)
  {
    match IndexOfId(rows, id)
    case None => rows
    case Some(k) =>
      rows[k := rows[k].(position := Some(p), rating := if rescore then PositionToRating(p) else rows[k].rating)]
  }

  /** The first `k` updates of a batch that gives `order[i]` the position (i+1)/(n+1). */
  function Respaced(rows: seq<Rating>, order: seq<RatingId>, k: nat, rescore: bool): (r: seq<Rating>)
    requires k <= |order|
    ensures SameRows(rows, r)
  {
    if k == 0 then rows
    else Assign(Respaced(rows, order, k - 1, rescore), order[k - 1], NormalizePosition(k - 1, |order|), rescore)
  }

  lemma SameRowsCreationOrdered(a: seq<Rating>, b: seq<Rating>)
    requires SameRows(a, b) && CreationOrdered(a)
    ensures CreationOrdered(b)
  {
    forall i, j | 0 <= i < j < |b|
      ensures b[i].id < b[j].id && b[i].createdAt < b[j].createdAt
    {
      assert b[i] == a[i].(position := b[i].position, rating := b[i].rating);
      assert b[j] == a[j].(position := b[j].position, rating := b[j].rating);
    }
  }

  /** The row an update by id writes to is the one with that id, and only that one. */
  lemma AssignAt(rows: seq<Rating>, id: RatingId, p: real, rescore: bool, m: nat)
    requires CreationOrdered(rows) && m < |rows|
    ensures Assign(rows, id, p, rescore)[m] ==
      if rows[m].id == id
      then rows[m].(position := Some(p), rating := if rescore then PositionToRating(p) else rows[m].rating)
      else rows[m]
  {
    match IndexOfId(rows, id)
    case None =>
    case Some(q) =>
      if q < m { assert rows[q].id < rows[m].id; }
      if m < q { assert rows[m].id < rows[q].id; }
  }

  /** What the first `k` updates of a respacing batch do to row `m`. */
  lemma {:induction false} RespacedRow(rows: seq<Rating>, order: seq<RatingId>, k: nat, rescore: bool, m: nat)
    requires k <= |order| && m < |rows|
    requires CreationOrdered(rows) && Distinct(order)
    ensures var r := Respaced(rows, order, k, rescore);
      && (forall j :: 0 <= j < k && order[j] == rows[m].id ==>
            r[m] == rows[m].(position := Some(NormalizePosition(j, |order|)),
                             rating := if rescore then PositionToRating(NormalizePosition(j, |order|)) else rows[m].rating))
      && (rows[m].id !in order[..k] ==> r[m] == rows[m])
  {
    if k > 0 {
      RespacedRow(rows, order, k - 1, rescore, m);
      var prev := Respaced(rows, order, k - 1, rescore);
      var id := rows[m].id;
      SameRowsCreationOrdered(rows, prev);
      AssignAt(prev, order[k - 1], NormalizePosition(k - 1, |order|), rescore, m);
      assert prev[m].id == id;
      assert order[..k] == order[..k - 1] + [order[k - 1]];
      if id == order[k - 1] {
        assert id !in order[..k - 1];
        assert prev[m] == rows[m];
      }
    }
  }

  /** What a whole respacing batch does: a row listed at index j of a duplicate-free `order`
      gets position (j+1)/(n+1) (and, when `rescore`, the rating derived from it); every other
      row and every other field is untouched. */
  lemma RespacedEffect(rows: seq<Rating>, order: seq<RatingId>, rescore: bool)
    requires CreationOrdered(rows) && Distinct(order)
    ensures var r := Respaced(rows, order, |order|, rescore);
      && SameRows(rows, r)
      && (forall m, j :: 0 <= m < |rows| && 0 <= j < |order| && rows[m].id == order[j] ==>
            r[m].position == Some(NormalizePosition(j, |order|))
            && r[m].rating == (if rescore then PositionToRating(NormalizePosition(j, |order|)) else rows[m].rating))
      && (forall m :: 0 <= m < |rows| && rows[m].id !in order ==> r[m] == rows[m])
  {
    forall m | 0 <= m < |rows| {
      RespacedRow(rows, order, |order|, rescore, m);
    }
    assert order[..|order|] == order;
  }

  /** The upsert on (userId, tmdbId): update the existing row in place, or append a new one. */
  function Upsert(rows: seq<Rating>, user: UserId, tmdbId: int, input: RatingInput, newId: RatingId, now: int): seq<Rating>
  {
    match IndexOfMovie(rows, user, tmdbId)
    case Some(k) =>
      rows[k := rows[k].(rating := input.rating as real, position := Some(input.position),
                         cachedTitle := input.title, cachedPosterPath := input.posterPath,
                         cachedReleaseDate := input.releaseDate)]
    case None =>
      rows + [Rating(newId, user, tmdbId, now, Some(input.position), input.rating as real,
                     input.title, input.posterPath, input.releaseDate)]
  }

  /** The row an upsert leaves for (user, tmdbId): carries the new fields; an existing row
      keeps its id and creation time. */
  predicate HoldsInput(row: Rating, user: UserId, tmdbId: int, input: RatingInput) {
    && row.userId == user && row.tmdbId == tmdbId
    && row.rating == input.rating as real && row.position == Some(input.position)
    && row.cachedTitle == input.title && row.cachedPosterPath == input.posterPath
    && row.cachedReleaseDate == input.releaseDate
  }

  /** After an upsert exactly one row is the user's rating of the movie, it holds the new
      values, every other row is unchanged, and the table invariants still hold. */
  lemma UpsertEffect(rows: seq<Rating>, user: UserId, tmdbId: int, input: RatingInput, newId: RatingId, now: int)
    requires CreationOrdered(rows) && OneRatingPerMovie(rows)
    requires forall k :: 0 <= k < |rows| ==> rows[k].id < newId && rows[k].createdAt < now
    ensures var r := Upsert(rows, user, tmdbId, input, newId, now);
      && CreationOrdered(r) && OneRatingPerMovie(r)
      && (forall k :: 0 <= k < |r| ==> r[k].id <= newId && r[k].createdAt <= now)
      && IndexOfMovie(r, user, tmdbId).Some?
      && HoldsInput(r[IndexOfMovie(r, user, tmdbId).value], user, tmdbId, input)
      && (forall k :: 0 <= k < |rows| && (rows[k].userId != user || rows[k].tmdbId != tmdbId) ==> r[k] == rows[k])
      && (IndexOfMovie(rows, user, tmdbId).Some? ==>
            |r| == |rows| && r[IndexOfMovie(rows, user, tmdbId).value].id == rows[IndexOfMovie(rows, user, tmdbId).value].id)
      && (IndexOfMovie(rows, user, tmdbId).None? ==> |r| == |rows| + 1 && r[|rows|].id == newId && r[|rows|].createdAt == now)
  {
    var r := Upsert(rows, user, tmdbId, input, newId, now);
    match IndexOfMovie(rows, user, tmdbId)
    case Some(k) =>
      assert SameKeysExcept(rows, r);
      SameKeysKeepInvariants(rows, r);
      IndexOfMovieUnique(r, user, tmdbId, k);
    case None =>
      AppendKeepsInvariants(rows, r[|rows|]);
      assert r == rows + [r[|rows|]];
      IndexOfMovieUnique(r, user, tmdbId, |rows|);
  }

  lemma SameKeysKeepInvariants(a: seq<Rating>, b: seq<Rating>)
    requires SameKeysExcept(a, b) && CreationOrdered(a) && OneRatingPerMovie(a)
    ensures CreationOrdered(b) && OneRatingPerMovie(b)
  {
  }

  /** A new row that is later than every row and whose (user, movie) key is unused keeps
      both table invariants. */
  lemma AppendKeepsInvariants(rows: seq<Rating>, row: Rating)
    requires CreationOrdered(rows) && OneRatingPerMovie(rows)
    requires forall k :: 0 <= k < |rows| ==> rows[k].id < row.id && rows[k].createdAt < row.createdAt
    requires forall k :: 0 <= k < |rows| ==> rows[k].userId != row.userId || rows[k].tmdbId != row.tmdbId
    ensures CreationOrdered(rows + [row]) && OneRatingPerMovie(rows + [row])
  {
    var r := rows + [row];
    forall i, j | 0 <= i < j < |r|
      ensures r[i].id < r[j].id && r[i].createdAt < r[j].createdAt
      ensures r[i].userId != r[j].userId || r[i].tmdbId != r[j].tmdbId
    {
      assert r[i] == rows[i];
      if j < |rows| { assert r[j] == rows[j]; }
    }
  }

  /** `a` and `b` agree on the id, owner, movie and creation time of every row. */
  ghost predicate SameKeysExcept(a: seq<Rating>, b: seq<Rating>) {
    |a| == |b| && forall k :: 0 <= k < |a| ==>
      a[k].id == b[k].id && a[k].userId == b[k].userId && a[k].tmdbId == b[k].tmdbId && a[k].createdAt == b[k].createdAt
  }

  lemma IndexOfMovieUnique(rows: seq<Rating>, user: UserId, tmdbId: int, k: nat)
    requires OneRatingPerMovie(rows)
    requires k < |rows| && rows[k].userId == user && rows[k].tmdbId == tmdbId
    ensures IndexOfMovie(rows, user, tmdbId) == Some(k)
  {
    var r := IndexOfMovie(rows, user, tmdbId);
    assert r.Some?;
    if r.value < k { assert false; }
    if k < r.value { assert false; }
  }

  /** Rating the same movie twice ends in the state a single submission of the second
      values would give (with the identity the first submission assigned). */
  lemma UpsertTwice(rows: seq<Rating>, user: UserId, tmdbId: int, first: RatingInput, second: RatingInput,
                    newId: RatingId, now: int, laterId: RatingId, later: int)
    requires CreationOrdered(rows) && OneRatingPerMovie(rows)
    requires forall k :: 0 <= k < |rows| ==> rows[k].id < newId && rows[k].createdAt < now
    ensures Upsert(Upsert(rows, user, tmdbId, first, newId, now), user, tmdbId, second, laterId, later)
         == Upsert(rows, user, tmdbId, second, newId, now)
  {
    UpsertEffect(rows, user, tmdbId, first, newId, now);
    var once := Upsert(rows, user, tmdbId, first, newId, now);
    match IndexOfMovie(rows, user, tmdbId)
    case Some(k) =>
      IndexOfMovieUnique(once, user, tmdbId, k);
    case None =>
      IndexOfMovieUnique(once, user, tmdbId, |rows|);
  }

  /** The database state the routes read and write. */
  class Db {
    var ratings: seq<Rating>
    /** Users that exist, with their `initialStackRanked` flag. */
    var stackRanked: map<UserId, bool>
    var activities: seq<Activity>
    /** Source of fresh row ids and creation timestamps (the database defaults). */
    var nextId: RatingId
    var clock: int

    ghost predicate Valid()
      reads this
    {
      && CreationOrdered(ratings)
      && OneRatingPerMovie(ratings)
      && (forall k :: 0 <= k < |ratings| ==> ratings[k].id < nextId && ratings[k].createdAt < clock)
    }

    constructor ()
      ensures Valid() && ratings == [] && stackRanked == map[] && activities == []
    {
      ratings, stackRanked, activities := [], map[], [];
      nextId, clock := 0, 0;
    }

    /** A batch of position updates, one per listed id in list order: the id at index i gets
        position (i+1)/(n+1) and, when `rescore`, the rating derived from it. */
    method Respace(order: seq<RatingId>, rescore: bool)
      requires Valid()
      modifies this
      ensures Valid()
      ensures ratings == Respaced(old(ratings), order, |order|, rescore)
      ensures stackRanked == old(stackRanked) && activities == old(activities)
      ensures nextId == old(nextId) && clock == old(clock)
    {
      ghost var before := ratings;
      var i := 0;
      while i < |order|
        invariant 0 <= i <= |order|
        invariant ratings == Respaced(before, order, i, rescore)
        invariant stackRanked == old(stackRanked) && activities == old(activities)
        invariant nextId == old(nextId) && clock == old(clock)
      {
        ratings := Assign(ratings, order[i], NormalizePosition(i, |order|), rescore);
        i := i + 1;
      }
      SameRowsKeepInvariants(before, ratings);
    }
  }
}
