/** GET /api/users/me/profile: the signed-in user's record, counts and rank, where the rank
    is the user's place among all users ordered by number of ratings. */
module ProfileRoute {
  import opened Common
  import opened Sorting

  /** One row of `allUsers`: a user id and that user's rating count. */
  datatype UserEntry = UserEntry(id: UserId, ratings: nat)

  /** The user row with its relation counts. */
  datatype UserRecord = UserRecord(
    id: UserId, name: Option<string>, username: Option<string>, email: Option<string>,
    image: Option<string>, bio: Option<string>, createdAt: int,
    followers: nat, following: nat, ratings: nat, watchlist: nat)

  datatype ProfileUser = ProfileUser(
    id: UserId, name: Option<string>, username: Option<string>, email: Option<string>,
    image: Option<string>, bio: Option<string>, memberSince: int)

  datatype Stats = Stats(followers: nat, following: nat, beenCount: nat, wantToTryCount: nat, rank: int)

  datatype Profile = Profile(user: ProfileUser, stats: Stats)

  datatype ProfileResponse = Found(profile: Profile) | ProfileError(status: int, error: string)

  /** The comparator `b.ratings - a.ratings`: a may precede b when it has at least as many ratings. */
  predicate MoreRated(a: UserEntry, b: UserEntry) {
    a.ratings >= b.ratings
  }

  lemma MoreRatedIsPreorder()
    ensures TotalPreorder(MoreRated)
  {
  }

  /** The users by rating count, most first. Ties keep their fetched order by the construction
      of `Sorting.Sort`; the contract does not state it. */
  function ByRatings(users: seq<UserEntry>): (sorted: seq<UserEntry>)
    ensures multiset(sorted) == multiset(users) && |sorted| == |users|
    ensures forall i, j :: 0 <= i < j < |sorted| ==> sorted[i].ratings >= sorted[j].ratings
  {
    MoreRatedIsPreorder();
    Sort(users, MoreRated)
  }

  /** `findIndex` by id over the fetched user rows. */
  function FindUser(s: seq<UserEntry>, id: UserId): int {
    FirstIndex(s, (u: UserEntry) => u.id, id)
  }

  /** The rank the route reports: one more than the index in the sorted list, so 0 for a
      user missing from `allUsers`. */
  function Rank(users: seq<UserEntry>, id: UserId): (rank: int)
    ensures 0 <= rank <= |users|
    ensures rank == 0 <==> forall k :: 0 <= k < |users| ==> users[k].id != id
  {
    var sorted := ByRatings(users);
    var i := FindUser(sorted, id);
    assert i == -1 <==> forall k :: 0 <= k < |users| ==> users[k].id != id by {
      if i == -1 {
        forall k | 0 <= k < |users|
          ensures users[k].id != id
        {
          assert users[k] in multiset(sorted);
        }
      } else {
        assert sorted[i] in multiset(users);
      }
    }
    i + 1
  }

  /** How many entries satisfy `p`. */
  function Count(s: seq<UserEntry>, p: UserEntry -> bool): (n: nat)
    ensures n <= |s|
  {
    if s == [] then 0 else (if p(s[0]) then 1 else 0) + Count(s[1..], p)
  }

  lemma {:induction false} CountAppend(u: seq<UserEntry>, v: seq<UserEntry>, p: UserEntry -> bool)
    ensures Count(u + v, p) == Count(u, p) + Count(v, p)
    decreases |u|
  {
    if u == [] {
      assert u + v == v;
    } else {
      assert (u + v)[1..] == u[1..] + v;
      CountAppend(u[1..], v, p);
    }
  }

  /** Counting around the entry at `j`. */
  lemma CountWithout(b: seq<UserEntry>, j: nat, p: UserEntry -> bool)
    requires j < |b|
    ensures Count(b, p) == (if p(b[j]) then 1 else 0) + Count(b[..j] + b[j + 1..], p)
  {
    assert b == b[..j] + ([b[j]] + b[j + 1..]);
    CountAppend(b[..j], [b[j]] + b[j + 1..], p);
    CountAppend([b[j]], b[j + 1..], p);
    CountAppend(b[..j], b[j + 1..], p);
  }

  /** Taking the same entry out of two permutations of each other leaves permutations. */
  lemma RemoveMatching(a: seq<UserEntry>, b: seq<UserEntry>, j: nat)
    requires multiset(a) == multiset(b) && a != [] && j < |b| && b[j] == a[0]
    ensures multiset(a[1..]) == multiset(b[..j] + b[j + 1..])
  {
    var x := a[0];
    assert b == b[..j] + [x] + b[j + 1..];
    assert a == [x] + a[1..];
    assert multiset(b) == multiset(b[..j]) + multiset{x} + multiset(b[j + 1..]);
    assert multiset(a[1..]) == multiset(a) - multiset{x};
    assert multiset(b[..j] + b[j + 1..]) == multiset(b) - multiset{x};
  }

  /** A count depends only on which entries there are, not on their order. */
  lemma {:induction false} CountPermutation(a: seq<UserEntry>, b: seq<UserEntry>, p: UserEntry -> bool)
    requires multiset(a) == multiset(b)
    ensures Count(a, p) == Count(b, p)
    decreases |a|
  {
    if a == [] {
      assert |multiset(b)| == 0;
    } else {
      assert a[0] in multiset(b);
      var j :| 0 <= j < |b| && b[j] == a[0];
      RemoveMatching(a, b, j);
      CountPermutation(a[1..], b[..j] + b[j + 1..], p);
      CountWithout(b, j, p);
    }
  }

  lemma {:induction false} CountAll(s: seq<UserEntry>, p: UserEntry -> bool)
    requires forall k :: 0 <= k < |s| ==> p(s[k])
    ensures Count(s, p) == |s|
  {
    if s != [] {
      CountAll(s[1..], p);
    }
  }

  lemma {:induction false} CountNone(s: seq<UserEntry>, p: UserEntry -> bool)
    requires forall k :: 0 <= k < |s| ==> !p(s[k])
    ensures Count(s, p) == 0
  {
    if s != [] {
      CountNone(s[1..], p);
    }
  }

  /** Users with strictly more ratings than `c`, and with at least `c`. */
  function MoreThan(users: seq<UserEntry>, c: nat): (n: nat)
    ensures n <= |users|
  {
    Count(users, HasMoreThan(c))
  }

  function AtLeast(users: seq<UserEntry>, c: nat): (n: nat)
    ensures n <= |users|
  {
    Count(users, HasAtLeast(c))
  }

  function HasMoreThan(c: nat): UserEntry -> bool {
    (e: UserEntry) => e.ratings > c
  }

  function HasAtLeast(c: nat): UserEntry -> bool {
    (e: UserEntry) => e.ratings >= c
  }

  /** In a list ordered by rating count, the p + 1 entries up to `p` all have at least as
      many ratings as the entry at `p`. */
  lemma SortedPlaceAtLeast(s: seq<UserEntry>, p: nat)
    requires p < |s|
    requires forall i, j :: 0 <= i < j < |s| ==> s[i].ratings >= s[j].ratings
    ensures p + 1 <= Count(s, HasAtLeast(s[p].ratings))
  {
    var c := s[p].ratings;
    var prefix := s[..p + 1];
    assert s == prefix + s[p + 1..];
    CountAppend(prefix, s[p + 1..], HasAtLeast(c));
    assert forall k :: 0 <= k < |prefix| ==> HasAtLeast(c)(prefix[k]) by {
      forall k | 0 <= k < |prefix|
        ensures HasAtLeast(c)(prefix[k])
      {
        assert prefix[k] == s[k];
      }
    }
    CountAll(prefix, HasAtLeast(c));
  }

  /** ... and every entry with more ratings than it comes before `p`. */
  lemma SortedPlaceMoreThan(s: seq<UserEntry>, p: nat)
    requires p < |s|
    requires forall i, j :: 0 <= i < j < |s| ==> s[i].ratings >= s[j].ratings
    ensures Count(s, HasMoreThan(s[p].ratings)) <= p
  {
    var c := s[p].ratings;
    var suffix := s[p..];
    assert s == s[..p] + suffix;
    CountAppend(s[..p], suffix, HasMoreThan(c));
    assert forall k :: 0 <= k < |suffix| ==> !HasMoreThan(c)(suffix[k]) by {
      forall k | 0 <= k < |suffix|
        ensures !HasMoreThan(c)(suffix[k])
      {
        assert suffix[k] == s[p + k];
      }
    }
    CountNone(suffix, HasMoreThan(c));
  }

  /** A listed user's rank lies between 1 + the number of users with more ratings and the
      number of users with at least as many; ids are the users' primary keys. */
  lemma RankBounds(users: seq<UserEntry>, k: nat)
    requires k < |users|
    requires forall i, j :: 0 <= i < j < |users| ==> users[i].id != users[j].id
    ensures 1 <= Rank(users, users[k].id) <= |users|
    ensures 1 + MoreThan(users, users[k].ratings) <= Rank(users, users[k].id) <= AtLeast(users, users[k].ratings)
  {
    var id := users[k].id;
    var c := users[k].ratings;
    var s := ByRatings(users);
    var p := FindUser(s, id);
    assert users[k] in multiset(s);
    assert p >= 0;
    assert s[p] == users[k] by {
      assert s[p] in multiset(users);
      var m :| 0 <= m < |users| && users[m] == s[p];
    }
    CountPermutation(users, s, HasMoreThan(c));
    CountPermutation(users, s, HasAtLeast(c));
    SortedPlaceAtLeast(s, p);
    SortedPlaceMoreThan(s, p);
  }

  /** The response body for a found user with its computed rank. */
  function ProfileOf(user: UserRecord, rank: int): (p: Profile)
    ensures p.user.id == user.id && p.user.memberSince == user.createdAt
    ensures p.stats == Stats(user.followers, user.following, user.ratings, user.watchlist, rank)
  {
    Profile(ProfileUser(user.id, user.name, user.username, user.email, user.image, user.bio, user.createdAt),
            Stats(user.followers, user.following, user.ratings, user.watchlist, rank))
  }

  /** The profile of a user listed in `allUsers` reports that user's own counts and a rank
      that places the user after everyone with more ratings and within those with as many. */
  lemma ProfileReportsRank(user: UserRecord, users: seq<UserEntry>, k: nat)
    requires k < |users| && users[k] == UserEntry(user.id, user.ratings)
    requires forall i, j :: 0 <= i < j < |users| ==> users[i].id != users[j].id
    ensures var p := ProfileOf(user, Rank(users, user.id));
      && p.user.id == user.id && p.stats.beenCount == user.ratings && p.stats.wantToTryCount == user.watchlist
      && 1 + MoreThan(users, user.ratings) <= p.stats.rank <= AtLeast(users, user.ratings)
  {
    RankBounds(users, k);
  }

  /** GET. `user` is the looked-up row and `allUsers` the fetched id/count rows, which the
      route sorts in place before looking the user up. */
  method Get(session: Option<UserId>, user: Option<UserRecord>, allUsers: array<UserEntry>) returns (resp: ProfileResponse)
    requires session.Some? && user.Some? ==> user.value.id == session.value
    modifies allUsers
    ensures session.None? ==> resp == ProfileError(401, "Unauthorized - Please sign in") && allUsers[..] == old(allUsers[..])
    ensures session.Some? && user.None? ==> resp == ProfileError(404, "User not found") && allUsers[..] == old(allUsers[..])
    ensures session.Some? && user.Some? ==>
      && allUsers[..] == ByRatings(old(allUsers[..]))
      && resp == Found(ProfileOf(user.value, Rank(old(allUsers[..]), user.value.id)))
  {
    if session.None? {
      return ProfileError(401, "Unauthorized - Please sign in");
    }
    if user.None? {
      return ProfileError(404, "User not found");
    }
    var sorted := ByRatings(allUsers[..]);
    forall i | 0 <= i < allUsers.Length {
      allUsers[i] := sorted[i];
    }
    assert allUsers[..] == sorted;
    var rank := FindUser(allUsers[..], user.value.id) + 1;
    resp := Found(ProfileOf(user.value, rank));
  }
}
