/** /api/feedback/requests: the vote tally and ordering of the community board, and the
    validation of new requests. */
module FeedbackRequests {
  import opened Common
  import opened Sorting

  datatype Vote = Vote(value: int, userId: UserId)

  datatype RequestType = Feature | Bug

  /** A stored feature request with its votes (author shown by id only). */
  datatype FeatureRequest = FeatureRequest(
    id: nat, title: string, description: string, kind: RequestType, status: string,
    createdAt: int, author: UserId, votes: seq<Vote>)

  /** A request as the board shows it. */
  datatype RequestItem = RequestItem(
    id: nat, title: string, description: string, kind: RequestType, status: string,
    createdAt: int, author: UserId, score: int, upvotes: nat, downvotes: nat, viewerVote: int)

  /** The sum of the vote values. */
  function Score(votes: seq<Vote>): int {
    if votes == [] then 0 else Score(votes[..|votes| - 1]) + votes[|votes| - 1].value
  }

  /** `votes.filter(v => v.value > 0).length`: the number of positions holding an up vote. */
  function Upvotes(votes: seq<Vote>): (n: nat)
    ensures n <= |votes|
    ensures n == |set k | 0 <= k < |votes| && votes[k].value > 0|
  {
    if votes == [] then 0
    else
      var init := votes[..|votes| - 1];
      assert (set k | 0 <= k < |votes| && votes[k].value > 0) ==
        (set k | 0 <= k < |init| && init[k].value > 0) + (if votes[|votes| - 1].value > 0 then {|votes| - 1} else {});
      Upvotes(init) + (if votes[|votes| - 1].value > 0 then 1 else 0)
  }

  /** `votes.filter(v => v.value < 0).length`: the number of positions holding a down vote. */
  function Downvotes(votes: seq<Vote>): (n: nat)
    ensures n <= |votes|
    ensures n == |set k | 0 <= k < |votes| && votes[k].value < 0|
  {
    if votes == [] then 0
    else
      var init := votes[..|votes| - 1];
      assert (set k | 0 <= k < |votes| && votes[k].value < 0) ==
        (set k | 0 <= k < |init| && init[k].value < 0) + (if votes[|votes| - 1].value < 0 then {|votes| - 1} else {});
      Downvotes(init) + (if votes[|votes| - 1].value < 0 then 1 else 0)
  }

  /** A vote is never counted both up and down. */
  lemma {:induction false} UpDownBounded(votes: seq<Vote>)
    ensures Upvotes(votes) + Downvotes(votes) <= |votes|
  {
    if votes != [] {
      UpDownBounded(votes[..|votes| - 1]);
    }
  }

  /** Appending a vote adds its value to the score. */
  lemma {:induction false} ScoreAppend(votes: seq<Vote>, more: seq<Vote>)
    ensures Score(votes + more) == Score(votes) + Score(more)
    decreases |more|
  {
    if more == [] {
      assert votes + more == votes;
    } else {
      assert (votes + more)[..|votes + more| - 1] == votes + more[..|more| - 1];
      ScoreAppend(votes, more[..|more| - 1]);
    }
  }

  /** With the values the vote route admits (-1, 0, 1) the score is upvotes minus downvotes. */
  lemma {:induction false} ScoreIsUpsMinusDowns(votes: seq<Vote>)
    requires forall k :: 0 <= k < |votes| ==> -1 <= votes[k].value <= 1
    ensures Score(votes) == Upvotes(votes) - Downvotes(votes)
  {
    if votes != [] {
      ScoreIsUpsMinusDowns(votes[..|votes| - 1]);
    }
  }

  /** The value of the viewer's first vote, or 0 when the viewer has not voted. */
  function ViewerVote(votes: seq<Vote>, viewer: UserId): (v: int)
    ensures (forall k :: 0 <= k < |votes| ==> votes[k].userId != viewer) ==> v == 0
    ensures forall k :: (0 <= k < |votes| && votes[k].userId == viewer && forall j :: 0 <= j < k ==> votes[j].userId != viewer) ==>
      v == votes[k].value
  {
    if votes == [] then 0
    else if votes[0].userId == viewer then votes[0].value
    else ViewerVote(votes[1..], viewer)
  }

  /** The viewer's vote is one of the viewer's own vote values, or 0. */
  lemma {:induction false} ViewerVoteIsOwn(votes: seq<Vote>, viewer: UserId)
    ensures ViewerVote(votes, viewer) == 0 ||
      exists k :: 0 <= k < |votes| && votes[k].userId == viewer && votes[k].value == ViewerVote(votes, viewer)
  {
    if votes != [] && votes[0].userId != viewer {
      ViewerVoteIsOwn(votes[1..], viewer);
      if ViewerVote(votes, viewer) != 0 {
        var k :| 0 <= k < |votes[1..]| && votes[1..][k].userId == viewer && votes[1..][k].value == ViewerVote(votes, viewer);
        assert votes[k + 1] == votes[1..][k];
      }
    }
  }

  /** The board item for one stored request, as seen by `viewer`. */
  function Format(r: FeatureRequest, viewer: UserId): (item: RequestItem)
    ensures item.id == r.id && item.createdAt == r.createdAt
    ensures item.score == Score(r.votes) && item.upvotes == Upvotes(r.votes) && item.downvotes == Downvotes(r.votes)
    ensures item.viewerVote == ViewerVote(r.votes, viewer)
  {
    RequestItem(r.id, r.title, r.description, r.kind, r.status, r.createdAt, r.author,
                Score(r.votes), Upvotes(r.votes), Downvotes(r.votes), ViewerVote(r.votes, viewer))
  }

  /** With the vote values the vote route admits, an item's tally is consistent: the score is
      upvotes minus downvotes, the two counts fit in the number of votes, and the viewer's
      vote is -1, 0 or 1. */
  lemma FormatTally(r: FeatureRequest, viewer: UserId)
    requires forall k :: 0 <= k < |r.votes| ==> -1 <= r.votes[k].value <= 1
    ensures var item := Format(r, viewer);
      && item.score == item.upvotes - item.downvotes
      && item.upvotes + item.downvotes <= |r.votes|
      && -1 <= item.viewerVote <= 1
  {
    ScoreIsUpsMinusDowns(r.votes);
    UpDownBounded(r.votes);
    ViewerVoteIsOwn(r.votes, viewer);
  }

  /** The board order: higher score first, then newer first. */
  predicate RankedBefore(a: RequestItem, b: RequestItem) {
    a.score > b.score || (a.score == b.score && a.createdAt >= b.createdAt)
  }

  lemma RankedBeforeIsPreorder()
    ensures TotalPreorder(RankedBefore)
  {
  }

  /** The rows the query reads: stored newest first, the first 100. */
  ghost predicate NewestFirst(stored: seq<FeatureRequest>) {
    forall i, j :: 0 <= i < j < |stored| ==> stored[i].createdAt >= stored[j].createdAt
  }

  function Newest(stored: seq<FeatureRequest>): (r: seq<FeatureRequest>)
    ensures |r| == Min(100, |stored|) && r == stored[..|r|]
  {
    stored[..Min(100, |stored|)]
  }

  /** With the rows newest first, the 100 kept are at least as new as every row left out. */
  lemma NewestKeepsNewest(stored: seq<FeatureRequest>)
    requires NewestFirst(stored)
    ensures forall i, j :: 0 <= i < |Newest(stored)| <= j < |stored| ==> Newest(stored)[i].createdAt >= stored[j].createdAt
  {
    var n := Newest(stored);
    forall i, j | 0 <= i < |n| <= j < |stored|
      ensures n[i].createdAt >= stored[j].createdAt
    {
      assert n[i] == stored[i];
    }
  }

  /** Every row formatted for the viewer, in the same order. */
  function Tallied(rows: seq<FeatureRequest>, viewer: UserId): (items: seq<RequestItem>)
    ensures |items| == |rows| && forall k :: 0 <= k < |rows| ==> items[k] == Format(rows[k], viewer)
  {
    seq(|rows|, k requires 0 <= k < |rows| => Format(rows[k], viewer))
  }

  datatype ListResponse = Listed(requests: seq<RequestItem>) | ListError(status: int, error: string)

  /** GET: the newest 100 requests, tallied for the viewer and sorted for the board. */
  function ListRequests(session: Option<UserId>, stored: seq<FeatureRequest>): (r: ListResponse)
    requires NewestFirst(stored)
    ensures session.None? ==> r == ListError(401, "Unauthorized - Please sign in")
    ensures session.Some? ==>
      && r.Listed?
      && |r.requests| == Min(100, |stored|)
      && multiset(r.requests) == multiset(Tallied(Newest(stored), session.value))
      && SortedBy(r.requests, RankedBefore)
  {
    match session
    case None => ListError(401, "Unauthorized - Please sign in")
    case Some(viewer) =>
      var formatted := Tallied(Newest(stored), viewer);
      RankedBeforeIsPreorder();
      Listed(Sort(formatted, RankedBefore))
  }

  /** On the sorted board a higher score always comes first, and among equal scores the
      newer request does. */
  lemma BoardOrder(items: seq<RequestItem>, i: nat, j: nat)
    requires SortedBy(items, RankedBefore) && i < j < |items|
    ensures items[i].score >= items[j].score
    ensures items[i].score == items[j].score ==> items[i].createdAt >= items[j].createdAt
  {
  }

  /** The parsed JSON body; a missing or non-string field is None. */
  datatype RequestBody = RequestBody(title: Option<string>, description: Option<string>, kind: Option<string>)

  function ParseKind(s: Option<string>): (k: Option<RequestType>)
    ensures k == Some(Feature) <==> s == Some("FEATURE")
    ensures k == Some(Bug) <==> s == Some("BUG")
  {
    match s
    case Some("FEATURE") => Some(Feature)
    case Some("BUG") => Some(Bug)
    case _ => None
  }

  /** requestSchema. */
  predicate ValidBody(body: RequestBody) {
    && body.title.Some? && 4 <= |body.title.value| <= 120
    && body.description.Some? && 10 <= |body.description.value| <= 5000
    && ParseKind(body.kind).Some?
  }

  datatype PostResponse =
    | Created(record: FeatureRequest, reported: RequestItem)
    | PostError(status: int, error: string)

  /** POST: validate, then create the request; `newId`, `now` and `defaultStatus` are the
      database defaults. */
  function PostRequest(session: Option<UserId>, body: RequestBody, newId: nat, now: int, defaultStatus: string): (r: PostResponse)
    ensures session.None? ==> r == PostError(401, "Unauthorized - Please sign in")
    ensures session.Some? && !ValidBody(body) ==> r == PostError(400, "Invalid request")
    ensures r.Created? <==> session.Some? && ValidBody(body)
    ensures r.Created? ==>
      && r.record == FeatureRequest(newId, body.title.value, body.description.value, ParseKind(body.kind).value,
                                    defaultStatus, now, session.value, [])
      && r.reported.score == 0 && r.reported.upvotes == 0 && r.reported.downvotes == 0 && r.reported.viewerVote == 0
  {
    if session.None? then PostError(401, "Unauthorized - Please sign in")
    else if !ValidBody(body) then PostError(400, "Invalid request")
    else
      var record := FeatureRequest(newId, body.title.value, body.description.value, ParseKind(body.kind).value,
                                   defaultStatus, now, session.value, []);
      Created(record, RequestItem(record.id, record.title, record.description, record.kind, record.status,
                                  record.createdAt, record.author, 0, 0, 0, 0))
  }

  /** The reported new request is what the board would show for it, to any viewer. */
  lemma CreatedMatchesBoard(session: Option<UserId>, body: RequestBody, newId: nat, now: int, defaultStatus: string, viewer: UserId)
    requires PostRequest(session, body, newId, now, defaultStatus).Created?
    ensures var c := PostRequest(session, body, newId, now, defaultStatus);
      c.reported == Format(c.record, viewer)
  {
  }
}
