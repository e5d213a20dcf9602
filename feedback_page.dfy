/** The community board page: the vote toggle, the status label, and the list updates after
    a vote or a new submission. Replies of the requests are parameters. */
module FeedbackPage {
  import opened Common
  import opened JsString
  import opened FeedbackRequests

  /** toggleVote: pressing the button of the vote already cast withdraws it. */
  function ToggleVote(viewerVote: int, value: int): (next: int)
    ensures viewerVote == value ==> next == 0
    ensures viewerVote != value ==> next == value
  {
    if viewerVote == value then 0 else value
  }

  /** The upvote and downvote buttons only ever send a value the vote route accepts, and
      pressing the same button twice cancels out. */
  lemma ToggleVoteAllowed(viewerVote: int, value: int)
    requires value == 1 || value == -1
    ensures ToggleVote(viewerVote, value) in {-1, 0, 1}
    ensures viewerVote != value ==> ToggleVote(ToggleVote(viewerVote, value), value) == 0
    ensures viewerVote == value ==> ToggleVote(ToggleVote(viewerVote, value), value) == value
  {
  }

  function LowerAscii(c: char): (d: char)
    ensures 'A' <= c <= 'Z' ==> d as int == c as int + 32
    ensures !('A' <= c <= 'Z') ==> d == c
  {
    if 'A' <= c <= 'Z' then (c as int + 32) as char else c
  }

  /** statusLabel: underscores become spaces, letters become lower case. */
  function StatusLabel(status: string): (shown: string)
    ensures |shown| == |status|
    ensures forall i :: 0 <= i < |status| ==> shown[i] == (if status[i] == '_' then ' ' else LowerAscii(status[i]))
  {
    seq(|status|, i requires 0 <= i < |status| => if status[i] == '_' then ' ' else LowerAscii(status[i]))
  }

  /** A label has no underscore and no upper-case ASCII letter, so labelling it again
      changes nothing. */
  lemma StatusLabelIdempotent(status: string)
    ensures forall i :: 0 <= i < |status| ==> StatusLabel(status)[i] != '_' && !('A' <= StatusLabel(status)[i] <= 'Z')
    ensures StatusLabel(StatusLabel(status)) == StatusLabel(status)
  {
  }

  /** The tally the vote route sends back. */
  datatype Tally = Tally(score: int, upvotes: nat, downvotes: nat, viewerVote: int)

  /** The `map` in castVote: the tally goes to the item with the voted id, nothing else changes. */
  function ApplyVote(items: seq<RequestItem>, id: nat, t: Tally): (r: seq<RequestItem>)
    ensures |r| == |items|
    ensures forall k :: 0 <= k < |items| && items[k].id != id ==> r[k] == items[k]
    ensures forall k :: 0 <= k < |items| && items[k].id == id ==>
      r[k] == items[k].(score := t.score, upvotes := t.upvotes, downvotes := t.downvotes, viewerVote := t.viewerVote)
  {
    seq(|items|, k requires 0 <= k < |items| =>
      if items[k].id == id then
        items[k].(score := t.score, upvotes := t.upvotes, downvotes := t.downvotes, viewerVote := t.viewerVote)
      else items[k])
  }

  /** Applying the same tally twice is applying it once. */
  lemma ApplyVoteIdempotent(items: seq<RequestItem>, id: nat, t: Tally)
    ensures ApplyVote(ApplyVote(items, id, t), id, t) == ApplyVote(items, id, t)
  {
  }

  datatype VoteReply = VoteOk(tally: Tally) | VoteFailed(message: string)
  datatype SubmitReply = SubmitOk(request: RequestItem) | SubmitFailed(message: string)
  datatype LoadReply = LoadOk(requests: seq<RequestItem>) | LoadFailed(message: string)

  class Board {
    var requests: seq<RequestItem>
    var loading: bool
    var error: Option<string>
    var title: string
    var description: string
    var kind: RequestType
    var submitting: bool
    /** The bodies posted so far. */
    var posted: seq<RequestBody>

    constructor ()
      ensures requests == [] && loading && error.None? && title == [] && description == [] && kind == Feature
      ensures !submitting && posted == []
    {
      requests, loading, error := [], true, None;
      title, description, kind := [], [], Feature;
      submitting, posted := false, [];
    }

    /** The load effect. */
    method Load(reply: LoadReply)
      modifies this
      ensures !loading
      ensures reply.LoadOk? ==> requests == reply.requests && error.None?
      ensures reply.LoadFailed? ==> requests == old(requests) && error == Some(reply.message)
      ensures title == old(title) && description == old(description) && kind == old(kind)
      ensures submitting == old(submitting) && posted == old(posted)
    {
      loading := true;
      error := None;
      match reply {
        case LoadOk(rs) => requests := rs;
        case LoadFailed(message) => error := Some(message);
      }
      loading := false;
    }

    /** castVote. */
    method CastVote(id: nat, reply: VoteReply)
      modifies this
      ensures reply.VoteOk? ==> requests == ApplyVote(old(requests), id, reply.tally) && error == old(error)
      ensures reply.VoteFailed? ==> requests == old(requests) && error == Some(reply.message)
      ensures loading == old(loading) && title == old(title) && description == old(description) && kind == old(kind)
      ensures submitting == old(submitting) && posted == old(posted)
    {
      match reply {
        case VoteOk(t) => requests := ApplyVote(requests, id, t);
        case VoteFailed(message) => error := Some(message);
      }
    }

    /** handleSubmit. */
    method HandleSubmit(reply: SubmitReply)
      modifies this
      ensures Trim(old(title)) == [] || Trim(old(description)) == [] ==>
        requests == old(requests) && error == old(error) && title == old(title) && description == old(description)
        && posted == old(posted) && submitting == old(submitting)
      ensures Trim(old(title)) != [] && Trim(old(description)) != [] ==>
        && posted == old(posted) + [RequestBody(Some(old(title)), Some(old(description)),
                                                Some(if old(kind) == Bug then "BUG" else "FEATURE"))]
        && !submitting
        && (reply.SubmitOk? ==> requests == [reply.request] + old(requests) && title == [] && description == [] && error.None?)
        && (reply.SubmitFailed? ==> requests == old(requests) && title == old(title) && description == old(description)
                                    && error == Some(reply.message))
      ensures kind == old(kind) && loading == old(loading)
    {
      if Trim(title) == [] || Trim(description) == [] {
        return;
      }
      SubmitForm(reply);
    }

    /** handleSubmit past the blank check: post the form, then apply the reply. */
    method SubmitForm(reply: SubmitReply)
      modifies this
      ensures posted == old(posted) + [RequestBody(Some(old(title)), Some(old(description)),
                                                   Some(if old(kind) == Bug then "BUG" else "FEATURE"))]
      ensures !submitting && kind == old(kind) && loading == old(loading)
      ensures reply.SubmitOk? ==> requests == [reply.request] + old(requests) && title == [] && description == [] && error.None?
      ensures reply.SubmitFailed? ==>
        requests == old(requests) && title == old(title) && description == old(description) && error == Some(reply.message)
    {
      submitting := true;
      error := None;
      posted := posted + [RequestBody(Some(title), Some(description), Some(if kind == Bug then "BUG" else "FEATURE"))];
      match reply {
        case SubmitOk(item) =>
          requests := [item] + requests;
          title, description := [], [];
        case SubmitFailed(message) =>
          error := Some(message);
      }
      submitting := false;
    }

    method SelectKind(k: RequestType)
      modifies this
      ensures kind == k && requests == old(requests) && title == old(title) && description == old(description)
      ensures error == old(error) && loading == old(loading) && submitting == old(submitting) && posted == old(posted)
    {
      kind := k;
    }
  }

  /** A title or description made of whitespace only is never posted. */
  lemma BlankNeverPosted(title: string)
    requires forall i :: 0 <= i < |title| ==> IsWhitespace(title[i])
    ensures Trim(title) == []
  {
    TrimEmptyIffBlank(title);
  }
}
