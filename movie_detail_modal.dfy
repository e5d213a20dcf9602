/** The movie modal's rating flow: direct submit, the initial-ranking phase and the compare
    phase. Each handler runs to completion; the replies of the requests it makes are
    parameters, and the requests it sends are logged in `requests`. */
module MovieDetailModal {
  import opened Common
  import opened RankingState
  import opened BinarySearchRanking
  import RateRoute

  datatype Phase = RatePhase | InitialPhase | ComparePhase

  /** The TMDB movie shown in the modal. */
  datatype MovieRef = MovieRef(id: int, title: string, posterPath: Option<string>, releaseDate: Option<string>)

  datatype Request =
    | RateCall(tmdbId: int, category: RatingCategory, movieCategory: string, title: string,
               posterPath: Option<string>, releaseDate: Option<string>, placement: Option<Placement>)
    | InitialCall(orderedIds: seq<RatingId>)

  datatype StateReply = StateLoaded(payload: StatePayload) | StateFailed(message: string)
  datatype OrderedReply = OrderedLoaded(ratings: seq<OrderedRating>) | OrderedFailed(message: string)
  datatype SaveReply = SaveOk | SaveFailed(message: string)
  datatype InitialReply = InitialOk | InitialFailed(message: string)

  /** Every state field of the modal, plus the log of requests sent so far. */
  datatype ModalState = ModalState(
    selectedRating: Option<RatingCategory>,
    saving: bool,
    saved: bool,
    actionError: Option<string>,
    phase: Phase,
    rankingState: Option<StatePayload>,
    initialRankingData: seq<RankingMovie>,
    pendingCategory: Option<RatingCategory>,
    selectedMovieCategory: Option<string>,
    comparisonList: seq<OrderedRating>,
    orderedCache: Option<seq<OrderedRating>>,
    rankingLoading: bool,
    requests: seq<Request>)

  const SelectCategoryFirst: string := "Select a movie category before rating."

  /** resetState: every session field back to its initial value (the log is the outside world). */
  function Reset(s: ModalState): (r: ModalState)
    ensures r.requests == s.requests
  {
    ModalState(None, false, false, None, RatePhase, None, [], None, None, [], None, false, s.requests)
  }

  function Bumped(st: Option<StatePayload>): (r: Option<StatePayload>)
    ensures r.Some? <==> st.Some?
    ensures r.Some? ==> r.value == st.value.(totalRatings := st.value.totalRatings + 1)
  {
    match st
    case None => None
    case Some(p) => Some(p.(totalRatings := p.totalRatings + 1))
  }

  /** submitRating. */
  function AfterSubmit(s: ModalState, movie: Option<MovieRef>, category: RatingCategory,
                       placement: Option<Placement>, reply: SaveReply): ModalState
  {
    if movie.None? then s
    else if s.selectedMovieCategory.None? then s.(actionError := Some(SelectCategoryFirst))
    else AfterSend(s, movie.value, s.selectedMovieCategory.value, category, placement, reply)
  }

  /** submitRating once the movie and its category are known: send, then apply the reply. */
  function AfterSend(s: ModalState, m: MovieRef, movieCategory: string, category: RatingCategory,
                     placement: Option<Placement>, reply: SaveReply): ModalState
  {
    var call := RateCall(m.id, category, movieCategory, m.title, m.posterPath, m.releaseDate, placement);
    var sent := s.(selectedRating := Some(category), saving := false, saved := false, actionError := None,
                   requests := s.requests + [call]);
    match reply
    case SaveOk =>
      sent.(saved := true, phase := RatePhase, comparisonList := [], pendingCategory := None,
            orderedCache := None, rankingState := Bumped(s.rankingState))
    case SaveFailed(message) => sent.(actionError := Some(message))
  }

  /** fetchRankingState: the payload, or None when the request failed. */
  function FetchedState(reply: StateReply): Option<StatePayload> {
    match reply
    case StateLoaded(p) => Some(p)
    case StateFailed(_) => None
  }

  function AfterFetchState(s: ModalState, reply: StateReply): ModalState {
    match reply
    case StateLoaded(p) =>
      s.(rankingState := Some(p),
         initialRankingData := if p.initialRatings.Some? then p.initialRatings.value else s.initialRankingData)
    case StateFailed(message) => s.(actionError := Some(message))
  }

  /** fetchOrderedRatings. */
  function FetchedOrdered(reply: OrderedReply): Option<seq<OrderedRating>> {
    match reply
    case OrderedLoaded(rs) => Some(rs)
    case OrderedFailed(_) => None
  }

  function AfterFetchOrdered(s: ModalState, reply: OrderedReply): ModalState {
    match reply
    case OrderedLoaded(rs) => s.(orderedCache := Some(rs))
    case OrderedFailed(message) => s.(actionError := Some(message))
  }

  /** The ranked list without the movie being rated, in its order. */
  function ComparisonCandidates(ordered: seq<OrderedRating>, tmdbId: int): (r: seq<OrderedRating>)
    ensures |r| <= |ordered|
    ensures forall x :: x in r <==> x in ordered && x.tmdbId != tmdbId
  {
    if ordered == [] then []
    else
      var rest := ComparisonCandidates(ordered[1..], tmdbId);
      if ordered[0].tmdbId != tmdbId then [ordered[0]] + rest else rest
  }

  /** The filter keeps every other movie's entries as often as the ranked list holds them. */
  lemma {:induction false} ComparisonMultiplicity(ordered: seq<OrderedRating>, tmdbId: int)
    ensures forall x ::
      multiset(ComparisonCandidates(ordered, tmdbId))[x] == if x.tmdbId == tmdbId then 0 else multiset(ordered)[x]
  {
    if ordered != [] {
      ComparisonMultiplicity(ordered[1..], tmdbId);
      assert ordered == [ordered[0]] + ordered[1..];
    }
  }

  /** Every earlier entry of `s` stands in relation `before` to every later one. */
  ghost predicate ChainedBy(s: seq<OrderedRating>, before: (OrderedRating, OrderedRating) -> bool) {
    forall i, j :: 0 <= i < j < |s| ==> before(s[i], s[j])
  }

  lemma PrependChained(h: OrderedRating, s: seq<OrderedRating>, before: (OrderedRating, OrderedRating) -> bool)
    requires ChainedBy(s, before) && forall x :: x in s ==> before(h, x)
    ensures ChainedBy([h] + s, before)
  {
    var r := [h] + s;
    forall i, j | 0 <= i < j < |r|
      ensures before(r[i], r[j])
    {
      assert r[j] == s[j - 1];
      if i > 0 {
        assert r[i] == s[i - 1];
      }
    }
  }

  /** The filter keeps the ranked order: any relation that holds between every earlier and
      later entry of the list (ascending position, say) still holds in the filtered list. */
  lemma {:induction false} ComparisonKeepsOrder(ordered: seq<OrderedRating>, tmdbId: int,
                                                before: (OrderedRating, OrderedRating) -> bool)
    requires ChainedBy(ordered, before)
    ensures ChainedBy(ComparisonCandidates(ordered, tmdbId), before)
  {
    if ordered != [] {
      var h, tail := ordered[0], ordered[1..];
      assert ChainedBy(tail, before) by {
        forall i, j | 0 <= i < j < |tail|
          ensures before(tail[i], tail[j])
        {
          assert tail[i] == ordered[i + 1] && tail[j] == ordered[j + 1];
        }
      }
      ComparisonKeepsOrder(tail, tmdbId, before);
      var rest := ComparisonCandidates(tail, tmdbId);
      if h.tmdbId != tmdbId {
        forall x | x in rest
          ensures before(h, x)
        {
          var m :| 0 <= m < |tail| && tail[m] == x;
          assert ordered[m + 1] == x;
        }
        PrependChained(h, rest, before);
      }
    }
  }

  function OrderedSource(s: ModalState, reply: OrderedReply): Option<seq<OrderedRating>> {
    if s.orderedCache.Some? then s.orderedCache else FetchedOrdered(reply)
  }

  /** startComparison. */
  function AfterStartComparison(s: ModalState, movie: Option<MovieRef>, category: RatingCategory, totalRatings: int,
                                orderedReply: OrderedReply, saveReply: SaveReply): ModalState
  {
    if movie.None? then s
    else if totalRatings < 10 then AfterSubmit(s, movie, category, None, saveReply)
    else
      var s1 := if s.orderedCache.Some? then s else AfterFetchOrdered(s, orderedReply);
      var ordered := OrderedSource(s, orderedReply);
      if ordered.None? then s1
      else
        var filtered := ComparisonCandidates(ordered.value, movie.value.id);
        if filtered == [] then AfterSubmit(s1, movie, category, None, saveReply)
        else s1.(comparisonList := filtered, phase := ComparePhase)
  }

  /** handleComparisonComplete. */
  function AfterComparisonComplete(s: ModalState, movie: Option<MovieRef>, placement: Placement, saveReply: SaveReply): ModalState {
    if s.pendingCategory.None? then s
    else AfterSubmit(s, movie, s.pendingCategory.value, Some(placement), saveReply)
  }

  function StateSource(s: ModalState, reply: StateReply): Option<StatePayload> {
    if s.rankingState.Some? then s.rankingState else FetchedState(reply)
  }

  /** handleRate. */
  function AfterRate(s: ModalState, movie: Option<MovieRef>, category: RatingCategory, stateReply: StateReply,
                     orderedReply: OrderedReply, saveReply: SaveReply): ModalState
  {
    if movie.None? then s
    else if s.selectedMovieCategory.None? then s.(actionError := Some(SelectCategoryFirst))
    else AfterBeginRate(s, movie, category, stateReply, orderedReply, saveReply)
  }

  /** handleRate past the checks: note the pending category, then get the ranking state. */
  function AfterBeginRate(s: ModalState, movie: Option<MovieRef>, category: RatingCategory, stateReply: StateReply,
                          orderedReply: OrderedReply, saveReply: SaveReply): ModalState
  {
    var s0 := s.(pendingCategory := Some(category), actionError := None);
    var s1 := if s.rankingState.Some? then s0 else AfterFetchState(s0, stateReply);
    var st := StateSource(s, stateReply);
    if st.None? then s1 else AfterKnownState(s1, movie, category, st.value, orderedReply, saveReply)
  }

  /** The rest of handleRate once the ranking state is known. */
  function AfterKnownState(s: ModalState, movie: Option<MovieRef>, category: RatingCategory, st: StatePayload,
                           orderedReply: OrderedReply, saveReply: SaveReply): ModalState
  {
    if st.needsInitialRanking then
      s.(phase := InitialPhase,
         initialRankingData := if st.initialRatings.Some? then st.initialRatings.value else s.initialRankingData)
    else if st.totalRatings < 10 then AfterSubmit(s, movie, category, None, saveReply)
    else AfterStartComparison(s, movie, category, st.totalRatings, orderedReply, saveReply)
  }

  /** handleInitialRankingSubmit. */
  function AfterInitialSubmit(s: ModalState, movie: Option<MovieRef>, orderedIds: seq<RatingId>, initialReply: InitialReply,
                              stateReply: StateReply, orderedReply: OrderedReply, saveReply: SaveReply): ModalState
  {
    var s0 := s.(rankingLoading := true, actionError := None, requests := s.requests + [InitialCall(orderedIds)]);
    match initialReply
    case InitialFailed(message) => s0.(actionError := Some(message), rankingLoading := false)
    case InitialOk =>
      var s1 := AfterFetchState(s0, stateReply).(phase := RatePhase);
      var updated := FetchedState(stateReply);
      var s2 := if s.pendingCategory.Some? && updated.Some? && !updated.value.needsInitialRanking then
                  AfterStartComparison(s1, movie, s.pendingCategory.value, updated.value.totalRatings, orderedReply, saveReply)
                else s1;
      s2.(rankingLoading := false)
  }

  // ---------------------------------------------------------------------------------------
  // Properties of the flow

  /** Without a selected movie category nothing is sent: the rating buttons report an error. */
  lemma NoRatingWithoutMovieCategory(s: ModalState, m: MovieRef, category: RatingCategory, placement: Placement,
                                     stateReply: StateReply, orderedReply: OrderedReply, saveReply: SaveReply)
    requires s.selectedMovieCategory.None?
    ensures AfterRate(s, Some(m), category, stateReply, orderedReply, saveReply) == s.(actionError := Some(SelectCategoryFirst))
    ensures AfterSubmit(s, Some(m), category, Some(placement), saveReply) == s.(actionError := Some(SelectCategoryFirst))
    ensures AfterComparisonComplete(s, Some(m), placement, saveReply).requests == s.requests
  {
  }

  /** The sent rating carries the selected movie category and the movie's own id. */
  lemma SubmitSendsOneRequest(s: ModalState, m: MovieRef, category: RatingCategory, placement: Option<Placement>, reply: SaveReply)
    requires s.selectedMovieCategory.Some?
    ensures var r := AfterSubmit(s, Some(m), category, placement, reply);
      && r.requests == s.requests + [RateCall(m.id, category, s.selectedMovieCategory.value, m.title, m.posterPath, m.releaseDate, placement)]
      && !r.saving && r.selectedRating == Some(category)
      && (reply.SaveFailed? ==> r.actionError == Some(reply.message) && r.phase == s.phase && r.pendingCategory == s.pendingCategory)
  {
  }

  /** After a successful save the session is back in the rate phase with nothing pending,
      and the known rating count has grown by exactly one. */
  lemma SaveClearsSession(s: ModalState, m: MovieRef, category: RatingCategory, placement: Option<Placement>)
    requires s.selectedMovieCategory.Some?
    ensures var r := AfterSubmit(s, Some(m), category, placement, SaveOk);
      && r.saved && r.phase == RatePhase && r.comparisonList == [] && r.pendingCategory.None? && r.orderedCache.None?
      && (s.rankingState.Some? ==> r.rankingState.Some? && r.rankingState.value.totalRatings == s.rankingState.value.totalRatings + 1)
      && (s.rankingState.None? ==> r.rankingState.None?)
  {
  }

  /** When the user still has to do the initial ranking, the modal switches to that phase
      and sends no rating. */
  lemma InitialRankingBlocksRating(s: ModalState, m: MovieRef, category: RatingCategory, stateReply: StateReply,
                                   orderedReply: OrderedReply, saveReply: SaveReply)
    requires s.selectedMovieCategory.Some?
    requires StateSource(s, stateReply).Some? && StateSource(s, stateReply).value.needsInitialRanking
    ensures var r := AfterRate(s, Some(m), category, stateReply, orderedReply, saveReply);
      && r.phase == InitialPhase && r.requests == s.requests && r.pendingCategory == Some(category)
      && (StateSource(s, stateReply).value.initialRatings.Some? ==>
            r.initialRankingData == StateSource(s, stateReply).value.initialRatings.value)
  {
  }

  /** Under ten ratings the rating goes out at once, without placement and without comparison. */
  lemma FewRatingsSubmitDirectly(s: ModalState, m: MovieRef, category: RatingCategory, stateReply: StateReply,
                                 orderedReply: OrderedReply, saveReply: SaveReply)
    requires s.selectedMovieCategory.Some?
    requires StateSource(s, stateReply).Some?
    requires !StateSource(s, stateReply).value.needsInitialRanking && StateSource(s, stateReply).value.totalRatings < 10
    ensures var r := AfterRate(s, Some(m), category, stateReply, orderedReply, saveReply);
      && r.requests == s.requests + [RateCall(m.id, category, s.selectedMovieCategory.value, m.title, m.posterPath, m.releaseDate, None)]
      && r.phase == (if saveReply.SaveOk? then RatePhase else s.phase)
      && r.comparisonList == (if saveReply.SaveOk? then [] else s.comparisonList)
  {
    var s0 := s.(pendingCategory := Some(category), actionError := None);
    var s1 := if s.rankingState.Some? then s0 else AfterFetchState(s0, stateReply);
    assert s1.requests == s.requests && s1.selectedMovieCategory == s.selectedMovieCategory;
    assert s1.phase == s.phase && s1.comparisonList == s.comparisonList;
    assert AfterRate(s, Some(m), category, stateReply, orderedReply, saveReply) == AfterSubmit(s1, Some(m), category, None, saveReply);
  }

  /** With ten ratings or more, the comparison list is the ranked list without this movie;
      an empty list sends the rating without placement, any other list opens the compare phase
      and sends nothing. */
  lemma ComparisonPhaseChoice(s: ModalState, m: MovieRef, category: RatingCategory, totalRatings: int,
                              orderedReply: OrderedReply, saveReply: SaveReply)
    requires totalRatings >= 10 && s.selectedMovieCategory.Some? && OrderedSource(s, orderedReply).Some?
    ensures var filtered := ComparisonCandidates(OrderedSource(s, orderedReply).value, m.id);
      var r := AfterStartComparison(s, Some(m), category, totalRatings, orderedReply, saveReply);
      && (filtered == [] ==>
            r.requests == s.requests + [RateCall(m.id, category, s.selectedMovieCategory.value, m.title, m.posterPath, m.releaseDate, None)])
      && (filtered != [] ==> r.phase == ComparePhase && r.comparisonList == filtered && r.requests == s.requests
                             && (forall x :: x in r.comparisonList ==> x.tmdbId != m.id))
  {
  }

  /** The placement found in the compare phase is sent unchanged with the pending category. */
  lemma PlacementForwarded(s: ModalState, m: MovieRef, placement: Placement, saveReply: SaveReply)
    requires s.pendingCategory.Some? && s.selectedMovieCategory.Some?
    ensures AfterComparisonComplete(s, Some(m), placement, saveReply).requests ==
      s.requests + [RateCall(m.id, s.pendingCategory.value, s.selectedMovieCategory.value, m.title, m.posterPath,
                             m.releaseDate, Some(placement))]
  {
  }

  /** After a successful initial ranking the state is reloaded; a pending rating then resumes
      with the comparison when the ranking is no longer required. */
  lemma InitialSubmitResumes(s: ModalState, m: MovieRef, orderedIds: seq<RatingId>, p: StatePayload,
                             orderedReply: OrderedReply, saveReply: SaveReply)
    requires s.pendingCategory.Some? && !p.needsInitialRanking
    ensures var s1 := s.(actionError := None, requests := s.requests + [InitialCall(orderedIds)],
                         rankingState := Some(p), phase := RatePhase, rankingLoading := true,
                         initialRankingData := if p.initialRatings.Some? then p.initialRatings.value else s.initialRankingData);
      AfterInitialSubmit(s, Some(m), orderedIds, InitialOk, StateLoaded(p), orderedReply, saveReply) ==
        AfterStartComparison(s1, Some(m), s.pendingCategory.value, p.totalRatings, orderedReply, saveReply).(rankingLoading := false)
  {
  }

  /** A failed initial ranking only reports the error: no phase change, no rating. */
  lemma InitialSubmitFailure(s: ModalState, m: MovieRef, orderedIds: seq<RatingId>, message: string,
                             stateReply: StateReply, orderedReply: OrderedReply, saveReply: SaveReply)
    ensures var r := AfterInitialSubmit(s, Some(m), orderedIds, InitialFailed(message), stateReply, orderedReply, saveReply);
      r == s.(actionError := Some(message), requests := s.requests + [InitialCall(orderedIds)], rankingLoading := false)
  {
  }

  /** A ranked list with one entry per movie and at least two entries always leaves
      something to compare with. */
  lemma {:induction false} CandidatesNonEmpty(ordered: seq<OrderedRating>, tmdbId: int)
    requires |ordered| >= 2 && ordered[0].tmdbId != ordered[1].tmdbId
    ensures ComparisonCandidates(ordered, tmdbId) != []
  {
    if ordered[0].tmdbId == tmdbId {
      assert ordered[1] in ordered && ordered[1].tmdbId != tmdbId;
    } else {
      assert ordered[0] in ordered;
    }
  }

  /** An empty comparison list while the user has ten ratings or more (a stale count or
      cache) makes the modal send a rating without placement, which the rate route refuses
      with 400 once the initial ranking is done. */
  lemma EmptyComparisonRefused(s: ModalState, m: MovieRef, category: RatingCategory, totalRatings: nat,
                               orderedReply: OrderedReply, saveReply: SaveReply)
    requires totalRatings >= 10 && s.selectedMovieCategory.Some? && OrderedSource(s, orderedReply).Some?
    requires ComparisonCandidates(OrderedSource(s, orderedReply).value, m.id) == []
    ensures var r := AfterStartComparison(s, Some(m), category, totalRatings, orderedReply, saveReply);
      && r.requests == s.requests + [RateCall(m.id, category, s.selectedMovieCategory.value, m.title, m.posterPath, m.releaseDate, None)]
      && RateRoute.PlanPosition(totalRatings, true, None) == RateRoute.Refuse(400, "Placement details are required")
  {
    ComparisonPhaseChoice(s, m, category, totalRatings, orderedReply, saveReply);
    RateRoute.MissingPlacementRefused(totalRatings);
  }

  // ---------------------------------------------------------------------------------------
  // The component

  class Modal {
    const movie: Option<MovieRef>
    var selectedRating: Option<RatingCategory>
    var saving: bool
    var saved: bool
    var actionError: Option<string>
    var phase: Phase
    var rankingState: Option<StatePayload>
    var initialRankingData: seq<RankingMovie>
    var pendingCategory: Option<RatingCategory>
    var selectedMovieCategory: Option<string>
    var comparisonList: seq<OrderedRating>
    var orderedCache: Option<seq<OrderedRating>>
    var rankingLoading: bool
    var requests: seq<Request>

    function State(): ModalState
      reads this
    {
      ModalState(selectedRating, saving, saved, actionError, phase, rankingState, initialRankingData,
                 pendingCategory, selectedMovieCategory, comparisonList, orderedCache, rankingLoading, requests)
    }

    constructor (movie: Option<MovieRef>)
      ensures this.movie == movie && State() == Reset(State()) && requests == []
    {
      this.movie := movie;
      selectedRating, saving, saved, actionError := None, false, false, None;
      phase, rankingState, initialRankingData, pendingCategory := RatePhase, None, [], None;
      selectedMovieCategory, comparisonList, orderedCache, rankingLoading := None, [], None, false;
      requests := [];
    }

    method ResetState()
      modifies this
      ensures State() == Reset(old(State()))
    {
      ClearRating();
      ClearFlow();
      ClearRanking();
    }

    /** The three groups of resetState's setters. */
    method ClearRating()
      modifies this
      ensures State() == old(State()).(selectedRating := None, saving := false, saved := false, actionError := None)
    {
      selectedRating, saving, saved, actionError := None, false, false, None;
    }

    method ClearFlow()
      modifies this
      ensures State() == old(State()).(phase := RatePhase, pendingCategory := None, comparisonList := [], orderedCache := None)
    {
      phase, pendingCategory, comparisonList, orderedCache := RatePhase, None, [], None;
    }

    method ClearRanking()
      modifies this
      ensures State() == old(State()).(rankingState := None, initialRankingData := [], selectedMovieCategory := None,
                                       rankingLoading := false)
    {
      rankingState, initialRankingData, selectedMovieCategory, rankingLoading := None, [], None, false;
    }

    /** A movie-category button. */
    method SelectMovieCategory(id: string)
      modifies this
      ensures State() == old(State()).(selectedMovieCategory := Some(id), actionError := None)
    {
      selectedMovieCategory, actionError := Some(id), None;
    }

    method FetchRankingState(reply: StateReply) returns (data: Option<StatePayload>)
      modifies this
      ensures data == FetchedState(reply)
      ensures State() == AfterFetchState(old(State()), reply)
    {
      match reply {
        case StateLoaded(p) =>
          rankingState, initialRankingData :=
            Some(p), if p.initialRatings.Some? then p.initialRatings.value else initialRankingData;
          data := Some(p);
        case StateFailed(message) =>
          actionError := Some(message);
          data := None;
      }
    }

    method FetchOrderedRatings(reply: OrderedReply) returns (formatted: Option<seq<OrderedRating>>)
      modifies this
      ensures formatted == FetchedOrdered(reply)
      ensures State() == AfterFetchOrdered(old(State()), reply)
    {
      match reply {
        case OrderedLoaded(rs) =>
          orderedCache := Some(rs);
          formatted := Some(rs);
        case OrderedFailed(message) =>
          actionError := Some(message);
          formatted := None;
      }
    }

    method SubmitRating(category: RatingCategory, placement: Option<Placement>, reply: SaveReply)
      modifies this
      ensures State() == AfterSubmit(old(State()), movie, category, placement, reply)
    {
      if movie.None? {
        return;
      }
      if selectedMovieCategory.None? {
        actionError := Some(SelectCategoryFirst);
        return;
      }
      SendRating(movie.value, selectedMovieCategory.value, category, placement, reply);
    }

    method SendRating(m: MovieRef, movieCategory: string, category: RatingCategory, placement: Option<Placement>,
                      reply: SaveReply)
      modifies this
      ensures State() == AfterSend(old(State()), m, movieCategory, category, placement, reply)
    {
      var call := RateCall(m.id, category, movieCategory, m.title, m.posterPath, m.releaseDate, placement);
      selectedRating, saving, saved, actionError, requests := Some(category), true, false, None, requests + [call];
      ApplySaveReply(reply);
    }

    /** What submitRating does with the reply of the rate route, and the final `saving` reset. */
    method ApplySaveReply(reply: SaveReply)
      modifies this
      ensures reply.SaveOk? ==>
        State() == old(State()).(saving := false, saved := true, phase := RatePhase, comparisonList := [],
                                 pendingCategory := None, orderedCache := None, rankingState := Bumped(old(rankingState)))
      ensures reply.SaveFailed? ==> State() == old(State()).(saving := false, actionError := Some(reply.message))
    {
      if reply.SaveOk? {
        saving, saved, phase, comparisonList, pendingCategory, orderedCache, rankingState :=
          false, true, RatePhase, [], None, None, Bumped(rankingState);
      } else {
        saving, actionError := false, Some(reply.message);
      }
    }

    method StartComparison(category: RatingCategory, totalRatings: int, orderedReply: OrderedReply, saveReply: SaveReply)
      modifies this
      ensures State() == AfterStartComparison(old(State()), movie, category, totalRatings, orderedReply, saveReply)
    {
      if movie.None? {
        return;
      }
      if totalRatings < 10 {
        SubmitRating(category, None, saveReply);
        return;
      }
      var ordered := orderedCache;
      if ordered.None? {
        ordered := FetchOrderedRatings(orderedReply);
      }
      if ordered.None? {
        return;
      }
      var filtered := ComparisonCandidates(ordered.value, movie.value.id);
      if |filtered| == 0 {
        SubmitRating(category, None, saveReply);
        return;
      }
      comparisonList, phase := filtered, ComparePhase;
    }

    /** The binary search's onComplete. */
    method HandleComparisonComplete(placement: Placement, saveReply: SaveReply)
      modifies this
      ensures State() == AfterComparisonComplete(old(State()), movie, placement, saveReply)
    {
      if pendingCategory.None? {
        return;
      }
      SubmitRating(pendingCategory.value, Some(placement), saveReply);
    }

    method HandleInitialRankingSubmit(orderedIds: seq<RatingId>, initialReply: InitialReply, stateReply: StateReply,
                                      orderedReply: OrderedReply, saveReply: SaveReply)
      modifies this
      ensures State() == AfterInitialSubmit(old(State()), movie, orderedIds, initialReply, stateReply, orderedReply, saveReply)
    {
      var pending := pendingCategory;
      rankingLoading, actionError, requests := true, None, requests + [InitialCall(orderedIds)];
      match initialReply {
        case InitialFailed(message) =>
          actionError, rankingLoading := Some(message), false;
          return;
        case InitialOk =>
          ResumeAfterInitial(pending, stateReply, orderedReply, saveReply);
      }
    }

    /** handleInitialRankingSubmit after the ranking was saved: reload the state, go back to
        the rate phase and resume a pending rating. */
    method ResumeAfterInitial(pending: Option<RatingCategory>, stateReply: StateReply, orderedReply: OrderedReply,
                              saveReply: SaveReply)
      modifies this
      ensures var s1 := AfterFetchState(old(State()), stateReply).(phase := RatePhase);
        var updated := FetchedState(stateReply);
        var s2 := if pending.Some? && updated.Some? && !updated.value.needsInitialRanking then
                    AfterStartComparison(s1, movie, pending.value, updated.value.totalRatings, orderedReply, saveReply)
                  else s1;
        State() == s2.(rankingLoading := false)
    {
      var updatedState := FetchRankingState(stateReply);
      phase := RatePhase;
      if pending.Some? && updatedState.Some? && !updatedState.value.needsInitialRanking {
        StartComparison(pending.value, updatedState.value.totalRatings, orderedReply, saveReply);
      }
      rankingLoading := false;
    }

    /** A rating button (bad, ok or great). */
    method HandleRate(category: RatingCategory, stateReply: StateReply, orderedReply: OrderedReply, saveReply: SaveReply)
      modifies this
      ensures State() == AfterRate(old(State()), movie, category, stateReply, orderedReply, saveReply)
    {
      if movie.None? {
        return;
      }
      if selectedMovieCategory.None? {
        actionError := Some(SelectCategoryFirst);
        return;
      }
      BeginRate(category, stateReply, orderedReply, saveReply);
    }

    method BeginRate(category: RatingCategory, stateReply: StateReply, orderedReply: OrderedReply, saveReply: SaveReply)
      modifies this
      ensures State() == AfterBeginRate(old(State()), movie, category, stateReply, orderedReply, saveReply)
    {
      pendingCategory, actionError := Some(category), None;
      var state := rankingState;
      if state.None? {
        state := FetchRankingState(stateReply);
      }
      if state.None? {
        return;
      }
      ContinueRate(category, state.value, orderedReply, saveReply);
    }

    method ContinueRate(category: RatingCategory, state: StatePayload, orderedReply: OrderedReply, saveReply: SaveReply)
      modifies this
      ensures State() == AfterKnownState(old(State()), movie, category, state, orderedReply, saveReply)
    {
      if state.needsInitialRanking {
        phase, initialRankingData :=
          InitialPhase, if state.initialRatings.Some? then state.initialRatings.value else initialRankingData;
        return;
      }
      if state.totalRatings < 10 {
        SubmitRating(category, None, saveReply);
        return;
      }
      StartComparison(category, state.totalRatings, orderedReply, saveReply);
    }

    /** The drag list's cancel button. */
    method CancelInitialRanking()
      modifies this
      ensures State() == old(State()).(phase := RatePhase, pendingCategory := None)
    {
      phase, pendingCategory := RatePhase, None;
    }

    /** The binary search's cancel (Undo / Skip). */
    method CancelComparison()
      modifies this
      ensures State() == old(State()).(phase := RatePhase, comparisonList := [], pendingCategory := None)
    {
      phase, comparisonList, pendingCategory := RatePhase, [], None;
    }
  }
}
