# Stack ranking in movie-belli, modelled in Dafny

movie-belli lets a user rate a movie as bad, ok or great. The rating is then placed in a
personal ranked list: each rating row carries a decimal `position` in (0, 1), and a higher
position means a better movie.

The project models the engine behind that list:

- **The rating gate and the position allocator.** `POST /api/movies/rate` works in three regimes:
  - under ten ratings, a fixed default position per category;
  - a forced one-time bulk ranking at ten ratings;
  - after that, a placement between two neighbours: the midpoint, with a rebalance to even spacing when there is no room, and a last-resort offset.
  - It then upserts the rating on (user, movie) and appends one activity.
- **The initial bulk ranking** (`POST /api/rankings/initial`). It validates the submitted ids, appends the user's remaining ids in creation order, and writes positions `(i+1)/(n+1)` with 0–10 scores and the user's flag in one batch.
- **The state route** (`GET /api/rankings/state`). It reports the same gate and the ten oldest ratings.
- **The drag-and-drop list** that produces the submitted order (splice moves).
- **The binary-search placement resolver.** It asks better / worse / too-tough questions until the insertion index is known and reports the two neighbours.
- **The movie modal's phase machine.** It chooses between direct submit, the initial-ranking phase and the compare phase.
- **The smaller pure pieces:**
  - the community board's vote tally, ordering and request validation;
  - the page's vote toggle and list updates;
  - username normalisation and validation;
  - the two numeric-to-category classifiers;
  - the movie-category list;
  - the profile route's rank.

Modelling choices:

- **Positions and scores are exact rationals** (`real`). `toFixed(2)` becomes round-half-up to two decimals.
- **The database is an in-memory class** (`RatingTable.Db`). It holds the rating rows, the users' `initialStackRanked` flags, the activity log and counters that stand for the database defaults of ids and timestamps. Rows are kept in creation order, so "ordered by createdAt" is the order of the sequence.
- **Each database transaction is one method.** Orders computed by the database ("position asc, createdAt asc") are passed in as parameters, with a precondition saying what the query returns.
- **Client components are classes whose fields are the React state.**
  - Each handler is a method proved equal to a pure function of the old state: `State() == AfterRate(old(State()), …)`.
  - The HTTP replies a handler waits for are parameters.
  - The requests it sends are logged in a `requests` field.
- **Two cross-file facts are proved as lemmas:**
  - `MovieRatingCard.CategoryValuesMisdrawn`: the rating card draws the stored category values 1, 2, 3 as bad, bad, ok.
  - `MovieDetailModal.EmptyComparisonRefused`: the modal can send a placement-less rating that the rate route refuses with 400.

Modules, one per file:

- `common.dfy` is `Common`.
- `js_string.dfy` is `JsString`, for `String.prototype.trim`.
- `sorting.dfy` is `Sorting`, a stable sort standing for `Array.prototype.sort`.
- `positions.dfy` is `Positions`.
- `rating_table.dfy` is `RatingTable`.
- `ranking_state.dfy` is `RankingState`.
- `rate_route.dfy` is `RateRoute`.
- `initial_ranking_route.dfy` is `InitialRankingRoute`.
- `binary_search_ranking.dfy` is `BinarySearchRanking`.
- `initial_ranking_list.dfy` is `InitialRankingList`.
- `movie_detail_modal.dfy` is `MovieDetailModal`.
- `feedback_requests.dfy` is `FeedbackRequests`.
- `feedback_page.dfy` is `FeedbackPage`.
- `username.dfy` is `Username`.
- `movie_rating_card.dfy` is `MovieRatingCard`.
- `movie_categories.dfy` is `MovieCategories`.
- `profile_route.dfy` is `ProfileRoute`.

## Model

| member | source | states |
|---|---|---|
| JsString.TrimStart | src/app/feedback/page.tsx:91 | the result is a suffix of the input that does not start with whitespace, and everything dropped is whitespace |
| JsString.TrimEnd | src/app/feedback/page.tsx:91 | the result is a prefix of the input that does not end with whitespace, and everything dropped is whitespace |
| JsString.Trim | src/lib/username.ts:6 | the result is a slice `s[a..b]` of the input that neither starts nor ends with whitespace, and every character outside the slice is whitespace |
| JsString.TrimFixedPoint | src/lib/username.ts:6 | trimming a string without leading or trailing whitespace returns it unchanged |
| JsString.TrimEmptyIffBlank | src/app/feedback/page.tsx:91 | `s.trim()` is empty exactly when every character of `s` is whitespace |
| Sorting.Insert | src/app/api/feedback/requests/route.ts:69 | inserting into a sorted list gives a sorted list with the same elements plus the new one |
| Sorting.Sort | src/app/api/feedback/requests/route.ts:69 | the sort returns a permutation of its input (same multiset and length) that is ordered by the comparator |
| Positions.CategoryValue | src/app/api/movies/rate/route.ts:22-26 | the stored value is 1 to 3, with 1 exactly for bad and 3 exactly for great |
| Positions.DefaultPosition | src/app/api/movies/rate/route.ts:28-32 | every default position lies strictly inside (0, 1) |
| Positions.DefaultPositionsOrdered | src/app/api/movies/rate/route.ts:28-32 | 0 < bad < ok < great < 1 |
| Positions.Midpoint | src/app/api/movies/rate/route.ts:34-35 | the midpoint is equidistant from both ends and strictly between them when a < b |
| Positions.NormalizePosition | src/app/api/movies/rate/route.ts:37-40 | every evenly spaced position lies in (0, 1), and position times (n+1) equals i+1 |
| Positions.NormalizeStrictlyIncreasing | src/app/api/movies/rate/route.ts:37-40 | evenly spaced positions strictly increase with the index |
| Positions.NormalizeEvenlySpaced | src/app/api/rankings/initial/route.ts:6-9 | neighbouring positions differ by exactly 1/(n+1) |
| Positions.TenItemsPositions | src/app/api/rankings/initial/route.ts:6-9 | for ten items the positions are 1/11 … 10/11 |
| Positions.RoundTo2 | src/app/api/rankings/initial/route.ts:18 | rounding to two decimals moves a non-negative value by at most 0.005 and keeps it non-negative |
| Positions.RoundTo2Monotone | src/app/api/rankings/initial/route.ts:18 | rounding to two decimals is monotone |
| Positions.ClampScaled | src/app/api/rankings/initial/route.ts:12-17 | the clamped value lies in [0, 10], and is ten times the position for positions in [0, 1] |
| Positions.PositionToRating | src/app/api/rankings/initial/route.ts:11-19 | the score lies in [0, 10], and for positions in (0, 1) it is 10·position rounded to two decimals |
| Positions.PositionToRatingMonotone | src/app/api/rankings/initial/route.ts:11-19 | a higher position never gets a lower score |
| RatingTable.IndexOfId | src/app/api/movies/rate/route.ts:73-76 | a lookup by id finds a row with that id, or none exists |
| RatingTable.IndexOfMovie | src/app/api/movies/rate/route.ts:174-179 | a lookup by (user, movie) finds a row with that key, or none exists |
| RatingTable.UserRows | src/app/api/rankings/initial/route.ts:42-46 | the result holds exactly the table's rows that belong to the user |
| RatingTable.UserRowsCreationOrdered | src/app/api/rankings/initial/route.ts:44 | one user's rows are still in strictly increasing creation order |
| RatingTable.UserIds | src/app/api/rankings/initial/route.ts:67-68 | the ids of the user's rows, one per row, in creation order |
| RatingTable.UserIdsMembership | src/app/api/rankings/initial/route.ts:55 | an id is among the user's ids exactly when some row of the user has it |
| RatingTable.UserIdsDistinct | src/app/api/rankings/initial/route.ts:42-46 | a user's rating ids are pairwise distinct |
| RatingTable.CountForCountsRows | src/app/api/movies/rate/route.ts:146-148 | the rating count equals the number of table positions holding a row of the user |
| RatingTable.BoundForRow | src/app/api/movies/rate/route.ts:86-87 | with unique ids, the bound for an id is the position of whichever row carries it (the boundary when that row has none), and the boundary when no row carries it |
| RatingTable.Assign | src/app/api/rankings/initial/route.ts:75-78 | an update by id changes at most the position and rating of rows |
| RatingTable.Respaced | src/app/api/rankings/initial/route.ts:73-79 | a batch of updates changes at most positions and ratings |
| RatingTable.AssignAt | src/app/api/rankings/initial/route.ts:75-78 | an update by id writes the row with that id and only that one |
| RatingTable.RespacedRow | src/app/api/rankings/initial/route.ts:73-79 | after k updates, a row listed at index j < k has position (j+1)/(n+1), and an unlisted row is untouched |
| RatingTable.RespacedEffect | src/app/api/rankings/initial/route.ts:72-84 | a whole batch over a duplicate-free list: listed rows get their spaced position (and score when rescoring), the rest are unchanged |
| RatingTable.UpsertEffect | src/app/api/movies/rate/route.ts:173-196 | after the upsert the user has exactly one row for the movie holding the new values; every other row is unchanged; an existing row keeps its id, a new row is appended with the fresh id and time; uniqueness and creation order still hold |
| RatingTable.IndexOfMovieUnique | src/app/api/movies/rate/route.ts:174-179 | under the (user, movie) uniqueness constraint the lookup returns the one matching row |
| RatingTable.UpsertTwice | src/app/api/movies/rate/route.ts:180-186 | rating the same movie twice leaves the table a single submission of the second values would leave, with the identity the first one assigned |
| RatingTable.Db.Respace | src/app/api/movies/rate/route.ts:56-63 | the loop of updates leaves the table equal to the batch specification, keeps the invariants and touches no other state |
| RankingState.OldestTen | src/app/api/rankings/state/route.ts:41-52 | the first min(10, count) rows of the user in creation order |
| RankingState.OldestTenAreOldest | src/app/api/rankings/state/route.ts:41-52 | the offered rows are in ascending creation order and older than every row of the user left out |
| RankingState.GetState | src/app/api/rankings/state/route.ts:5-67 | 401 without session, 404 for an unknown user; otherwise the count, `needsInitialRanking` = count ≥ 10 and not ranked, and `initialRatings` present exactly then, with ten entries copying id, movie, title, poster and rating of the oldest rows |
| RateRoute.ParseCategory | src/app/api/movies/rate/route.ts:107 | exactly "bad", "ok" and "great" are categories |
| RateRoute.CheckBody | src/app/api/movies/rate/route.ts:107-126 | a body is accepted iff the category is known, tmdbId is a non-zero number and a non-empty title is present; an unknown category gives "Invalid rating category", then a missing tmdbId "Missing tmdbId", then a missing title "Movie title is required" |
| RateRoute.PlanPosition | src/app/api/movies/rate/route.ts:150-169 | 409 iff count ≥ 10 and not ranked; the default position iff count < 10; the placement iff count ≥ 10, ranked and a placement is given; 400 iff it is missing |
| RateRoute.GateAgreesWithState | src/app/api/rankings/state/route.ts:29 | the rate route refuses with 409 exactly when the state route reports `needsInitialRanking` for the same user |
| RateRoute.MissingPlacementRefused | src/app/api/movies/rate/route.ts:162-166 | past ten ratings, after the initial ranking, a rating without placement is refused with 400 |
| RateRoute.RebalancedPosition | src/app/api/movies/rate/route.ts:56-63 | the rating listed at index i gets position (i+1)/(n+1) |
| RateRoute.RebalanceSkipsOthers | src/app/api/movies/rate/route.ts:43-44 | ratings of other users are not touched by a rebalance |
| RateRoute.RebalanceEffect | src/app/api/movies/rate/route.ts:42-64 | the positions of all listed ratings are evenly spaced in list order, and other users' ratings are unchanged |
| RateRoute.RebalanceKeepsOrder | src/app/api/movies/rate/route.ts:42-64 | after a rebalance, positions strictly increase along the previous (position, createdAt) order |
| RateRoute.Rebalance | src/app/api/movies/rate/route.ts:42-64 | the method leaves the table as the batch specification says, gives listed ratings spaced positions, leaves other users' rows alone, and writes nothing for an empty list |
| RateRoute.ResolvePlacementPosition | src/app/api/movies/rate/route.ts:66-99 | when the stored neighbours leave room, nothing is written and the result is their midpoint, strictly between them; when they leave none and no rebalance has happened yet, the table becomes the respaced one, and the result is the midpoint of the new bounds, or before + 1e-10 if there is still no room |
| RateRoute.Rate | src/app/api/movies/rate/route.ts:101-210 | the error cases in order with no writes (400 body, 401, 404, 409, 400 placement), the position regime by count (past ten ratings: the midpoint of the neighbour bounds when there is room, with no rebalance; when there is none, the table is first respaced and the position is the midpoint of the new bounds, or `before + 1e-10` if there is still no room), the upsert with the stored value 1/2/3, one appended activity, and the returned row is the stored one |
| RateRoute.Save | src/app/api/movies/rate/route.ts:171-208 | the table becomes the upsert of the input, the saved row is the one stored for (user, movie), and exactly one activity is appended |
| InitialRankingRoute.Remaining | src/app/api/rankings/initial/route.ts:66-69 | exactly the user's ids not submitted, in their original (increasing) order |
| InitialRankingRoute.FinalOrderPermutation | src/app/api/rankings/initial/route.ts:66-70 | with a duplicate-free submission of the user's own ids, `finalOrder` lists every rating of the user exactly once |
| InitialRankingRoute.InitialRankingEffect | src/app/api/rankings/initial/route.ts:72-84 | each of the user's ratings gets the position of its index in `finalOrder` and the score derived from it; other users' ratings are unchanged |
| InitialRankingRoute.InitialPositionsOrdered | src/app/api/rankings/initial/route.ts:73-74 | positions along `finalOrder` lie in (0, 1) and strictly increase, and the derived scores never decrease |
| InitialRankingRoute.PostInitial | src/app/api/rankings/initial/route.ts:21-86 | 401, 400 for missing or empty ids, 400 under ten ratings and 400 for a foreign id, each with no writes; success exactly otherwise, writing every position, score and the flag together |
| InitialRankingRoute.Commit | src/app/api/rankings/initial/route.ts:72-84 | the transaction respaces and rescores the listed rows and sets the user's flag, and nothing else |
| BinarySearchRanking.DescribeRating | src/components/ranking/BinarySearchRanking.tsx:34-44 | integers 1 to 3 name their category; any other value is Bad below 4, Ok up to 7 and Great above |
| BinarySearchRanking.DescribeRatingMixesScales | src/components/ranking/BinarySearchRanking.tsx:34-44 | the label is not monotone: 3 reads Great but 3.5 reads Bad, and 2 reads Ok but 2.5 reads Bad |
| BinarySearchRanking.ThirdSizes | src/components/ranking/BinarySearchRanking.tsx:51-56 | the third sizes sum to the total, satisfy bad ≥ ok ≥ great ≥ 0, and differ by at most one |
| BinarySearchRanking.CategoryRange | src/components/ranking/BinarySearchRanking.tsx:58-62 | each range lies inside the list and has the size of its third |
| BinarySearchRanking.ThirdsTile | src/components/ranking/BinarySearchRanking.tsx:58-62 | the bad, ok and great ranges are adjacent and in that order |
| BinarySearchRanking.ComputeInitialIndex | src/components/ranking/BinarySearchRanking.tsx:46-69 | 0 for an empty list; otherwise an index of the list, inside the category's third when that third is non-empty, else total/2 |
| BinarySearchRanking.Effective | src/components/ranking/BinarySearchRanking.tsx:121-131 | better and worse act as themselves; similar acts as worse exactly when the lower side is not larger |
| BinarySearchRanking.Next | src/components/ranking/BinarySearchRanking.tsx:117-147 | a continuing step keeps 0 ≤ low ≤ current ≤ high < total, strictly shrinks high − low and probes the middle; it completes exactly when the moved bound crosses, with the insertion index in [0, total] |
| BinarySearchRanking.SimilarKeepsSmallerSide | src/components/ranking/BinarySearchRanking.tsx:125-131 | "similar" is the worse step when the lower side is not larger, else the better step |
| BinarySearchRanking.RunCompletes | src/components/ranking/BinarySearchRanking.tsx:117-147 | any sequence of high − low + 1 decisions (at most `total`) finishes the search with an insertion index in [0, total] |
| BinarySearchRanking.PlacementAt | src/components/ranking/BinarySearchRanking.tsx:133-141 | beforeId is null iff the index is 0 and else is the item before it; afterId is null iff the index is the total and else is the item at it |
| BinarySearchRanking.RankingSession.constructor | src/components/ranking/BinarySearchRanking.tsx:84-109 | a fresh session opens at (0, max(total−1, 0), seed index); an empty list completes at once with (null, null) |
| BinarySearchRanking.RankingSession.Decide | src/components/ranking/BinarySearchRanking.tsx:117-147 | the session follows `Next`: it either moves to the shrunk window or completes at the insertion index with its neighbours; candidates the movie beat end below the insertion index, and those that beat it end at or above it |
| BinarySearchRanking.RankingSession.Advance | src/components/ranking/BinarySearchRanking.tsx:144-146 | the window becomes (nextLow, nextHigh, their midpoint) and the session stays open |
| BinarySearchRanking.RankingSession.Finish | src/components/ranking/BinarySearchRanking.tsx:133-141 | the session completes with the neighbours of the insertion index |
| InitialRankingList.RemoveAt | src/components/ranking/InitialRankingList.tsx:48 | `splice(i, 1)` drops the i-th element and shifts the later ones down |
| InitialRankingList.InsertAt | src/components/ranking/InitialRankingList.tsx:49 | `splice(i, 0, x)` puts x at index i and shifts the later ones up |
| InitialRankingList.MoveEffect | src/components/ranking/InitialRankingList.tsx:47-49 | a move keeps length and elements, puts the moved item at `to`, keeps the others' relative order, keeps items outside [min, max] in place and shifts the ones inside by one |
| Common.FirstIndex | src/components/ranking/InitialRankingList.tsx:42-43 | −1 iff no element has the id, else the first index whose element has it; the drag list and the profile route (src/app/api/users/me/profile/route.ts:60) both look ids up with it |
| InitialRankingList.IdsOf | src/components/ranking/InitialRankingList.tsx:64 | one id per entry, in order |
| InitialRankingList.IdsOfMoved | src/components/ranking/InitialRankingList.tsx:47-49 | moving entries then reading ids equals moving the ids |
| InitialRankingList.RankingList.constructor | src/components/ranking/InitialRankingList.tsx:28-29 | the list starts as given with no drag in progress |
| InitialRankingList.RankingList.DragStart | src/components/ranking/InitialRankingList.tsx:31-33 | records the dragged id and leaves the order alone |
| InitialRankingList.RankingList.DragEnd | src/components/ranking/InitialRankingList.tsx:54-56 | clears the dragged id and leaves the order alone |
| InitialRankingList.RankingList.DragOver | src/components/ranking/InitialRankingList.tsx:35-52 | no drag, dragging over itself or an unknown id leave the order unchanged; otherwise the dragged entry moves to the target's index, as a permutation |
| InitialRankingList.RankingList.SubmitOrder | src/components/ranking/InitialRankingList.tsx:63-65 | one id per entry in current order, and they are the ids the list started with |
| InitialRankingList.SubmittedIdsDistinct | src/components/ranking/InitialRankingList.tsx:63-65 | a list that started duplicate-free submits duplicate-free ids |
| MovieDetailModal.Reset | src/components/movie/MovieDetailModal.tsx:84-97 | resetting keeps only the request log |
| MovieDetailModal.Bumped | src/components/movie/MovieDetailModal.tsx:212-219 | a known rating count grows by one; an unknown state stays unknown |
| MovieDetailModal.ComparisonCandidates | src/components/movie/MovieDetailModal.tsx:248 | exactly the ranked entries whose movie is not the one being rated |
| MovieDetailModal.ComparisonMultiplicity | src/components/movie/MovieDetailModal.tsx:248 | every entry of another movie is kept as often as the ranked list holds it, and entries of the rated movie are dropped |
| MovieDetailModal.ComparisonKeepsOrder | src/components/movie/MovieDetailModal.tsx:248 | the filter keeps the ranked order: any relation between every earlier and later entry of the list still holds in the filtered list |
| MovieDetailModal.NoRatingWithoutMovieCategory | src/components/movie/MovieDetailModal.tsx:173-176 | without a movie category both entry points only set the error and send nothing |
| MovieDetailModal.SubmitSendsOneRequest | src/components/movie/MovieDetailModal.tsx:177-205 | one rate request with this movie, category, movie category and placement; a failure keeps the phase and the pending category |
| MovieDetailModal.SaveClearsSession | src/components/movie/MovieDetailModal.tsx:207-219 | after a successful save: rate phase, empty comparison list, nothing pending, no cache, count + 1 |
| MovieDetailModal.InitialRankingBlocksRating | src/components/movie/MovieDetailModal.tsx:311-317 | when the initial ranking is needed the phase becomes initial, the offered ratings are shown and no rating is sent |
| MovieDetailModal.FewRatingsSubmitDirectly | src/components/movie/MovieDetailModal.tsx:319-322 | under ten ratings the rating is sent without placement and no comparison opens |
| MovieDetailModal.ComparisonPhaseChoice | src/components/movie/MovieDetailModal.tsx:244-254 | an empty comparison list sends the rating without placement; a non-empty one opens the compare phase without this movie and sends nothing |
| MovieDetailModal.PlacementForwarded | src/components/movie/MovieDetailModal.tsx:259-265 | the placement is sent unchanged with the pending category |
| MovieDetailModal.InitialSubmitResumes | src/components/movie/MovieDetailModal.tsx:282-286 | after a saved initial ranking the state is reloaded and a pending rating resumes with the comparison |
| MovieDetailModal.InitialSubmitFailure | src/components/movie/MovieDetailModal.tsx:287-296 | a failed initial ranking only reports the error |
| MovieDetailModal.CandidatesNonEmpty | src/components/movie/MovieDetailModal.tsx:248 | two entries for different movies always leave a candidate |
| MovieDetailModal.EmptyComparisonRefused | src/components/movie/MovieDetailModal.tsx:249-252 | an empty comparison list past ten ratings sends a placement-less rating that the rate route refuses with 400 |
| MovieDetailModal.Modal.constructor | src/components/movie/MovieDetailModal.tsx:68-82 | the modal starts in the reset state with an empty log |
| MovieDetailModal.Modal.ResetState | src/components/movie/MovieDetailModal.tsx:84-97 | every session field returns to its initial value |
| MovieDetailModal.Modal.ClearRating | src/components/movie/MovieDetailModal.tsx:85-88 | clears the selection, saving, saved and error fields, and nothing else |
| MovieDetailModal.Modal.ClearFlow | src/components/movie/MovieDetailModal.tsx:89-95 | clears the phase, pending category, comparison list and cache, and nothing else |
| MovieDetailModal.Modal.ClearRanking | src/components/movie/MovieDetailModal.tsx:90-96 | clears the ranking state, initial data, movie category and loading flag, and nothing else |
| MovieDetailModal.Modal.SelectMovieCategory | src/components/movie/MovieDetailModal.tsx:438-441 | sets the movie category and clears the error |
| MovieDetailModal.Modal.FetchRankingState | src/components/movie/MovieDetailModal.tsx:105-131 | stores the loaded state (and its initial ratings) or the error, and returns the payload or null |
| MovieDetailModal.Modal.FetchOrderedRatings | src/components/movie/MovieDetailModal.tsx:133-165 | caches the loaded list or records the error, and returns the list or null |
| MovieDetailModal.Modal.SubmitRating | src/components/movie/MovieDetailModal.tsx:167-235 | the new state is `AfterSubmit` of the old one, whose properties are the lemmas above |
| MovieDetailModal.Modal.SendRating | src/components/movie/MovieDetailModal.tsx:177-205 | the new state is the sent request plus the applied reply |
| MovieDetailModal.Modal.ApplySaveReply | src/components/movie/MovieDetailModal.tsx:207-232 | success resets the flow and bumps the count; failure records the message; saving ends false either way |
| MovieDetailModal.Modal.StartComparison | src/components/movie/MovieDetailModal.tsx:237-257 | the new state is `AfterStartComparison` of the old one |
| MovieDetailModal.Modal.HandleComparisonComplete | src/components/movie/MovieDetailModal.tsx:259-265 | the new state is `AfterComparisonComplete` of the old one |
| MovieDetailModal.Modal.HandleInitialRankingSubmit | src/components/movie/MovieDetailModal.tsx:267-297 | the new state is `AfterInitialSubmit` of the old one |
| MovieDetailModal.Modal.ResumeAfterInitial | src/components/movie/MovieDetailModal.tsx:282-286 | reloads the state, returns to the rate phase and resumes a pending rating when the ranking is no longer needed |
| MovieDetailModal.Modal.HandleRate | src/components/movie/MovieDetailModal.tsx:299-325 | the new state is `AfterRate` of the old one |
| MovieDetailModal.Modal.BeginRate | src/components/movie/MovieDetailModal.tsx:305-309 | notes the pending category and uses the cached or fetched state |
| MovieDetailModal.Modal.ContinueRate | src/components/movie/MovieDetailModal.tsx:311-324 | chooses the initial phase, a direct submit or the comparison from the state |
| MovieDetailModal.Modal.CancelInitialRanking | src/components/movie/MovieDetailModal.tsx:465-468 | back to the rate phase with nothing pending |
| MovieDetailModal.Modal.CancelComparison | src/components/movie/MovieDetailModal.tsx:477-481 | back to the rate phase with no comparison list and nothing pending |
| FeedbackRequests.Upvotes | src/app/api/feedback/requests/route.ts:52 | the upvote count is the number of positions holding a vote with value > 0 |
| FeedbackRequests.Downvotes | src/app/api/feedback/requests/route.ts:53 | the downvote count is the number of positions holding a vote with value < 0 |
| FeedbackRequests.UpDownBounded | src/app/api/feedback/requests/route.ts:52-53 | upvotes + downvotes ≤ number of votes |
| FeedbackRequests.ScoreAppend | src/app/api/feedback/requests/route.ts:48 | the score is additive over concatenation, so it is the sum of the values |
| FeedbackRequests.ScoreIsUpsMinusDowns | src/app/api/feedback/requests/route.ts:48-53 | with votes in {−1, 0, 1} the score is upvotes minus downvotes |
| FeedbackRequests.ViewerVote | src/app/api/feedback/requests/route.ts:49-51 | 0 when the viewer has not voted, else the value of the viewer's first vote |
| FeedbackRequests.ViewerVoteIsOwn | src/app/api/feedback/requests/route.ts:49-51 | the viewer's vote is 0 or the value of one of the viewer's own votes |
| FeedbackRequests.FormatTally | src/app/api/feedback/requests/route.ts:46-67 | with vote values in {−1, 0, 1}, an item's score is upvotes − downvotes, the two counts fit in the number of votes, and the viewer's vote is −1, 0 or 1 |
| FeedbackRequests.RankedBeforeIsPreorder | src/app/api/feedback/requests/route.ts:69 | the board comparator is a total preorder, so the sort is well defined |
| FeedbackRequests.Newest | src/app/api/feedback/requests/route.ts:40-43 | the first min(100, n) stored requests |
| FeedbackRequests.NewestKeepsNewest | src/app/api/feedback/requests/route.ts:40-43 | the kept requests are at least as new as every one left out |
| FeedbackRequests.Tallied | src/app/api/feedback/requests/route.ts:46-68 | each row formatted for the viewer, in the same order |
| FeedbackRequests.ListRequests | src/app/api/feedback/requests/route.ts:12-71 | 401 without session; otherwise a permutation of the tallied newest 100, sorted for the board |
| FeedbackRequests.BoardOrder | src/app/api/feedback/requests/route.ts:69 | on the board a higher score comes first, and among equal scores the newer request does |
| FeedbackRequests.ParseKind | src/app/api/feedback/requests/route.ts:9 | exactly "FEATURE" and "BUG" are request types |
| FeedbackRequests.PostRequest | src/app/api/feedback/requests/route.ts:81-137 | 401 without session, 400 for an invalid body, created exactly otherwise, with the submitted fields and a zero tally |
| FeedbackRequests.CreatedMatchesBoard | src/app/api/feedback/requests/route.ts:123-136 | the reported new request is what the board would show for it to any viewer |
| FeedbackPage.ToggleVote | src/app/feedback/page.tsx:296-299 | pressing the vote already cast sends 0, anything else sends the pressed value |
| FeedbackPage.ToggleVoteAllowed | src/app/feedback/page.tsx:296-299 | the buttons only send −1, 0 or 1, and pressing twice cancels out |
| FeedbackPage.LowerAscii | src/app/feedback/page.tsx:294 | upper-case ASCII letters become lower case; other characters are unchanged |
| FeedbackPage.StatusLabel | src/app/feedback/page.tsx:294 | the label has the same length, with underscores replaced by spaces and the rest lower-cased |
| FeedbackPage.StatusLabelIdempotent | src/app/feedback/page.tsx:294 | a label has no underscore and no capital, so labelling again changes nothing |
| FeedbackPage.ApplyVote | src/app/feedback/page.tsx:127-139 | only items with the voted id get the new tally; every other item is unchanged |
| FeedbackPage.ApplyVoteIdempotent | src/app/feedback/page.tsx:127-139 | applying the same tally twice equals applying it once |
| FeedbackPage.Board.constructor | src/app/feedback/page.tsx:39-47 | an empty, loading board with an empty form of type FEATURE |
| FeedbackPage.Board.Load | src/app/feedback/page.tsx:60-82 | the loaded list or the error, with loading finished and the form untouched |
| FeedbackPage.Board.CastVote | src/app/feedback/page.tsx:116-144 | a successful vote applies the tally to the voted id only; a failure records the error |
| FeedbackPage.Board.HandleSubmit | src/app/feedback/page.tsx:89-114 | a blank title or description posts nothing and changes nothing; otherwise the form is posted and success prepends the request and clears the form |
| FeedbackPage.Board.SubmitForm | src/app/feedback/page.tsx:94-113 | posts the form once; success prepends the request and clears the title and description but keeps the type; failure keeps the form and records the error |
| FeedbackPage.Board.SelectKind | src/app/feedback/page.tsx:178-189 | sets the form's type and nothing else |
| FeedbackPage.BlankNeverPosted | src/app/feedback/page.tsx:91-93 | an all-whitespace field trims to empty, so it is never posted |
| Username.NormalizeUsername | src/lib/username.ts:5-7 | the result is never longer than the input; it is the trimmed input minus one leading "@" if there is one |
| Username.ValidIsNormal | src/lib/username.ts:3-11 | every valid username is a fixed point of normalisation |
| Username.OnboardingError | src/app/onboarding/username/page.tsx:57-67 | the length error appears exactly when the normalised name has fewer than 3 or more than 20 characters, and the character-set error exactly when the length is right but some character is not a letter, digit or underscore |
| Username.OnboardingAgreesWithHelpers | src/app/onboarding/username/page.tsx:57-67 | the form accepts a name exactly when the shared helpers accept its normalisation |
| Username.SubmittedIsNormal | src/app/onboarding/username/page.tsx:57-69 | a submitted name is valid and already normalised |
| MovieRatingCard.GetRatingCategory | src/components/movie/MovieRatingCard.tsx:20-24 | bad iff ≤ 2, ok iff in (2, 3.5], great iff > 3.5 |
| MovieRatingCard.GetRatingCategoryMonotone | src/components/movie/MovieRatingCard.tsx:20-24 | a higher rating never gets a lower category |
| MovieRatingCard.CategoryValuesMisdrawn | src/components/movie/MovieRatingCard.tsx:20-24 | the stored category values 1, 2, 3 are drawn as bad, bad, ok |
| MovieCategories.IsMovieCategoryIff | src/lib/movieCategories.ts:16-17 | a value is a category exactly when it is one of the ten ids |
| MovieCategories.CategoryIdsDistinct | src/lib/movieCategories.ts:1-12 | ten categories with pairwise distinct ids |
| MovieCategories.LabelsRejected | src/lib/movieCategories.ts:16-17 | matching is exact: "Action", "Sci-Fi" and "" are rejected, "sci-fi" accepted |
| ProfileRoute.MoreRatedIsPreorder | src/app/api/users/me/profile/route.ts:57-59 | the rating-count comparator is a total preorder |
| ProfileRoute.ByRatings | src/app/api/users/me/profile/route.ts:57-59 | the users are permuted into descending rating count |
| ProfileRoute.Rank | src/app/api/users/me/profile/route.ts:57-60 | the rank lies in [0, n] and is 0 exactly when the user is not among all users |
| ProfileRoute.CountPermutation | src/app/api/users/me/profile/route.ts:57 | sorting does not change how many users satisfy a property |
| ProfileRoute.SortedPlaceAtLeast | src/app/api/users/me/profile/route.ts:57-60 | in the sorted list at least p+1 users have as many ratings as the one at p |
| ProfileRoute.SortedPlaceMoreThan | src/app/api/users/me/profile/route.ts:57-60 | in the sorted list at most p users have more ratings than the one at p |
| ProfileRoute.RankBounds | src/app/api/users/me/profile/route.ts:45-60 | a listed user's rank is in [1, n], at least 1 + the users with more ratings and at most the users with at least as many |
| ProfileRoute.ProfileReportsRank | src/app/api/users/me/profile/route.ts:62-79 | a listed user's profile reports the user's own id, rating count as beenCount and watchlist count as wantToTryCount, and a rank after everyone with more ratings and within those with as many |
| ProfileRoute.Get | src/app/api/users/me/profile/route.ts:5-79 | 401 and 404 leave the array alone; otherwise the array is sorted in place by rating count and the profile carries the rank |

## Left out

- Persistence and authentication become the in-memory `Db` and an `Option` session. A missing user is a user not in `stackRanked`.
- The catch-all 500 responses of the routes are not modelled. The one exception is the initial-ranking route, where a missing user row makes the transaction fail: `PostInitial` returns 500 with no writes.
- Orders computed by the database are preconditions, not computations:
  - `position asc, createdAt asc` with nulls last, in the rebalance query;
  - `createdAt desc` for the board.
- The neighbour lookups that `Promise.all` runs in parallel are two sequential lookups.
- Races between concurrent requests of the same user, and races between overlapping handlers of one component, are not modelled.
- React batches state updates and client handlers read state through stale closures. The model reads and writes the fields in program order.
- Decimal precision and the rounding inside `dividedBy` are not modelled; positions are exact. With exact positions the fallback `before + 1e-10` is reached only for neighbours whose positions are out of order or equal.
- Client-side float conversion of positions, `toFixed` in displays, TMDB calls, the plain CRUD routes, rendering, routing, the 1.2 s auto-close timer and debounced effects are left out.
- The `cancelled` flag of the board's load effect is not modelled.
- `CATEGORY_VALUE[category]` also accepts inherited property names such as "constructor", because these are truthy. `ParseCategory` accepts only the three names.
- `Number(body.tmdbId)` is an `Option<int>`: None stands for NaN and non-numeric input. Fractional tmdb ids are not modelled.
- Ids of rows and users are natural numbers. They are opaque strings in the application, so the empty-string case of `!draggingId` does not arise.
- String lengths count code points, whereas JavaScript counts UTF-16 units. `toLowerCase` and the `i` regex flag are modelled for ASCII letters only.
- The feedback request's default status is a parameter (a database default). Replies' server messages are parameters too.
- The username `update()` call and router navigation after onboarding are left out, and so is the availability check against the database.
- Sorting.Sort: the contract states permutation and order but not stability. Stability is what `Array.prototype.sort` guarantees, and it decides the profile rank among users with equal counts. The bounds of `RankBounds` hold whatever the tie order.
- BinarySearchRanking.RunCompletes: the bound is at most `total` decisions. The logarithmic bound of a balanced binary search is not stated.
- BinarySearchRanking.RankingSession.Decide: requires an open session. A decision pressed after completion, before the parent reacts, is not modelled.
- ProfileRoute.Get: `memberSince` is an integer timestamp. The user row and the array of all users are parameters, and the user row is assumed to be the session's.
- RateRoute.Rate: the returned row is the stored one. The serialised JSON shape of the response is not modelled.
