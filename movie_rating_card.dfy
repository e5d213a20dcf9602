/** The rating card's mapping from a stored rating value to the bucket it is drawn with. */
module MovieRatingCard {
  import opened Common
  import opened Positions

  /** getRatingCategory. */
  function GetRatingCategory(rating: real): (c: RatingCategory)
    ensures c == Bad <==> rating <= 2.0
    ensures c == Ok <==> 2.0 < rating <= 3.5
    ensures c == Great <==> 3.5 < rating
  {
    if rating <= 2.0 then Bad
    else if rating <= 3.5 then Ok
    else Great
  }

  function Order(c: RatingCategory): nat {
    match c
    case Bad => 0
    case Ok => 1
    case Great => 2
  }

  /** A higher rating is never drawn in a lower bucket. */
  lemma GetRatingCategoryMonotone(a: real, b: real)
    requires a <= b
    ensures Order(GetRatingCategory(a)) <= Order(GetRatingCategory(b))
  {
  }

  /** The bucket values the rate route stores (1, 2, 3) are drawn as bad, bad, ok: the card
      reads them on the 0-10 scale, not as bucket numbers. */
  lemma CategoryValuesMisdrawn()
    ensures GetRatingCategory(CategoryValue(Bad) as real) == Bad
    ensures GetRatingCategory(CategoryValue(Ok) as real) == Bad
    ensures GetRatingCategory(CategoryValue(Great) as real) == Ok
  {
  }
}
