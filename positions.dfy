/** Position arithmetic of the rate route and the initial-ranking route.
    Positions are exact rationals (`real`); the decimal library's precision is not modelled. */
module Positions {
  import opened Common

  /** Stored numeric rating of a category (CATEGORY_VALUE). */
  function CategoryValue(c: RatingCategory): (v: int)
    ensures 1 <= v <= 3
    ensures c == Bad <==> v == 1
    ensures c == Great <==> v == 3
  {
    match c
    case Bad => 1
    case Ok => 2
    case Great => 3
  }

  /** Fixed position given to a rating while the user has fewer than 10 ratings. */
  function DefaultPosition(c: RatingCategory): (p: real)
    ensures 0.0 < p < 1.0
  {
    match c
    case Bad => 0.1666666667
    case Ok => 0.5
    case Great => 0.8333333333
  }

  lemma DefaultPositionsOrdered()
    ensures 0.0 < DefaultPosition(Bad) < DefaultPosition(Ok) < DefaultPosition(Great) < 1.0
  {
  }

  /** `a + (b - a) / 2`: equidistant from both ends, strictly inside when a < b. */
  function Midpoint(a: real, b: real): (m: real)
    ensures m - a == b - m
    ensures a < b ==> a < m < b
    ensures b <= a ==> b <= m <= a
  {
    a + (b - a) / 2.0
  }

  /** Even spacing `(index + 1) / (total + 1)` used by rebalancing and by the initial ranking
      (normalizePosition and computePosition are the same formula). */
  function NormalizePosition(index: int, total: int): (p: real)
    requires 0 <= index < total
    ensures 0.0 < p < 1.0
    ensures p * (total + 1) as real == (index + 1) as real
  {
    (index + 1) as real / (total + 1) as real
  }

  lemma NormalizeStrictlyIncreasing(i: int, j: int, total: int)
    requires 0 <= i < j < total
    ensures NormalizePosition(i, total) < NormalizePosition(j, total)
  {
    var d := (total + 1) as real;
    assert NormalizePosition(i, total) * d < NormalizePosition(j, total) * d;
  }

  lemma NormalizeEvenlySpaced(i: int, total: int)
    requires 0 <= i && i + 1 < total
    ensures NormalizePosition(i + 1, total) - NormalizePosition(i, total) == 1.0 / (total + 1) as real
  {
  }

  /** The scenario of ranking exactly ten items: positions 1/11 .. 10/11. */
  lemma TenItemsPositions(i: int)
    requires 0 <= i < 10
    ensures NormalizePosition(i, 10) == (i + 1) as real / 11.0
  {
  }

  /** `toFixed(2)` on a non-negative value: round half up to two decimals. */
  function RoundTo2(x: real): (r: real)
    requires x >= 0.0
    ensures r >= 0.0
    ensures x - 0.005 <= r <= x + 0.005
  {
    (x * 100.0 + 0.5).Floor as real / 100.0
  }

  lemma FloorMonotone(x: real, y: real)
    requires x <= y
    ensures x.Floor <= y.Floor
  {
  }

  lemma RoundTo2Monotone(x: real, y: real)
    requires 0.0 <= x <= y
    ensures RoundTo2(x) <= RoundTo2(y)
  {
    FloorMonotone(x * 100.0 + 0.5, y * 100.0 + 0.5);
  }

  /** Ten times the position, clamped to [0, 10]. */
  function ClampScaled(position: real): (s: real)
    ensures 0.0 <= s <= 10.0
    ensures 0.0 <= position <= 1.0 ==> s == position * 10.0
  {
    var scaled := position * 10.0;
    if scaled < 0.0 then 0.0 else if scaled > 10.0 then 10.0 else scaled
  }

  /** positionToRating: display score in [0, 10] derived from a position. */
  function PositionToRating(position: real): (r: real)
    ensures 0.0 <= r <= 10.0
    ensures 0.0 < position < 1.0 ==> r == RoundTo2(position * 10.0)
  {
    var clamped := ClampScaled(position);
    assert RoundTo2(clamped) <= RoundTo2(10.0) == 10.0 by {
      RoundTo2Monotone(clamped, 10.0);
    }
    RoundTo2(clamped)
  }

  lemma PositionToRatingMonotone(p: real, q: real)
    requires p <= q
    ensures PositionToRating(p) <= PositionToRating(q)
  {
    RoundTo2Monotone(ClampScaled(p), ClampScaled(q));
  }
}
