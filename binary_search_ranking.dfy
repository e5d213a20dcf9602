/** The placement resolver: an interactive binary search that asks the user to compare the
    new movie with ranked ones until its insertion index is known. */
module BinarySearchRanking {
  import opened Common

  /** An entry of the user's ranked list, best last (ascending position). */
  datatype OrderedRating = OrderedRating(
    id: RatingId,
    tmdbId: int,
    title: Option<string>,
    posterPath: Option<string>,
    rating: real,
    position: Option<real>)

  predicate IsInteger(x: real) {
    x == x.Floor as real
  }

  /** describeRating: the small integers 1, 2, 3 are read as category values; every other
      number is read on the 0–10 score scale. */
  function DescribeRating(value: real): (name: string)
    ensures IsInteger(value) && 1.0 <= value <= 3.0 ==>
      name == (if value == 1.0 then "Bad" else if value == 2.0 then "Ok" else "Great")
    ensures !(IsInteger(value) && 1.0 <= value <= 3.0) ==>
      (name == "Bad" <==> value < 4.0) && (name == "Ok" <==> 4.0 <= value <= 7.0)
      && (name == "Great" <==> 7.0 < value)
  {
    if IsInteger(value) && 1.0 <= value <= 3.0 then
      if value == 1.0 then "Bad" else if value == 2.0 then "Ok" else "Great"
    else if value < 4.0 then "Bad"
    else if value <= 7.0 then "Ok"
    else "Great"
  }

  /** The two scales overlap: the category value 3 reads "Great" while the higher score 3.5
      reads "Bad", so the label is not monotone in the value. */
  lemma DescribeRatingMixesScales()
    ensures DescribeRating(3.0) == "Great" && DescribeRating(3.5) == "Bad"
    ensures DescribeRating(2.0) == "Ok" && DescribeRating(2.5) == "Bad"
  {
    assert (3.5).Floor == 3;
    assert (2.5).Floor == 2;
  }

  datatype Thirds = Thirds(bad: int, ok: int, great: int)

  /** The sizes of the bad, ok and great thirds of a list of `total` items. */
  function ThirdSizes(total: nat): (t: Thirds)
    ensures t.bad + t.ok + t.great == total
    ensures t.bad >= t.ok >= t.great >= 0
    ensures t.bad - t.great <= 1
  {
    var base := total / 3;
    var remainder := total % 3;
    var sizeBad := base + (if remainder > 0 then 1 else 0);
    var sizeOk := base + (if remainder > 1 then 1 else 0);
    Thirds(sizeBad, sizeOk, total - sizeBad - sizeOk)
  }

  datatype Range = Range(start: int, end: int)

  /** The index range of the category's third. */
  function CategoryRange(c: RatingCategory, total: nat): (r: Range)
    ensures 0 <= r.start && r.end <= total - 1
    ensures r.end - r.start + 1 == (match c
                                    case Bad => ThirdSizes(total).bad
                                    case Ok => ThirdSizes(total).ok
                                    case Great => ThirdSizes(total).great)
    ensures c == Bad ==> r.start == 0
    ensures c == Great ==> r.end == total - 1
  {
    var t := ThirdSizes(total);
    match c
    case Bad => Range(0, t.bad - 1)
    case Ok => Range(t.bad, t.bad + t.ok - 1)
    case Great => Range(t.bad + t.ok, total - 1)
  }

  /** The third ranges tile the list: bad, then ok, then great. */
  lemma ThirdsTile(total: nat)
    ensures CategoryRange(Ok, total).start == CategoryRange(Bad, total).end + 1
    ensures CategoryRange(Great, total).start == CategoryRange(Ok, total).end + 1
  {
  }

  /** computeInitialIndex: the first probe, in the middle of the category's third. */
  function ComputeInitialIndex(c: RatingCategory, total: int): (i: int)
    ensures total <= 0 ==> i == 0
    ensures total >= 1 ==> 0 <= i <= total - 1
    ensures total >= 1 && CategoryRange(c, total).start <= CategoryRange(c, total).end ==>
      CategoryRange(c, total).start <= i <= CategoryRange(c, total).end
    ensures total >= 1 && CategoryRange(c, total).start > CategoryRange(c, total).end ==> i == total / 2
  {
    if total <= 0 then 0
    else
      var range := CategoryRange(c, total);
      if range.start > range.end then total / 2
      else (range.start + range.end) / 2
  }

  datatype Decision = Better | Worse | Similar

  /** The search window `low`, `high`, `currentIndex`. */
  datatype Window = Window(low: int, high: int, current: int)

  predicate Open(w: Window, total: int) {
    0 <= w.low <= w.current <= w.high <= total - 1
  }

  datatype Step = Continue(window: Window) | Done(insertion: int)

  /** Which bound a decision moves: `similar` moves the bound that leaves the smaller side. */
  function Effective(w: Window, d: Decision): (e: Decision)
    ensures e != Similar
    ensures d != Similar ==> e == d
    ensures d == Similar ==> (e == Worse <==> w.current - w.low <= w.high - w.current)
  {
    match d
    case Similar => if w.current - w.low <= w.high - w.current then Worse else Better
    case _ => d
  }

  /** One decision of handleDecision, as a transition on the window. */
  function Next(w: Window, total: int, d: Decision): (s: Step)
    requires Open(w, total)
    ensures s.Continue? ==> Open(s.window, total)
    ensures s.Continue? ==> s.window.high - s.window.low < w.high - w.low
    ensures s.Continue? ==> s.window.current == (s.window.low + s.window.high) / 2
    ensures s.Continue? && Effective(w, d) == Better ==> s.window.low == w.current + 1 && s.window.high == w.high
    ensures s.Continue? && Effective(w, d) == Worse ==> s.window.high == w.current - 1 && s.window.low == w.low
    ensures s.Done? ==> 0 <= s.insertion <= total
    ensures s.Done? <==> (Effective(w, d) == Better && w.current == w.high) || (Effective(w, d) == Worse && w.current == w.low)
    ensures s.Done? && Effective(w, d) == Better ==> s.insertion == w.high + 1
    ensures s.Done? && Effective(w, d) == Worse ==> s.insertion == w.low
  {
    var nextLow := if Effective(w, d) == Better then Min(w.current + 1, total) else w.low;
    var nextHigh := if Effective(w, d) == Worse then Max(w.current - 1, -1) else w.high;
    if nextLow > nextHigh then Done(nextLow)
    else Continue(Window(nextLow, nextHigh, (nextLow + nextHigh) / 2))
  }

  /** `similar` is exactly `worse` or `better`, whichever keeps the smaller side. */
  lemma SimilarKeepsSmallerSide(w: Window, total: int)
    requires Open(w, total)
    ensures w.current - w.low <= w.high - w.current ==> Next(w, total, Similar) == Next(w, total, Worse)
    ensures w.current - w.low > w.high - w.current ==> Next(w, total, Similar) == Next(w, total, Better)
  {
  }

  /** The outcome of a sequence of decisions from an open window. */
  function Run(w: Window, total: int, ds: seq<Decision>): Step
    requires Open(w, total)
    decreases |ds|
  {
    if ds == [] then Continue(w)
    else
      match Next(w, total, ds[0])
      case Done(ins) => Done(ins)
      case Continue(w') => Run(w', total, ds[1..])
  }

  /** Every decision shrinks the window, so `high - low + 1` decisions (at most `total`)
      always finish the search, whatever they are. */
  lemma {:induction false} RunCompletes(w: Window, total: int, ds: seq<Decision>)
    requires Open(w, total)
    requires |ds| >= w.high - w.low + 1
    ensures Run(w, total, ds).Done?
    ensures 0 <= Run(w, total, ds).insertion <= total
    ensures w.high - w.low + 1 <= total
    decreases |ds|
  {
    match Next(w, total, ds[0])
    case Done(_) =>
    case Continue(w') =>
      RunCompletes(w', total, ds[1..]);
  }

  /** The neighbours of an insertion index. */
  function PlacementAt(ratings: seq<OrderedRating>, insertion: int): (p: Placement)
    requires 0 <= insertion <= |ratings|
    ensures p.beforeId.None? <==> insertion == 0
    ensures p.beforeId.Some? ==> p.beforeId.value == ratings[insertion - 1].id
    ensures p.afterId.None? <==> insertion == |ratings|
    ensures p.afterId.Some? ==> p.afterId.value == ratings[insertion].id
  {
    var before := if insertion - 1 >= 0 then Some(ratings[insertion - 1].id) else None;
    var after := if insertion < |ratings| then Some(ratings[insertion].id) else None;
    Placement(before, after)
  }

  /** One comparison session over `ratings`. */
  class RankingSession {
    const ratings: seq<OrderedRating>
    const total: int
    var low: int
    var high: int
    var currentIndex: int
    var complete: Option<Placement>
    /** Indices of candidates the new movie was preferred to, and of those preferred to it. */
    ghost var beaten: set<int>
    ghost var beatenBy: set<int>
    ghost var insertion: int

    ghost predicate Valid()
      reads this
    {
      && total == |ratings|
      && (total > 0 ==> Open(Window(low, high, currentIndex), total))
      && (complete.None? ==>
            && (forall i :: i in beaten ==> 0 <= i < low)
            && (forall i :: i in beatenBy ==> high < i < total))
      && (complete.Some? ==>
            && 0 <= insertion <= total
            && complete.value == PlacementAt(ratings, insertion)
            && (forall i :: i in beaten ==> i < insertion)
            && (forall i :: i in beatenBy ==> insertion <= i))
    }

    function SearchWindow(): Window
      reads this
    {
      Window(low, high, currentIndex)
    }

    /** A fresh session; an empty list resolves at once to `(null, null)`. */
    constructor (ratings: seq<OrderedRating>, category: RatingCategory)
      ensures Valid()
      ensures this.ratings == ratings && total == |ratings|
      ensures low == 0 && high == Max(|ratings| - 1, 0) && currentIndex == ComputeInitialIndex(category, |ratings|)
      ensures complete == (if ratings == [] then Some(Placement(None, None)) else None)
      ensures beaten == {} && beatenBy == {}
    {
      this.ratings := ratings;
      total := |ratings|;
      low := 0;
      high := Max(|ratings| - 1, 0);
      currentIndex := ComputeInitialIndex(category, |ratings|);
      complete := if ratings == [] then Some(Placement(None, None)) else None;
      beaten, beatenBy := {}, {};
      insertion := 0;
    }

    /** The candidate shown for comparison. */
    function Candidate(): OrderedRating
      reads this
      requires Valid() && total > 0
    {
      ratings[currentIndex]
    }

    /** handleDecision. */
    method Decide(d: Decision)
      requires Valid() && total > 0 && complete.None?
      modifies this
      ensures Valid()
      ensures Next(old(SearchWindow()), total, d).Continue? ==>
        SearchWindow() == Next(old(SearchWindow()), total, d).window && complete == old(complete)
      ensures Next(old(SearchWindow()), total, d).Done? ==>
        SearchWindow() == old(SearchWindow())
        && insertion == Next(old(SearchWindow()), total, d).insertion
        && complete == Some(PlacementAt(ratings, insertion))
      ensures Effective(old(SearchWindow()), d) == Better ==> beaten == old(beaten) + {old(currentIndex)} && beatenBy == old(beatenBy)
      ensures Effective(old(SearchWindow()), d) == Worse ==> beatenBy == old(beatenBy) + {old(currentIndex)} && beaten == old(beaten)
    {
      // "similar" acts as "worse" or "better", whichever keeps the smaller side.
      var moves := Effective(SearchWindow(), d);
      var nextLow := low;
      var nextHigh := high;
      if moves == Better {
        nextLow := Min(currentIndex + 1, total);
        beaten := beaten + {currentIndex};
      } else {
        nextHigh := Max(currentIndex - 1, -1);
        beatenBy := beatenBy + {currentIndex};
      }

      if nextLow > nextHigh {
        Finish(nextLow);
        return;
      }
      Advance(nextLow, nextHigh);
    }

    /** The continuing branch of handleDecision: the window shrinks to the side left open. */
    method Advance(nextLow: int, nextHigh: int)
      requires total == |ratings| && complete.None?
      requires 0 <= nextLow <= nextHigh <= total - 1
      requires forall i :: i in beaten ==> 0 <= i < nextLow
      requires forall i :: i in beatenBy ==> nextHigh < i < total
      modifies this
      ensures Valid() && SearchWindow() == Window(nextLow, nextHigh, (nextLow + nextHigh) / 2)
      ensures complete == old(complete) && beaten == old(beaten) && beatenBy == old(beatenBy)
    {
      low, high, currentIndex := nextLow, nextHigh, (nextLow + nextHigh) / 2;
    }

    /** The completing branch of handleDecision: report the neighbours of the insertion index. */
    method Finish(insertionIndex: int)
      requires total == |ratings| && (total > 0 ==> Open(SearchWindow(), total))
      requires 0 <= insertionIndex <= total
      requires forall i :: i in beaten ==> i < insertionIndex
      requires forall i :: i in beatenBy ==> insertionIndex <= i
      modifies this
      ensures Valid()
      ensures insertion == insertionIndex && complete == Some(PlacementAt(ratings, insertionIndex))
      ensures low == old(low) && high == old(high) && currentIndex == old(currentIndex)
      ensures beaten == old(beaten) && beatenBy == old(beatenBy)
    {
      var before := if insertionIndex - 1 >= 0 then Some(ratings[insertionIndex - 1].id) else None;
      var after := if insertionIndex < |ratings| then Some(ratings[insertionIndex].id) else None;
      insertion, complete := insertionIndex, Some(Placement(before, after));
    }
  }
}
