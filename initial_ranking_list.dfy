/** The drag-and-drop list of the initial ranking: reordering by splice-move, then
    submitting the ids in list order. */
module InitialRankingList {
  import opened Common
  import opened RankingState

  /** `splice(i, 1)`: the sequence without its i-th element. */
  function RemoveAt<T>(s: seq<T>, i: nat): (r: seq<T>)
    requires i < |s|
    ensures |r| == |s| - 1
    ensures forall k :: 0 <= k < i ==> r[k] == s[k]
    ensures forall k :: i <= k < |r| ==> r[k] == s[k + 1]
  {
    s[..i] + s[i + 1..]
  }

  /** `splice(i, 0, x)`: `x` inserted so that it sits at index i. */
  function InsertAt<T>(s: seq<T>, i: nat, x: T): (r: seq<T>)
    requires i <= |s|
    ensures |r| == |s| + 1 && r[i] == x
    ensures forall k :: 0 <= k < i ==> r[k] == s[k]
    ensures forall k :: i < k < |r| ==> r[k] == s[k - 1]
  {
    s[..i] + [x] + s[i..]
  }

  /** The element at `from` taken out and put back in at `to`. */
  function Moved<T>(s: seq<T>, from: nat, to: nat): seq<T>
    requires from < |s| && to < |s|
  {
    InsertAt(RemoveAt(s, from), to, s[from])
  }

  /** What a move does: the same items, the moved one at `to`, the others in their previous
      relative order, items outside the moved range in place, items inside it shifted by
      one towards `from`. */
  lemma MoveEffect<T>(s: seq<T>, from: nat, to: nat)
    requires from < |s| && to < |s|
    ensures var r := Moved(s, from, to);
      && |r| == |s|
      && multiset(r) == multiset(s)
      && r[to] == s[from]
      && RemoveAt(r, to) == RemoveAt(s, from)
      && (forall k :: 0 <= k < |s| && (k < Min(from, to) || Max(from, to) < k) ==> r[k] == s[k])
      && (from < to ==> forall k :: from <= k < to ==> r[k] == s[k + 1])
      && (to < from ==> forall k :: to < k <= from ==> r[k] == s[k - 1])
  {
    var rest := RemoveAt(s, from);
    var r := Moved(s, from, to);
    MovedSameItems(s, from, to);
    assert RemoveAt(r, to) == rest;
  }

  lemma MovedSameItems<T>(s: seq<T>, from: nat, to: nat)
    requires from < |s| && to < |s|
    ensures multiset(Moved(s, from, to)) == multiset(s)
  {
    var rest := RemoveAt(s, from);
    var r := Moved(s, from, to);
    assert s == s[..from] + [s[from]] + s[from + 1..];
    assert rest == s[..from] + s[from + 1..];
    assert r == rest[..to] + [s[from]] + rest[to..];
    calc {
      multiset(r);
      multiset(rest[..to]) + multiset{s[from]} + multiset(rest[to..]);
      { assert rest == rest[..to] + rest[to..]; }
      multiset(rest) + multiset{s[from]};
      multiset(s);
    }
  }

  /** `findIndex` by id over the list's entries. */
  function FindIndex(s: seq<RankingMovie>, id: RatingId): int {
    FirstIndex(s, (m: RankingMovie) => m.id, id)
  }

  function IdsOf(s: seq<RankingMovie>): (ids: seq<RatingId>)
    ensures |ids| == |s| && forall k :: 0 <= k < |s| ==> ids[k] == s[k].id
  {
    seq(|s|, k requires 0 <= k < |s| => s[k].id)
  }

  /** Moving entries and then reading their ids is moving the ids. */
  lemma IdsOfMoved(s: seq<RankingMovie>, from: nat, to: nat)
    requires from < |s| && to < |s|
    ensures IdsOf(Moved(s, from, to)) == Moved(IdsOf(s), from, to)
  {
  }

  class RankingList {
    var order: seq<RankingMovie>
    var draggingId: Option<RatingId>
    /** The list the component was created with. */
    ghost const movies: seq<RankingMovie>

    ghost predicate Valid()
      reads this
    {
      multiset(IdsOf(order)) == multiset(IdsOf(movies)) && |order| == |movies|
    }

    constructor (movies: seq<RankingMovie>)
      ensures Valid() && order == movies && this.movies == movies && draggingId == None
    {
      order := movies;
      draggingId := None;
      this.movies := movies;
    }

    method DragStart(id: RatingId)
      requires Valid()
      modifies this
      ensures Valid() && draggingId == Some(id) && order == old(order)
    {
      draggingId := Some(id);
    }

    method DragEnd()
      requires Valid()
      modifies this
      ensures Valid() && draggingId == None && order == old(order)
    {
      draggingId := None;
    }

    /** handleDragOver: move the dragged entry to the index of the entry under the cursor. */
    method DragOver(id: RatingId)
      requires Valid()
      modifies this
      ensures Valid() && draggingId == old(draggingId)
      ensures old(draggingId).None? || old(draggingId) == Some(id) ==> order == old(order)
      ensures old(draggingId).Some? && FindIndex(old(order), old(draggingId).value) == -1 ==> order == old(order)
      ensures FindIndex(old(order), id) == -1 ==> order == old(order)
      ensures old(draggingId).Some? && old(draggingId) != Some(id)
              && FindIndex(old(order), old(draggingId).value) >= 0 && FindIndex(old(order), id) >= 0 ==>
        var from := FindIndex(old(order), old(draggingId).value);
        var to := FindIndex(old(order), id);
        && order == Moved(old(order), from, to)
        && order[to].id == old(draggingId).value
        && multiset(order) == multiset(old(order))
    {
      if draggingId.None? || draggingId == Some(id) {
        return;
      }
      var current := order;
      var fromIndex := FindIndex(current, draggingId.value);
      var toIndex := FindIndex(current, id);
      if fromIndex == -1 || toIndex == -1 {
        return;
      }
      var updated := current;
      var moved := updated[fromIndex];
      updated := RemoveAt(updated, fromIndex);
      updated := InsertAt(updated, toIndex, moved);
      MoveEffect(current, fromIndex, toIndex);
      IdsOfMoved(current, fromIndex, toIndex);
      MoveEffect(IdsOf(current), fromIndex, toIndex);
      order := updated;
    }

    /** submitOrder: one id per entry, in list order; they are the ids the list started with. */
    method SubmitOrder() returns (ids: seq<RatingId>)
      requires Valid()
      ensures |ids| == |order| && forall k :: 0 <= k < |order| ==> ids[k] == order[k].id
      ensures multiset(ids) == multiset(IdsOf(movies))
    {
      ids := IdsOf(order);
    }
  }

  /** A list that started with duplicate-free ids still has them after any moves. */
  lemma SubmittedIdsDistinct(ids: seq<RatingId>, initial: seq<RatingId>)
    requires Distinct(initial) && multiset(ids) == multiset(initial)
    ensures Distinct(ids)
  {
    forall i, j | 0 <= i < j < |ids|
      ensures ids[i] != ids[j]
    {
      if ids[i] == ids[j] {
        var x := ids[i];
        assert ids == ids[..j] + [x] + ids[j + 1..];
        assert ids[..j] == ids[..i] + [x] + ids[i + 1..j];
        assert multiset(ids)[x] >= 2;
        CountAtMostOne(initial, x);
        assert false;
      }
    }
  }

  lemma {:induction false} CountAtMostOne(s: seq<RatingId>, x: RatingId)
    requires Distinct(s)
    ensures multiset(s)[x] <= 1
  {
    if s != [] {
      assert s == [s[0]] + s[1..];
      CountAtMostOne(s[1..], x);
      if s[0] == x {
        assert x !in s[1..];
      }
    }
  }
}
