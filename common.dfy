/** Types shared by every part of the stack-ranking model. */
module Common {

  datatype Option<T> = None | Some(value: T)

  /** The coarse bucket a user picks when rating a movie. */
  datatype RatingCategory = Bad | Ok | Great

  /** Identifiers of rating rows and of users (opaque in the application). */
  type RatingId = nat
  type UserId = nat

  /** The neighbour pair produced by the placement resolver and sent to the rate route. */
  datatype Placement = Placement(beforeId: Option<RatingId>, afterId: Option<RatingId>)

  predicate Distinct<T(==)>(s: seq<T>) {
    forall i, j :: 0 <= i < j < |s| ==> s[i] != s[j]
  }

  /** `findIndex` by an id field: the first index whose element has key `id`, or -1. */
  function FirstIndex<T>(s: seq<T>, key: T -> nat, id: nat): (i: int)
    ensures -1 <= i < |s|
    ensures i == -1 <==> forall k :: 0 <= k < |s| ==> key(s[k]) != id
    ensures i >= 0 ==> key(s[i]) == id && forall k :: 0 <= k < i ==> key(s[k]) != id
  {
    if s == [] then -1
    else if key(s[0]) == id then 0
    else
      var j := FirstIndex(s[1..], key, id);
      if j == -1 then -1 else j + 1
  }

  function Min(a: int, b: int): int { if a <= b then a else b }
  function Max(a: int, b: int): int { if a >= b then a else b }
}
