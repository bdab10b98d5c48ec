/**
 * Go's `sort.Slice(xs, less)`. The library sorts in place with an unstable algorithm;
 * what the bot relies on is only that the result is ordered by `less` and is a
 * permutation of the input, so the model is an insertion sort on values whose
 * contract says exactly that and nothing about the order of ties.
 */
module Sorting {

  /** What `sort.Slice` demands of `less`: a strict weak order. */
  ghost predicate StrictWeakOrder<T(!new)>(less: (T, T) -> bool)
  {
    && (forall a, b :: less(a, b) ==> !less(b, a))
    && (forall a, b, c :: !less(a, b) && !less(b, c) ==> !less(a, c))
  }

  /** No later element is `less` than an earlier one. */
  ghost predicate SortedBy<T>(s: seq<T>, less: (T, T) -> bool)
  {
    forall i, j :: 0 <= i < j < |s| ==> !less(s[j], s[i])
  }

  function Insert<T(!new)>(x: T, s: seq<T>, less: (T, T) -> bool): (r: seq<T>)
    requires StrictWeakOrder(less)
    requires SortedBy(s, less)
    ensures SortedBy(r, less)
    ensures multiset(r) == multiset(s) + multiset{x}
    ensures |r| == |s| + 1
    decreases |s|
  {
    if |s| == 0 then [x]
    else if less(s[0], x) then
      var tail := Insert(x, s[1..], less);
      assert s == [s[0]] + s[1..];
      assert forall k :: 0 <= k < |tail| ==> !less(tail[k], s[0]) by {
        forall k | 0 <= k < |tail| ensures !less(tail[k], s[0]) {
          assert tail[k] in multiset(tail);
          assert tail[k] == x || tail[k] in multiset(s[1..]);
          if tail[k] != x {
            var m :| 0 < m < |s| && s[m] == tail[k];
          }
        }
      }
      [s[0]] + tail
    else
      [x] + s
  }

  /** The model of `sort.Slice`: an ordered permutation of `s`. */
  function SortBy<T(!new)>(s: seq<T>, less: (T, T) -> bool): (r: seq<T>)
    requires StrictWeakOrder(less)
    ensures SortedBy(r, less)
    ensures multiset(r) == multiset(s)
    ensures |r| == |s|
    decreases |s|
  {
    if |s| == 0 then []
    else
      assert s == [s[0]] + s[1..];
      Insert(s[0], SortBy(s[1..], less), less)
  }
}
