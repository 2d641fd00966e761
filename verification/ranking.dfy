/**
 * The descending argsort that the sampler obtains from a stable `sort_by`:
 * indices ordered by decreasing score, indices of equal score kept in
 * increasing order. Scores are reals, so there is no NaN to compare.
 */
module Ranking {

  /** Index `i` comes before index `j` in a stable descending sort of `scores`. */
  predicate Precedes(scores: seq<real>, i: nat, j: nat)
    requires i < |scores| && j < |scores|
  {
    scores[i] > scores[j] || (scores[i] == scores[j] && i < j)
  }

  /** Every entry of `order` indexes `scores`, and each comes strictly before the next. */
  predicate Sorted(scores: seq<real>, order: seq<nat>)
  {
    && (forall k :: 0 <= k < |order| ==> order[k] < |scores|)
    && (forall k, l {:trigger Precedes(scores, order[k], order[l])} ::
          0 <= k < l < |order| ==> Precedes(scores, order[k], order[l]))
  }

  /** `order` is the stable descending argsort of `scores`: a sorted arrangement of all its indices. */
  predicate IsArgsort(scores: seq<real>, order: seq<nat>)
  {
    && |order| == |scores|
    && Sorted(scores, order)
    && (forall i :: 0 <= i < |scores| ==> i in order)
  }

  /** Placing `x` in front of a sorted order that it precedes keeps the order sorted. */
  lemma PrependSorted(scores: seq<real>, x: nat, order: seq<nat>)
    requires x < |scores|
    requires Sorted(scores, order)
    requires forall y :: y in order ==> Precedes(scores, x, y)
    ensures Sorted(scores, [x] + order)
  {
    var r := [x] + order;
    forall k, l | 0 <= k < l < |r|
      ensures Precedes(scores, r[k], r[l])
    {
      if k == 0 {
        assert r[l] == order[l - 1];
        assert r[l] in order;
      }
    }
  }

  /** Inserts `i`, larger than every index already placed, after all entries scoring at least as high. */
  function Insert(scores: seq<real>, order: seq<nat>, i: nat): (r: seq<nat>)
    requires i < |scores|
    requires Sorted(scores, order)
    requires forall x :: x in order ==> x < i
    ensures |r| == |order| + 1
    ensures forall x :: x in r <==> x in order || x == i
    ensures Sorted(scores, r)
    decreases |order|
  {
    if order == [] then [i]
    else if scores[order[0]] >= scores[i] then
      assert order[0] in order;
      assert forall x :: x in order[1..] ==> x in order;
      var rest := Insert(scores, order[1..], i);
      assert forall y :: y in rest ==> Precedes(scores, order[0], y) by {
        forall y | y in rest
          ensures Precedes(scores, order[0], y)
        {
          if y != i {
            var l := IndexOf(order[1..], y);
            assert order[l + 1] == y;
          }
        }
      }
      PrependSorted(scores, order[0], rest);
      [order[0]] + rest
    else
      assert forall y :: y in order ==> Precedes(scores, i, y) by {
        forall y | y in order
          ensures Precedes(scores, i, y)
        {
          var l := IndexOf(order, y);
          if l > 0 {
            assert Precedes(scores, order[0], order[l]);
          }
        }
      }
      PrependSorted(scores, i, order);
      [i] + order
  }

  /** The argsort of the first `m` indices of `scores`. */
  function ArgsortPrefix(scores: seq<real>, m: nat): (r: seq<nat>)
    requires m <= |scores|
    ensures |r| == m
    ensures forall x :: x in r ==> x < m
    ensures forall i :: 0 <= i < m ==> i in r
    ensures Sorted(scores, r)
  {
    if m == 0 then [] else Insert(scores, ArgsortPrefix(scores, m - 1), m - 1)
  }

  /** The stable descending argsort of `scores`. */
  function ArgsortDesc(scores: seq<real>): (r: seq<nat>)
    ensures IsArgsort(scores, r)
  {
    ArgsortPrefix(scores, |scores|)
  }

  /** The position of the first occurrence of `i` in `order`, or `|order|` when it is absent. */
  function IndexOf(order: seq<nat>, i: nat): (m: nat)
    ensures m <= |order|
    ensures i in order <==> m < |order|
    ensures m < |order| ==> order[m] == i
    ensures forall k :: 0 <= k < m ==> order[k] != i
  {
    if order == [] then 0
    else if order[0] == i then 0
    else 1 + IndexOf(order[1..], i)
  }

  /** A sorted order holds no index twice. */
  lemma SortedDistinct(scores: seq<real>, order: seq<nat>)
    requires Sorted(scores, order)
    ensures forall k, l :: 0 <= k < l < |order| ==> order[k] != order[l]
  {
    forall k, l | 0 <= k < l < |order|
      ensures order[k] != order[l]
    {
      assert Precedes(scores, order[k], order[l]);
    }
  }

  /** In a sorted order, the position of the entry at `m` is `m`. */
  lemma IndexOfSorted(scores: seq<real>, order: seq<nat>, m: nat)
    requires Sorted(scores, order)
    requires m < |order|
    ensures IndexOf(order, order[m]) == m
  {
    SortedDistinct(scores, order);
  }

  /** The first index of the argsort scores highest, and no smaller index scores as high. */
  lemma ArgsortHead(scores: seq<real>, order: seq<nat>)
    requires IsArgsort(scores, order)
    requires |scores| > 0
    ensures forall j :: 0 <= j < |scores| ==> scores[j] <= scores[order[0]]
    ensures forall j :: 0 <= j < order[0] ==> scores[j] < scores[order[0]]
  {
    forall j | 0 <= j < |scores|
      ensures scores[j] <= scores[order[0]]
      ensures j < order[0] ==> scores[j] < scores[order[0]]
    {
      var l := IndexOf(order, j);
      if l > 0 {
        assert Precedes(scores, order[0], order[l]);
      }
    }
  }

  /** The second index of the argsort scores highest among all indices but the first. */
  lemma ArgsortRunnerUp(scores: seq<real>, order: seq<nat>)
    requires IsArgsort(scores, order)
    requires |scores| >= 2
    ensures order[1] != order[0]
    ensures forall j :: 0 <= j < |scores| && j != order[0] ==> scores[j] <= scores[order[1]]
  {
    SortedDistinct(scores, order);
    forall j | 0 <= j < |scores| && j != order[0]
      ensures scores[j] <= scores[order[1]]
    {
      var l := IndexOf(order, j);
      if l > 1 {
        assert Precedes(scores, order[1], order[l]);
      }
    }
  }
}
