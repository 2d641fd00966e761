/**
 * The token-selection rules of the per-request sampler: greedy argmax with a
 * near-tie counter, nucleus (top-p) clamping in place, and the dispatch
 * between them. Logits and probabilities are reals standing for `f32`
 * values that are never NaN. The random generator is not modelled: the
 * uniform draw it would produce is a parameter `u` in [0, 1).
 */
module Logits {
  import opened Wrappers
  import opened Config
  import opened Ranking

  /** Why a weight vector cannot be sampled from (the weighted-index errors). */
  datatype SampleError = NoItem | InvalidWeight | AllWeightsZero

  /** The sum of a sequence of weights. */
  function Sum(s: seq<real>): real
  {
    if s == [] then 0.0 else Sum(s[..|s| - 1]) + s[|s| - 1]
  }

  lemma SumPrefixStep(s: seq<real>, i: nat)
    requires i < |s|
    ensures Sum(s[..i + 1]) == Sum(s[..i]) + s[i]
  {
    assert s[..i + 1][..i] == s[..i];
  }

  lemma {:induction false} SumNonNegative(s: seq<real>)
    requires forall i :: 0 <= i < |s| ==> s[i] >= 0.0
    ensures Sum(s) >= 0.0
  {
    if s != [] {
      SumNonNegative(s[..|s| - 1]);
    }
  }

  // ---------------------------------------------------------------------------
  // Weighted draw

  /**
   * The index whose cumulative-weight interval holds `x`, searching from `i`:
   * the weighted index picks the first index whose running total exceeds the draw.
   */
  function Locate(w: seq<real>, x: real, i: nat): (r: nat)
    requires i < |w|
    requires Sum(w[..i]) <= x < Sum(w)
    ensures i <= r < |w|
    ensures Sum(w[..r]) <= x < Sum(w[..r + 1])
    decreases |w| - i
  {
    if i == |w| - 1 then
      assert w[..i + 1] == w;
      i
    else if Sum(w[..i + 1]) <= x then Locate(w, x, i + 1)
    else i
  }

  /** No weight is negative. */
  predicate NonNegative(prs: seq<real>)
  {
    forall i :: 0 <= i < |prs| ==> prs[i] >= 0.0
  }

  /** The point of [0, total) that a uniform draw `u` of [0, 1) selects. */
  function DrawPoint(u: real, total: real): (x: real)
    requires 0.0 <= u < 1.0
    requires total > 0.0
    ensures 0.0 <= x < total
  {
    assert total - u * total == (1.0 - u) * total;
    u * total
  }

  /**
   * The weighted draw from a valid weight vector at point `x` of [0, total):
   * the index whose cumulative-weight interval holds `x`.
   */
  function Draw(prs: seq<real>, x: real): (k: nat)
    requires 0.0 <= x < Sum(prs)
    ensures k < |prs|
    ensures prs[k] > 0.0
    ensures Sum(prs[..k]) <= x < Sum(prs[..k + 1])
  {
    assert prs[..0] == [];
    var k := Locate(prs, x, 0);
    SumPrefixStep(prs, k);
    k
  }

  /**
   * One draw from the distribution weighted by `prs`, where `u` is the uniform
   * draw of the random generator. An empty vector, a negative weight or an
   * all-zero vector is an error; otherwise the draw is the index whose
   * cumulative interval holds `u` times the total weight.
   */
  function SampleMultinomial(prs: seq<real>, u: real): (r: Result<nat, SampleError>)
    requires 0.0 <= u < 1.0
    ensures r == Failure(NoItem) <==> |prs| == 0
    ensures r == Failure(InvalidWeight) <==> |prs| > 0 && !NonNegative(prs)
    ensures r == Failure(AllWeightsZero) <==> |prs| > 0 && NonNegative(prs) && Sum(prs) == 0.0
    ensures r.Success? ==>
              && Sum(prs) > 0.0
              && r.value < |prs|
              && prs[r.value] > 0.0
              && Sum(prs[..r.value]) <= DrawPoint(u, Sum(prs)) < Sum(prs[..r.value + 1])
  {
    if |prs| == 0 then Failure(NoItem)
    else if !NonNegative(prs) then Failure(InvalidWeight)
    else if Sum(prs) == 0.0 then Failure(AllWeightsZero)
    else
      SumNonNegative(prs);
      Success(Draw(prs, DrawPoint(u, Sum(prs))))
  }

  // ---------------------------------------------------------------------------
  // Nucleus (top-p) clamping

  /**
   * The number of leading entries of `ranked` that the clamp loop keeps, searching
   * from `m`: the first length whose prefix sum reaches `topP`, or all entries.
   */
  function KeepFrom(ranked: seq<real>, topP: real, m: nat): (k: nat)
    requires m <= |ranked|
    ensures m <= k <= |ranked|
    ensures forall j :: m <= j < k ==> Sum(ranked[..j]) < topP
    ensures k < |ranked| ==> Sum(ranked[..k]) >= topP
    decreases |ranked| - m
  {
    if Sum(ranked[..m]) >= topP || m == |ranked| then m
    else KeepFrom(ranked, topP, m + 1)
  }

  /** The number of entries, in descending order, that nucleus clamping keeps. */
  function KeepCount(ranked: seq<real>, topP: real): nat
  {
    KeepFrom(ranked, topP, 0)
  }

  /** The probabilities of `prs` listed in the order `order`. */
  function Ranked(prs: seq<real>, order: seq<nat>): (r: seq<real>)
    requires forall k :: 0 <= k < |order| ==> order[k] < |prs|
    ensures |r| == |order|
    ensures forall k :: 0 <= k < |order| ==> r[k] == prs[order[k]]
  {
    seq(|order|, k requires 0 <= k < |order| => prs[order[k]])
  }

  /** Entry `i` of `prs` survives nucleus clamping with threshold `topP`. */
  predicate Kept(prs: seq<real>, topP: real, i: nat)
  {
    var order := ArgsortDesc(prs);
    IndexOf(order, i) < KeepCount(Ranked(prs, order), topP)
  }

  /** The probability vector after nucleus clamping: kept entries as they were, the rest zero. */
  function Nucleus(prs: seq<real>, topP: real): (r: seq<real>)
    ensures |r| == |prs|
    ensures forall i :: 0 <= i < |prs| ==> r[i] == prs[i] || r[i] == 0.0
  {
    seq(|prs|, i requires 0 <= i < |prs| => if Kept(prs, topP, i) then prs[i] else 0.0)
  }

  /**
   * The entries kept are exactly the first `KeepCount` entries of the descending
   * order, and that count is the length of the shortest descending prefix whose
   * sum reaches `topP`, or all entries when no prefix does.
   */
  lemma NucleusKeepsShortestPrefix(prs: seq<real>, topP: real)
    ensures var order := ArgsortDesc(prs);
            var ranked := Ranked(prs, order);
            var keep := KeepCount(ranked, topP);
            && keep <= |prs|
            && (forall m :: 0 <= m < |prs| ==> (Kept(prs, topP, order[m]) <==> m < keep))
            && (forall j :: 0 <= j < keep ==> Sum(ranked[..j]) < topP)
            && (keep < |prs| ==> Sum(ranked[..keep]) >= topP)
  {
    var order := ArgsortDesc(prs);
    forall m | 0 <= m < |prs|
      ensures IndexOf(order, order[m]) == m
    {
      IndexOfSorted(prs, order, m);
    }
  }

  /** A vector that keeps the first `KeepCount` entries of the descending order and zeroes the rest is the nucleus. */
  lemma NucleusFromRanks(prs: seq<real>, topP: real, clamped: seq<real>)
    requires |clamped| == |prs|
    requires var order := ArgsortDesc(prs);
             var keep := KeepCount(Ranked(prs, order), topP);
             forall m :: 0 <= m < |order| ==> clamped[order[m]] == if keep <= m then 0.0 else Ranked(prs, order)[m]
    ensures clamped == Nucleus(prs, topP)
  {
    var order := ArgsortDesc(prs);
    forall i | 0 <= i < |prs|
      ensures clamped[i] == Nucleus(prs, topP)[i]
    {
      var m := IndexOf(order, i);
      assert order[m] == i;
    }
  }

  /** The zeroed entries form a suffix of the descending order. */
  lemma NucleusZeroesSuffix(prs: seq<real>, topP: real, m1: nat, m2: nat)
    requires m1 <= m2 < |prs|
    ensures var order := ArgsortDesc(prs);
            !Kept(prs, topP, order[m1]) ==> !Kept(prs, topP, order[m2])
  {
    NucleusKeepsShortestPrefix(prs, topP);
  }

  /** With a positive threshold the most probable entry always survives. */
  lemma NucleusKeepsTop(prs: seq<real>, topP: real)
    requires topP > 0.0
    requires |prs| > 0
    ensures var top := ArgsortDesc(prs)[0];
            && Kept(prs, topP, top)
            && Nucleus(prs, topP)[top] == prs[top]
            && forall j :: 0 <= j < |prs| ==> prs[j] <= prs[top]
  {
    var order := ArgsortDesc(prs);
    NucleusKeepsShortestPrefix(prs, topP);
    assert Ranked(prs, order)[..0] == [];
    ArgsortHead(prs, order);
  }

  /** A draw from the clamped vector always lands on a kept entry. */
  lemma NucleusDrawIsKept(prs: seq<real>, topP: real, u: real)
    requires 0.0 <= u < 1.0
    ensures var r := SampleMultinomial(Nucleus(prs, topP), u);
            r.Success? ==> r.value < |prs| && Kept(prs, topP, r.value)
  {
  }

  /** Strictly decreasing probabilities are already in descending order. */
  lemma ExampleOrder(prs: seq<real>)
    requires prs == [0.5, 0.3, 0.15, 0.05]
    ensures ArgsortDesc(prs) == [0, 1, 2, 3]
  {
    var order := ArgsortDesc(prs);
    assert Precedes(prs, order[0], order[1]);
    assert Precedes(prs, order[1], order[2]);
    assert Precedes(prs, order[2], order[3]);
  }

  /** With top_p 0.7 the clamp keeps two entries: 0.5 alone falls short, 0.5 + 0.3 reaches it. */
  lemma ExampleKeep(prs: seq<real>)
    requires prs == [0.5, 0.3, 0.15, 0.05]
    ensures KeepCount(prs, 0.7) == 2
  {
    assert Sum(prs[..0]) == 0.0 by { assert prs[..0] == []; }
    assert Sum(prs[..1]) == 0.5 by { assert prs[..1][..0] == []; }
    assert Sum(prs[..2]) == 0.8 by { assert prs[..2][..1] == prs[..1]; }
  }

  /** Probabilities 0.5, 0.3, 0.15, 0.05 with top_p 0.7 keep the first two entries and zero the rest. */
  lemma NucleusExample()
    ensures Nucleus([0.5, 0.3, 0.15, 0.05], 0.7) == [0.5, 0.3, 0.0, 0.0]
  {
    var prs := [0.5, 0.3, 0.15, 0.05];
    var clamped := [0.5, 0.3, 0.0, 0.0];
    ExampleOrder(prs);
    var order := ArgsortDesc(prs);
    assert Ranked(prs, order) == prs;
    ExampleKeep(prs);
    forall i | 0 <= i < 4
      ensures Nucleus(prs, 0.7)[i] == clamped[i]
    {
      assert IndexOf(order, i) == i;
    }
  }

  // ---------------------------------------------------------------------------
  // Greedy choice

  /** The greedy choice: a maximal logit, the smallest such index on ties. */
  function TopIndex(logits: seq<real>): (r: nat)
    requires |logits| > 0
    ensures r < |logits|
    ensures forall j :: 0 <= j < |logits| ==> logits[j] <= logits[r]
    ensures forall j :: 0 <= j < r ==> logits[j] < logits[r]
  {
    var order := ArgsortDesc(logits);
    ArgsortHead(logits, order);
    order[0]
  }

  /** The second entry of the descending order: the largest logit at any other index. */
  function RunnerUp(logits: seq<real>): (v: real)
    requires |logits| >= 2
    ensures exists j :: 0 <= j < |logits| && j != TopIndex(logits) && logits[j] == v
    ensures forall j :: 0 <= j < |logits| && j != TopIndex(logits) ==> logits[j] <= v
  {
    var order := ArgsortDesc(logits);
    ArgsortRunnerUp(logits, order);
    logits[order[1]]
  }

  /**
   * The greedy step is a near tie: the relative margin (top1 - top2) / top1 is
   * below 0.05. Reals have no signed zero, so every zero top logit is taken as
   * not a near tie. In `f32` that holds for +0.0 (the margin is NaN or +inf);
   * a top logit of -0.0 above a negative runner-up gives a margin of -inf,
   * which the source does count.
   */
  predicate IsAmbiguous(logits: seq<real>)
    requires |logits| >= 2
  {
    var top1 := logits[TopIndex(logits)];
    var top2 := RunnerUp(logits);
    top1 != 0.0 && (top1 - top2) / top1 < 0.05
  }

  /** With a negative top logit the margin is never positive, so every such step counts as a near tie. */
  lemma NegativeTopIsAmbiguous(logits: seq<real>)
    requires |logits| >= 2
    requires logits[TopIndex(logits)] < 0.0
    ensures IsAmbiguous(logits)
  {
    var top1 := logits[TopIndex(logits)];
    var top2 := RunnerUp(logits);
    assert top1 - top2 >= 0.0;
    assert (top1 - top2) / top1 <= 0.0;
  }

  /** Logits 5.0, 4.9, 1.0 are a near tie (margin 0.02). */
  lemma NearTieExample()
    ensures IsAmbiguous([5.0, 4.9, 1.0])
  {
    var logits := [5.0, 4.9, 1.0];
    var top := TopIndex(logits);
    assert logits[0] <= logits[top];
    assert logits[1] <= RunnerUp(logits);
  }

  /** Logits 5.0, 1.0, 0.5 are a clear choice (margin 0.8). */
  lemma ClearWinnerExample()
    ensures !IsAmbiguous([5.0, 1.0, 0.5])
  {
    var logits := [5.0, 1.0, 0.5];
    var top := TopIndex(logits);
    assert logits[0] <= logits[top];
    assert logits[1] <= RunnerUp(logits);
  }

  // ---------------------------------------------------------------------------
  // The sampler

  class LogitsProcessor {
    /** None selects greedy decoding. */
    var temperature: Option<real>
    var topP: real
    /** How many greedy steps were near ties. */
    var numAmbiguous: nat

    constructor (params: SamplingParams)
      ensures temperature == (if params.temperature < SamplingEps then None else Some(params.temperature))
      ensures topP == params.topP
      ensures numAmbiguous == 0
    {
      temperature := if params.temperature < SamplingEps then None else Some(params.temperature);
      topP := params.topP;
      numAmbiguous := 0;
    }

    /** Greedy choice; counts the step when the best two logits are a near tie. */
    method SampleArgmax(logits: seq<real>) returns (r: nat)
      requires |logits| >= 2
      modifies this`numAmbiguous
      ensures r == TopIndex(logits)
      ensures r < |logits| && forall j :: 0 <= j < |logits| ==> logits[j] <= logits[r]
      ensures numAmbiguous == old(numAmbiguous) + (if IsAmbiguous(logits) then 1 else 0)
    {
      var order := ArgsortDesc(logits);
      var top1, top2 := logits[order[0]], logits[order[1]];
      if top1 != 0.0 && (top1 - top2) / top1 < 0.05 {
        numAmbiguous := numAmbiguous + 1;
      }
      r := order[0];
    }

    /**
     * Zeroes, in place, every entry after the shortest descending prefix whose
     * sum reaches `topP`, then draws from the clamped vector.
     */
    method SampleTopp(prs: array<real>, topP: real, u: real) returns (r: Result<nat, SampleError>)
      requires 0.0 <= u < 1.0
      modifies prs
      ensures prs[..] == Nucleus(old(prs[..]), topP)
      ensures r == SampleMultinomial(prs[..], u)
    {
      ghost var original := prs[..];
      var order := ArgsortDesc(prs[..]);
      SortedDistinct(original, order);
      ghost var ranked := Ranked(original, order);
      ghost var keep := KeepCount(ranked, topP);
      var cumsum := 0.0;
      for k := 0 to |order|
        invariant cumsum == Sum(ranked[..if k < keep then k else keep])
        invariant forall m :: 0 <= m < |order| ==>
                    prs[order[m]] == if keep <= m < k then 0.0 else ranked[m]
      {
        var index := order[k];
        if cumsum >= topP {
          prs[index] := 0.0;
        } else {
          SumPrefixStep(ranked, k);
          cumsum := cumsum + prs[index];
        }
      }
      NucleusFromRanks(original, topP, prs[..]);
      r := SampleMultinomial(prs[..], u);
    }

    /**
     * Picks the next token: greedy without a temperature; otherwise a draw from
     * `probs` (the softmax of the tempered logits), clamped to the nucleus when
     * 0 < top_p < 1.
     */
    method Sample(logits: seq<real>, probs: seq<real>, u: real) returns (r: Result<nat, SampleError>)
      requires 0.0 <= u < 1.0
      requires temperature.None? ==> |logits| >= 2
      modifies this`numAmbiguous
      ensures temperature.None? ==>
                && r == Success(TopIndex(logits))
                && numAmbiguous == old(numAmbiguous) + (if IsAmbiguous(logits) then 1 else 0)
      ensures temperature.Some? ==> numAmbiguous == old(numAmbiguous)
      ensures temperature.Some? && (topP <= 0.0 || topP >= 1.0) ==> r == SampleMultinomial(probs, u)
      ensures temperature.Some? && 0.0 < topP < 1.0 ==> r == SampleMultinomial(Nucleus(probs, topP), u)
    {
      match temperature {
        case None =>
          var token := SampleArgmax(logits);
          r := Success(token);
        case Some(_) =>
          var prs := new real[|probs|](i requires 0 <= i < |probs| => probs[i]);
          assert prs[..] == probs;
          if topP <= 0.0 || topP >= 1.0 {
            r := SampleMultinomial(prs[..], u);
          } else {
            r := SampleTopp(prs, topP, u);
          }
      }
    }
  }
}
