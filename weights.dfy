/** The sigma-point weights the UKF constructor computes once. */
module Weights {

  /** Sum of s, accumulated from the front. */
  function Sum(s: seq<real>): real {
    if |s| == 0 then 0.0 else Sum(s[..|s| - 1]) + s[|s| - 1]
  }

  /** The weights for 2 * nAug + 1 sigma points with spread lambda: the centre
      point gets lambda / (lambda + nAug) and each other point 0.5 / (nAug + lambda). */
  predicate AreSigmaWeights(w: seq<real>, nAug: nat, lambda: real)
    requires lambda + nAug as real != 0.0
  {
    && |w| == 2 * nAug + 1
    && w[0] == lambda / (lambda + nAug as real)
    && forall i :: 1 <= i < |w| ==> w[i] == 0.5 / (nAug as real + lambda)
  }

  /** The weight loop of the UKF constructor: fills a buffer of 2 * nAug + 1
      weights, the centre one first and the others one by one. */
  method SigmaWeights(nAug: nat, lambda: real) returns (w: seq<real>)
    requires lambda + nAug as real != 0.0
    ensures AreSigmaWeights(w, nAug, lambda)
  {
    var buffer := new real[2 * nAug + 1];
    buffer[0] := lambda / (lambda + nAug as real);
    for i := 1 to 2 * nAug + 1
      invariant buffer[0] == lambda / (lambda + nAug as real)
      invariant forall j :: 1 <= j < i ==> buffer[j] == 0.5 / (nAug as real + lambda)
    {
      buffer[i] := 0.5 / (nAug as real + lambda);
    }
    w := buffer[..];
  }

  /** Sum of a first weight followed by n equal weights. */
  lemma {:induction false} SumHeadThenConstant(w: seq<real>, c: real)
    requires |w| >= 1
    requires forall i :: 1 <= i < |w| ==> w[i] == c
    ensures Sum(w) == w[0] + (|w| - 1) as real * c
  {
    if |w| > 1 {
      SumHeadThenConstant(w[..|w| - 1], c);
    }
  }

  /** The weights sum to exactly one, for every augmented dimension and every
      spread that keeps lambda + nAug nonzero. */
  lemma WeightsSumToOne(w: seq<real>, nAug: nat, lambda: real)
    requires lambda + nAug as real != 0.0
    requires AreSigmaWeights(w, nAug, lambda)
    ensures Sum(w) == 1.0
  {
    var n := nAug as real;
    var c := 0.5 / (n + lambda);
    SumHeadThenConstant(w, c);
    assert (2.0 * n) * c == n / (lambda + n);
    assert lambda / (lambda + n) + n / (lambda + n) == 1.0;
  }

  /** With the filter's nAug = 7 and lambda = 3 - 7, the centre weight is
      -4/3 and every other weight is 1/6. */
  lemma UkfWeightValues(w: seq<real>)
    requires AreSigmaWeights(w, 7, 3.0 - 7.0)
    ensures |w| == 15 && w[0] == -4.0 / 3.0
    ensures forall i :: 1 <= i < 15 ==> w[i] == 1.0 / 6.0
  {
  }
}
