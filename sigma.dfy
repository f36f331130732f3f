/** Augmenting the state with the two process-noise terms and laying out the
    2 * 7 + 1 augmented sigma points (first section of UKF::Prediction). */
module Sigma {
  import opened LinAlg
  import opened Weights
  import opened Moments

  /** Dimension of the state: px, py, v, yaw, yawd. */
  const NX: nat := 5
  /** Dimension of the augmented state: the state, then nu_a and nu_yawdd. */
  const NAug: nat := 7
  /** Number of sigma points. */
  const NSigma: nat := 2 * NAug + 1

  /** x_aug: the state followed by the two zero-mean noise terms. */
  function AugmentedMean(x: Vector): (r: Vector)
    requires |x| == NX
    ensures |r| == NAug && r[..NX] == x && r[5] == 0.0 && r[6] == 0.0
  {
    x + [0.0, 0.0]
  }

  /** P_aug: zero everywhere except P in the top-left 5x5 block and the two
      noise variances std_a^2 and std_yawdd^2 on the rest of the diagonal. */
  function AugmentedCovariance(P: Matrix, stdA: real, stdYawdd: real): (r: Mat7)
    requires IsMatrix(P, NX, NX)
    ensures forall i, j :: 0 <= i < NX && 0 <= j < NX ==> r[i][j] == P[i][j]
    ensures r[5][5] == stdA * stdA && r[6][6] == stdYawdd * stdYawdd
    ensures forall i, j :: 0 <= i < NAug && 0 <= j < NAug && (i >= NX || j >= NX) && i != j ==> r[i][j] == 0.0
  {
    seq(7, i requires 0 <= i < 7 => seq(7, j requires 0 <= j < 7 =>
      if i < 5 && j < 5 then P[i][j]
      else if i == 5 && j == 5 then stdA * stdA
      else if i == 6 && j == 6 then stdYawdd * stdYawdd
      else 0.0))
  }

  /** Augmenting a symmetric covariance keeps it symmetric. */
  lemma AugmentedCovarianceSymmetric(P: Matrix, stdA: real, stdYawdd: real)
    requires Symmetric(P, NX)
    ensures Symmetric(AugmentedCovariance(P, stdA, stdYawdd), NAug)
  {
    var r := AugmentedCovariance(P, stdA, stdYawdd);
    forall i, j | 0 <= i < NAug && 0 <= j < NAug ensures r[i][j] == r[j][i] {
      if i < NX && j < NX {
        assert P[i][j] == P[j][i];
      }
    }
  }

  /** Column i of Xsig_aug: the mean, then the mean plus each scaled column of
      the square-root matrix L, then the mean minus each. */
  function SigmaPoint(xAug: Vector, L: Matrix, spread: real, i: nat): (p: Vector)
    requires |xAug| == NAug && IsMatrix(L, NAug, NAug) && i < NSigma
    ensures |p| == NAug
  {
    if i == 0 then xAug
    else if i <= NAug then Add(xAug, Scale(spread, Col(L, i - 1)))
    else Sub(xAug, Scale(spread, Col(L, i - 1 - NAug)))
  }

  /** All 15 augmented sigma points, in column order. */
  function SigmaPoints(xAug: Vector, L: Matrix, spread: real): (X: seq<Vector>)
    requires |xAug| == NAug && IsMatrix(L, NAug, NAug)
    ensures |X| == NSigma && AllOfLength(X, NAug) && X[0] == xAug
  {
    seq(NSigma, i requires 0 <= i < NSigma => SigmaPoint(xAug, L, spread, i))
  }

  /** The sigma-point loop of UKF::Prediction: column 0 is x_aug, and for
      each i < 7 columns i+1 and i+1+7 are x_aug +/- spread * L.col(i). */
  method GenerateSigmaPoints(xAug: Vector, L: Matrix, spread: real) returns (X: seq<Vector>)
    requires |xAug| == NAug && IsMatrix(L, NAug, NAug)
    ensures X == SigmaPoints(xAug, L, spread)
  {
    var cols := new Vector[NSigma];
    cols[0] := xAug;
    for i := 0 to NAug
      invariant cols[0] == xAug
      invariant forall j :: 1 <= j <= i ==> cols[j] == SigmaPoint(xAug, L, spread, j)
      invariant forall j :: NAug + 1 <= j <= NAug + i ==> cols[j] == SigmaPoint(xAug, L, spread, j)
    {
      cols[i + 1] := Add(xAug, Scale(spread, Col(L, i)));
      cols[i + 1 + NAug] := Sub(xAug, Scale(spread, Col(L, i)));
    }
    X := cols[..];
  }

  /** The points come in mirror pairs around the mean: columns i+1 and
      i+1+7 add up to twice x_aug. */
  lemma SigmaPointsPaired(xAug: Vector, L: Matrix, spread: real, i: nat)
    requires |xAug| == NAug && IsMatrix(L, NAug, NAug) && i < NAug
    ensures Add(SigmaPoint(xAug, L, spread, i + 1), SigmaPoint(xAug, L, spread, i + 1 + NAug)) == Scale(2.0, xAug)
  {
  }

  /** a added to itself n times. */
  function Times(n: nat, a: real): real {
    if n == 0 then 0.0 else Times(n - 1, a) + a
  }

  lemma {:induction false} TimesIsProduct(n: nat, a: real)
    ensures Times(n, a) == n as real * a
  {
    if n > 0 {
      TimesIsProduct(n - 1, a);
      assert (n - 1) as real * a + a == n as real * a;
    }
  }

  /** X[1][c] + ... + X[k-1][c]: component c of the points after the centre. */
  function TailSum(X: seq<Vector>, c: nat, k: nat): real
    requires 1 <= k <= |X| && forall i :: 0 <= i < |X| ==> c < |X[i]|
  {
    if k == 1 then 0.0 else TailSum(X, c, k - 1) + X[k - 1][c]
  }

  /** When every point after the centre carries the same weight w[1], the
      weighted sum is the centre term plus w[1] times the plain tail sum. */
  lemma {:induction false} WeightedSumEqualTail(w: seq<real>, X: seq<Vector>, n: nat, c: nat, k: nat)
    requires |w| == |X| && AllOfLength(X, n) && c < n
    requires |X| >= 2 && forall i :: 1 <= i < |w| ==> w[i] == w[1]
    requires 1 <= k <= |X|
    ensures WeightedSum(w, X, n, k)[c] == w[0] * X[0][c] + w[1] * TailSum(X, c, k)
  {
    if k > 1 {
      WeightedSumEqualTail(w, X, n, c, k - 1);
      var t := TailSum(X, c, k - 1);
      assert w[1] * t + w[1] * X[k - 1][c] == w[1] * (t + X[k - 1][c]);
    }
  }

  /** Component c of sigma point i >= 1: x_aug[c] plus or minus the scaled
      entry of row c of L in the matching column. */
  lemma SigmaPointEntry(xAug: Vector, L: Matrix, spread: real, i: nat, c: nat)
    requires |xAug| == NAug && IsMatrix(L, NAug, NAug) && 1 <= i < NSigma && c < NAug
    ensures i <= NAug ==> SigmaPoint(xAug, L, spread, i)[c] == xAug[c] + Scale(spread, L[c])[i - 1]
    ensures i > NAug ==> SigmaPoint(xAug, L, spread, i)[c] == xAug[c] - Scale(spread, L[c])[i - 1 - NAug]
  {
  }

  /** Extending a prefix by one element adds that element to its sum. */
  lemma SumExtend(s: seq<real>, j: nat)
    requires j < |s|
    ensures Sum(s[..j + 1]) == Sum(s[..j]) + s[j]
  {
    assert s[..j + 1][..j] == s[..j];
  }

  /** The tail sum of the sigma points while k runs over the "plus" half:
      (k - 1) copies of x_aug[c] plus the scaled entries of row c of L. */
  lemma {:induction false} TailSumPlusHalf(xAug: Vector, L: Matrix, spread: real, c: nat, k: nat)
    requires |xAug| == NAug && IsMatrix(L, NAug, NAug) && c < NAug
    requires 1 <= k <= NAug + 1
    ensures TailSum(SigmaPoints(xAug, L, spread), c, k)
         == Times(k - 1, xAug[c]) + Sum(Scale(spread, L[c])[..k - 1])
  {
    var row := Scale(spread, L[c]);
    if k == 1 {
      assert row[..0] == [];
    } else {
      TailSumPlusHalf(xAug, L, spread, c, k - 1);
      SigmaPointEntry(xAug, L, spread, k - 1, c);
      SumExtend(row, k - 2);
    }
  }

  /** The same while k runs over the "minus" half, which takes the scaled
      entries of row c of L off again one by one. */
  lemma {:induction false} TailSumMinusHalf(xAug: Vector, L: Matrix, spread: real, c: nat, k: nat)
    requires |xAug| == NAug && IsMatrix(L, NAug, NAug) && c < NAug
    requires NAug + 1 <= k <= NSigma
    ensures TailSum(SigmaPoints(xAug, L, spread), c, k)
         == Times(k - 1, xAug[c]) + Sum(Scale(spread, L[c])[..NAug]) - Sum(Scale(spread, L[c])[..k - 1 - NAug])
  {
    var row := Scale(spread, L[c]);
    if k == NAug + 1 {
      TailSumPlusHalf(xAug, L, spread, c, k);
      assert row[..0] == [];
    } else {
      TailSumMinusHalf(xAug, L, spread, c, k - 1);
      SigmaPointEntry(xAug, L, spread, k - 1, c);
      SumExtend(row, k - 2 - NAug);
    }
  }

  /** The unscented-transform identity: with the filter's weights (for any
      spread lambda with lambda + 7 != 0), the weighted mean of the sigma
      points is exactly x_aug, whatever the square-root matrix L and the
      scale factor are. */
  lemma SigmaPointsMean(xAug: Vector, L: Matrix, spread: real, w: seq<real>, lambda: real)
    requires |xAug| == NAug && IsMatrix(L, NAug, NAug)
    requires lambda + NAug as real != 0.0 && AreSigmaWeights(w, NAug, lambda)
    ensures WeightedMean(w, SigmaPoints(xAug, L, spread), NAug) == xAug
  {
    var X := SigmaPoints(xAug, L, spread);
    WeightsSumToOne(w, NAug, lambda);
    SumHeadThenConstant(w, w[1]);
    var m := WeightedMean(w, X, NAug);
    forall c | 0 <= c < NAug ensures m[c] == xAug[c] {
      var a := xAug[c];
      WeightedSumEqualTail(w, X, NAug, c, NSigma);
      TailSumMinusHalf(xAug, L, spread, c, NSigma);
      TimesIsProduct(14, a);
      assert m[c] == w[0] * a + w[1] * (14.0 * a);
      assert w[0] * a + w[1] * (14.0 * a) == (w[0] + 14.0 * w[1]) * a;
    }
  }
}
