/** Weighted statistics of a set of sigma points: the mean, the covariance
    and the cross-covariance loops shared by the prediction step and the radar
    update, with the angular component of every difference wrapped. */
module Moments {
  import opened LinAlg
  import opened Angles

  /** A Gaussian belief: mean and covariance. */
  datatype Estimate = Estimate(x: Vector, P: Matrix)

  /** w[0] * pts[0] + ... + w[k-1] * pts[k-1], added in that order onto zero. */
  function WeightedSum(w: seq<real>, pts: seq<Vector>, n: nat, k: nat): (r: Vector)
    requires k <= |w| && k <= |pts| && AllOfLength(pts, n)
    ensures |r| == n
  {
    if k == 0 then Zeros(n) else Add(WeightedSum(w, pts, n, k - 1), Scale(w[k - 1], pts[k - 1]))
  }

  /** The weighted mean of all the points. */
  function WeightedMean(w: seq<real>, pts: seq<Vector>, n: nat): (r: Vector)
    requires |w| == |pts| && AllOfLength(pts, n)
    ensures |r| == n
  {
    WeightedSum(w, pts, n, |pts|)
  }

  /** a - b with component `angle` wrapped into [-pi, pi): the state or
      measurement difference the filter uses wherever a heading or a bearing
      is subtracted. */
  function Residual(a: Vector, b: Vector, angle: nat): (d: Vector)
    requires |a| == |b| && angle < |a|
    ensures |d| == |a|
    ensures forall i :: 0 <= i < |a| && i != angle ==> d[i] == a[i] - b[i]
    ensures -Pi <= d[angle] < Pi && IsTurnMultiple(a[angle] - b[angle] - d[angle])
  {
    var diff := Sub(a, b);
    diff[angle := NormalizeAngle(diff[angle])]
  }

  /** Sum over the first k points of w[i] * d_i * d_i^T, d_i the wrapped
      difference between point i and the mean. */
  function WeightedCovariance(w: seq<real>, pts: seq<Vector>, mean: Vector, angle: nat, k: nat): (r: Matrix)
    requires k <= |w| && k <= |pts| && AllOfLength(pts, |mean|) && angle < |mean|
    ensures IsMatrix(r, |mean|, |mean|)
  {
    if k == 0 then ZeroMatrix(|mean|, |mean|)
    else
      var d := Residual(pts[k - 1], mean, angle);
      MatAdd(WeightedCovariance(w, pts, mean, angle, k - 1), MatScale(w[k - 1], Outer(d, d)), |mean|)
  }

  /** Sum over the first k points of w[i] * dx_i * dz_i^T, with dx_i and dz_i
      the wrapped differences of two paired point sets from their means. */
  function WeightedCrossCovariance(w: seq<real>, xs: seq<Vector>, xMean: Vector, xAngle: nat,
                                   zs: seq<Vector>, zMean: Vector, zAngle: nat, k: nat): (r: Matrix)
    requires k <= |w| && k <= |xs| && k <= |zs|
    requires AllOfLength(xs, |xMean|) && xAngle < |xMean|
    requires AllOfLength(zs, |zMean|) && zAngle < |zMean|
    ensures IsMatrix(r, |xMean|, |zMean|)
  {
    if k == 0 then ZeroMatrix(|xMean|, |zMean|)
    else
      var dz := Residual(zs[k - 1], zMean, zAngle);
      var dx := Residual(xs[k - 1], xMean, xAngle);
      MatAdd(WeightedCrossCovariance(w, xs, xMean, xAngle, zs, zMean, zAngle, k - 1),
             MatScale(w[k - 1], Outer(dx, dz)), |zMean|)
  }

  /** The mean loop: x.fill(0), then x += w[i] * col(i) for every point. */
  method ComputeMean(w: seq<real>, pts: seq<Vector>, n: nat) returns (mean: Vector)
    requires |w| == |pts| && AllOfLength(pts, n)
    ensures mean == WeightedMean(w, pts, n)
  {
    mean := Zeros(n);
    for i := 0 to |pts|
      invariant mean == WeightedSum(w, pts, n, i)
    {
      mean := Add(mean, Scale(w[i], pts[i]));
    }
  }

  /** The covariance loop: P.fill(0), then P += w[i] * d * d^T with d the
      wrapped difference of point i from the mean. */
  method ComputeCovariance(w: seq<real>, pts: seq<Vector>, mean: Vector, angle: nat) returns (cov: Matrix)
    requires |w| == |pts| && AllOfLength(pts, |mean|) && angle < |mean|
    ensures cov == WeightedCovariance(w, pts, mean, angle, |pts|)
  {
    cov := ZeroMatrix(|mean|, |mean|);
    for i := 0 to |pts|
      invariant cov == WeightedCovariance(w, pts, mean, angle, i)
    {
      var diff := Residual(pts[i], mean, angle);
      cov := MatAdd(cov, MatScale(w[i], Outer(diff, diff)), |mean|);
    }
  }

  /** The cross-covariance loop: Tc.fill(0), then Tc += w[i] * dx * dz^T. */
  method ComputeCrossCovariance(w: seq<real>, xs: seq<Vector>, xMean: Vector, xAngle: nat,
                                zs: seq<Vector>, zMean: Vector, zAngle: nat) returns (tc: Matrix)
    requires |w| == |xs| == |zs|
    requires AllOfLength(xs, |xMean|) && xAngle < |xMean|
    requires AllOfLength(zs, |zMean|) && zAngle < |zMean|
    ensures tc == WeightedCrossCovariance(w, xs, xMean, xAngle, zs, zMean, zAngle, |xs|)
  {
    tc := ZeroMatrix(|xMean|, |zMean|);
    for i := 0 to |xs|
      invariant tc == WeightedCrossCovariance(w, xs, xMean, xAngle, zs, zMean, zAngle, i)
    {
      var dz := Residual(zs[i], zMean, zAngle);
      var dx := Residual(xs[i], xMean, xAngle);
      tc := MatAdd(tc, MatScale(w[i], Outer(dx, dz)), |zMean|);
    }
  }

  /** A covariance accumulated from weighted outer products is symmetric,
      whatever the weights and the points. */
  lemma {:induction false} CovarianceSymmetric(w: seq<real>, pts: seq<Vector>, mean: Vector, angle: nat, k: nat)
    requires k <= |w| && k <= |pts| && AllOfLength(pts, |mean|) && angle < |mean|
    ensures Symmetric(WeightedCovariance(w, pts, mean, angle, k), |mean|)
  {
    if k > 0 {
      CovarianceSymmetric(w, pts, mean, angle, k - 1);
      var d := Residual(pts[k - 1], mean, angle);
      OuterSelfSymmetric(d);
      AddScaledSymmetric(WeightedCovariance(w, pts, mean, angle, k - 1), w[k - 1], Outer(d, d), |mean|);
    }
  }

  /** The weighted sum is taken component by component: cutting every point
      down to its first m components cuts the sum the same way. */
  lemma {:induction false} WeightedSumPrefix(w: seq<real>, long: seq<Vector>, n: nat, short: seq<Vector>, m: nat, k: nat)
    requires m <= n && k <= |w| && k <= |long| && k <= |short|
    requires AllOfLength(long, n) && AllOfLength(short, m)
    requires forall i :: 0 <= i < k ==> short[i] == long[i][..m]
    ensures WeightedSum(w, short, m, k) == WeightedSum(w, long, n, k)[..m]
  {
    if k > 0 {
      WeightedSumPrefix(w, long, n, short, m, k - 1);
      var s, l := WeightedSum(w, short, m, k), WeightedSum(w, long, n, k);
      forall c | 0 <= c < m ensures s[c] == l[c] {
        assert short[k - 1][c] == long[k - 1][c];
      }
    }
  }
}
