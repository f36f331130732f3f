/** The radar measurement update (UKF::UpdateRadar): the predicted sigma
    points are carried into radar space (range, bearing, range rate), their
    weighted moments give the predicted reading, its covariance and the
    state-reading cross-covariance, and the state is corrected by the bearing-
    wrapped residual. */
module Radar {
  import opened LinAlg
  import opened Numerics
  import opened Angles
  import opened Moments
  import opened Sigma

  /** Positions closer to an axis than this are pushed off it before the
      radar model divides by the range. */
  const Eps: real := 0.00000001

  /** std::abs(a) < eps ? eps : a. Values near zero, of either sign, become
      +eps; the result is never zero, and values at least eps from zero pass
      through unchanged. */
  function Clamp(a: real): (r: real)
    ensures r != 0.0 && Abs(r) >= Eps
    ensures Abs(a) >= Eps ==> r == a
    ensures r == a || r == Eps
  {
    if Abs(a) < Eps then Eps else a
  }

  /** Clamping an already clamped value changes nothing. */
  lemma ClampIdempotent(a: real)
    ensures Clamp(Clamp(a)) == Clamp(a)
  {
  }

  /** A nonzero number has a positive square. */
  lemma SquarePositive(a: real)
    requires a != 0.0
    ensures a * a > 0.0
  {
    if a < 0.0 {
      assert a * a == (-a) * (-a);
    }
  }

  /** One column of Zsig: the predicted state (px, py, v, yaw, yawd) seen by
      the radar as range rho = sqrt(px^2 + py^2), bearing atan2(py, px) and
      range rate (px * v cos(yaw) + py * v sin(yaw)) / rho, with px and py
      clamped away from zero first. The range is positive, so the division is
      defined. */
  function RadarPoint(p: Vector, ops: Ops): (r: Vector)
    requires |p| == NX
    ensures |r| == 3 && r[0] > 0.0
  {
    var px, py, v, yaw := Clamp(p[0]), Clamp(p[1]), p[2], p[3];
    var v1, v2 := ops.cos(yaw) * v, ops.sin(yaw) * v;
    SquarePositive(px);
    SquarePositive(py);
    var rho := ops.sqrt(px * px + py * py);
    [rho, ops.atan2(py, px), (px * v1 + py * v2) / rho]
  }

  /** Zsig: every predicted sigma point in radar space. */
  function RadarSigmaPoints(Xpred: seq<Vector>, ops: Ops): (Z: seq<Vector>)
    requires AllOfLength(Xpred, NX)
    ensures |Z| == |Xpred| && AllOfLength(Z, 3)
  {
    seq(|Xpred|, i requires 0 <= i < |Xpred| => RadarPoint(Xpred[i], ops))
  }

  /** The loop filling Zsig column by column. */
  method ProjectSigmaPoints(Xpred: seq<Vector>, ops: Ops) returns (Z: seq<Vector>)
    requires |Xpred| == NSigma && AllOfLength(Xpred, NX)
    ensures Z == RadarSigmaPoints(Xpred, ops)
  {
    var cols := new Vector[NSigma];
    for i := 0 to NSigma
      invariant forall j :: 0 <= j < i ==> cols[j] == RadarPoint(Xpred[j], ops)
    {
      cols[i] := RadarPoint(Xpred[i], ops);
    }
    Z := cols[..];
  }

  /** R_radar_: independent noise on range, bearing and range rate. */
  function RadarNoise(stdRho: real, stdPhi: real, stdRhoDot: real): (R: Mat3)
    ensures Symmetric(R, 3) && R[0][0] >= 0.0 && R[1][1] >= 0.0 && R[2][2] >= 0.0
  {
    [[stdRho * stdRho, 0.0, 0.0], [0.0, stdPhi * stdPhi, 0.0], [0.0, 0.0, stdRhoDot * stdRhoDot]]
  }

  /** K = Tc S^-1. */
  function RadarGain(Tc: Matrix, S: Mat3, ops: Ops): (K: Matrix)
    requires IsMatrix(Tc, NX, 3)
    ensures IsMatrix(K, NX, 3)
  {
    MatMul(Tc, ops.inverse3(S), 3)
  }

  /** The closing step of UKF::UpdateRadar, from the predicted reading zPred,
      its covariance S and the cross-covariance Tc: the residual z - zPred with
      its bearing wrapped, then x + K * residual and P - K * S * K^T. */
  function RadarCorrect(x: Vector, P: Matrix, zPred: Vector, S: Mat3, Tc: Matrix, z: Vector, ops: Ops): (e: Estimate)
    requires |x| == NX && IsMatrix(P, NX, NX) && |zPred| == 3 && |z| == 3 && IsMatrix(Tc, NX, 3)
    ensures |e.x| == NX && IsMatrix(e.P, NX, NX)
  {
    var K := RadarGain(Tc, S, ops);
    var zDiff := Residual(z, zPred, 1);
    Estimate(Add(x, MatVec(K, zDiff)), MatSub(P, MatMul(MatMul(K, S, 3), Transpose(K, 3), NX), NX))
  }

  /** S: the weighted covariance of Zsig around zPred, with the bearing of each
      difference wrapped, plus the measurement noise. The sampled part S - R
      is symmetric whatever R is. */
  function RadarInnovationCovariance(w: seq<real>, Z: seq<Vector>, zPred: Vector, R: Mat3): (S: Mat3)
    requires |w| == |Z| && AllOfLength(Z, 3) && |zPred| == 3
    ensures forall i, j :: 0 <= i < 3 && 0 <= j < 3 ==> S[i][j] - R[i][j] == S[j][i] - R[j][i]
  {
    CovarianceSymmetric(w, Z, zPred, 1, |Z|);
    MatAdd(WeightedCovariance(w, Z, zPred, 1, |Z|), R, 3)
  }

  /** UKF::UpdateRadar on the state (x, P) with predicted sigma points Xpred,
      weights w, noise R and the reading z. */
  function RadarUpdate(x: Vector, P: Matrix, Xpred: seq<Vector>, w: seq<real>, R: Mat3, z: Vector, ops: Ops): (e: Estimate)
    requires |x| == NX && IsMatrix(P, NX, NX) && |z| == 3
    requires |Xpred| == |w| && AllOfLength(Xpred, NX)
    ensures |e.x| == NX && IsMatrix(e.P, NX, NX)
  {
    var Z := RadarSigmaPoints(Xpred, ops);
    var zPred := WeightedMean(w, Z, 3);
    var S := RadarInnovationCovariance(w, Z, zPred, R);
    var Tc := WeightedCrossCovariance(w, Xpred, x, 3, Z, zPred, 1, |Xpred|);
    RadarCorrect(x, P, zPred, S, Tc, z, ops)
  }

  /** The update sees the bearing only through its wrapped residual: a reading
      whose bearing differs by whole turns gives the same update. */
  lemma RadarBearingTurns(x: Vector, P: Matrix, zPred: Vector, S: Mat3, Tc: Matrix, z: Vector, k: int, ops: Ops)
    requires |x| == NX && IsMatrix(P, NX, NX) && |zPred| == 3 && |z| == 3 && IsMatrix(Tc, NX, 3)
    ensures RadarCorrect(x, P, zPred, S, Tc, z[1 := z[1] + 2.0 * Pi * k as real], ops)
         == RadarCorrect(x, P, zPred, S, Tc, z, ops)
  {
    var z' := z[1 := z[1] + 2.0 * Pi * k as real];
    var d := z[1] - zPred[1];
    assert z'[1] - zPred[1] == d + 2.0 * Pi * k as real;
    NormalizeAnglePeriodic(d, k);
    assert Residual(z', zPred, 1) == Residual(z, zPred, 1);
  }

  /** The wrapped residual of a reading against itself is zero. */
  lemma ResidualSelf(z: Vector, angle: nat)
    requires angle < |z|
    ensures Residual(z, z, angle) == Zeros(|z|)
  {
    NormalizeAngleZero();
    assert z[angle] - z[angle] == 0.0;
  }

  /** A reading equal to the predicted reading leaves the mean where it was,
      whatever the gain. */
  lemma RadarMatchingReading(x: Vector, P: Matrix, zPred: Vector, S: Mat3, Tc: Matrix, ops: Ops)
    requires |x| == NX && IsMatrix(P, NX, NX) && |zPred| == 3 && IsMatrix(Tc, NX, 3)
    ensures RadarCorrect(x, P, zPred, S, Tc, zPred, ops).x == x
  {
    ResidualSelf(zPred, 1);
    MatVecZeros(RadarGain(Tc, S, ops), 3);
  }

  /** Entry (i, j) of K S K^T for a 5 x 3 gain K, written out. */
  lemma GainSandwichEntry(K: Matrix, S: Mat3, i: nat, j: nat)
    requires IsMatrix(K, NX, 3) && i < NX && j < NX
    ensures MatMul(MatMul(K, S, 3), Transpose(K, 3), NX)[i][j]
         == (K[i][0] * S[0][0] + K[i][1] * S[1][0] + K[i][2] * S[2][0]) * K[j][0]
          + (K[i][0] * S[0][1] + K[i][1] * S[1][1] + K[i][2] * S[2][1]) * K[j][1]
          + (K[i][0] * S[0][2] + K[i][1] * S[1][2] + K[i][2] * S[2][2]) * K[j][2]
  {
    var KS := MatMul(K, S, 3);
    Dot3(K[i], Col(S, 0));
    Dot3(K[i], Col(S, 1));
    Dot3(K[i], Col(S, 2));
    Dot3(KS[i], Col(Transpose(K, 3), j));
  }

  /** K S K^T is symmetric when S is. */
  lemma GainSandwichSymmetric(K: Matrix, S: Mat3)
    requires IsMatrix(K, NX, 3) && Symmetric(S, 3)
    ensures Symmetric(MatMul(MatMul(K, S, 3), Transpose(K, 3), NX), NX)
  {
    var M := MatMul(MatMul(K, S, 3), Transpose(K, 3), NX);
    forall i, j | 0 <= i < NX && 0 <= j < NX ensures M[i][j] == M[j][i] {
      GainSandwichEntry(K, S, i, j);
      GainSandwichEntry(K, S, j, i);
    }
  }

  /** The covariance correction P - K S K^T keeps P symmetric when S is
      symmetric, whatever the gain. */
  lemma RadarCorrectSymmetric(x: Vector, P: Matrix, zPred: Vector, S: Mat3, Tc: Matrix, z: Vector, ops: Ops)
    requires |x| == NX && Symmetric(P, NX) && |zPred| == 3 && |z| == 3 && IsMatrix(Tc, NX, 3)
    requires Symmetric(S, 3)
    ensures Symmetric(RadarCorrect(x, P, zPred, S, Tc, z, ops).P, NX)
  {
    GainSandwichSymmetric(RadarGain(Tc, S, ops), S);
  }

  /** The radar innovation covariance is symmetric whenever the noise is. */
  lemma RadarInnovationSymmetric(w: seq<real>, Z: seq<Vector>, zPred: Vector, R: Mat3)
    requires |w| == |Z| && AllOfLength(Z, 3) && |zPred| == 3 && Symmetric(R, 3)
    ensures Symmetric(RadarInnovationCovariance(w, Z, zPred, R), 3)
  {
    CovarianceSymmetric(w, Z, zPred, 1, |Z|);
    AddSymmetric(WeightedCovariance(w, Z, zPred, 1, |Z|), R, 3);
  }

  /** The full radar update keeps the state covariance symmetric. */
  lemma RadarUpdateSymmetric(x: Vector, P: Matrix, Xpred: seq<Vector>, w: seq<real>, R: Mat3, z: Vector, ops: Ops)
    requires |x| == NX && Symmetric(P, NX) && |z| == 3
    requires |Xpred| == |w| && AllOfLength(Xpred, NX) && Symmetric(R, 3)
    ensures Symmetric(RadarUpdate(x, P, Xpred, w, R, z, ops).P, NX)
  {
    var Z := RadarSigmaPoints(Xpred, ops);
    var zPred := WeightedMean(w, Z, 3);
    RadarInnovationSymmetric(w, Z, zPred, R);
    var S := RadarInnovationCovariance(w, Z, zPred, R);
    var Tc := WeightedCrossCovariance(w, Xpred, x, 3, Z, zPred, 1, |Xpred|);
    RadarCorrectSymmetric(x, P, zPred, S, Tc, z, ops);
  }
}
