/** The lidar measurement update (UKF::UpdateLidar): a linear Kalman update
    whose measurement matrix H picks the position (px, py) out of the state. */
module Lidar {
  import opened LinAlg
  import opened Numerics
  import opened Moments

  /** H_laser_: the lidar reads px and py. */
  const LaserH: Matrix := [[1.0, 0.0, 0.0, 0.0, 0.0], [0.0, 1.0, 0.0, 0.0, 0.0]]

  /** R_laser_: independent noise on the two position readings. */
  function LaserNoise(stdPx: real, stdPy: real): (R: Mat2)
    ensures Symmetric(R, 2) && R[0][0] >= 0.0 && R[1][1] >= 0.0
  {
    [[stdPx * stdPx, 0.0], [0.0, stdPy * stdPy]]
  }

  /** z_pred = H x: the predicted lidar reading is the predicted position. */
  lemma LaserProjection(x: Vector)
    requires |x| == 5
    ensures MatVec(LaserH, x) == x[..2]
  {
    Dot5(LaserH[0], x);
    Dot5(LaserH[1], x);
  }

  /** Row i of H P is row i of P. */
  lemma LaserRowsOfP(P: Matrix)
    requires IsMatrix(P, 5, 5)
    ensures MatMul(LaserH, P, 5) == P[..2]
  {
    var HP := MatMul(LaserH, P, 5);
    forall i | 0 <= i < 2 ensures HP[i] == P[i] {
      forall j | 0 <= j < 5 ensures HP[i][j] == P[i][j] {
        Dot5(LaserH[i], Col(P, j));
      }
    }
  }

  /** Entry (i, j) of M H^T, for j < 2, is entry (i, j) of M. */
  lemma LaserColumn(M: Matrix, i: nat, j: nat)
    requires IsMatrix(M, |M|, 5) && i < |M| && j < 2
    ensures MatMul(M, Transpose(LaserH, 5), 2)[i][j] == M[i][j]
  {
    Dot5(M[i], Col(Transpose(LaserH, 5), j));
  }

  /** S = H P H^T + R: the innovation covariance is the position block of P
      plus the measurement noise. */
  function LaserInnovationCovariance(P: Matrix, R: Mat2): (S: Mat2)
    requires IsMatrix(P, 5, 5)
    ensures forall i, j :: 0 <= i < 2 && 0 <= j < 2 ==> S[i][j] == P[i][j] + R[i][j]
  {
    LaserRowsOfP(P);
    LaserColumn(P[..2], 0, 0);
    LaserColumn(P[..2], 0, 1);
    LaserColumn(P[..2], 1, 0);
    LaserColumn(P[..2], 1, 1);
    MatAdd(MatMul(MatMul(LaserH, P, 5), Transpose(LaserH, 5), 2), R, 2)
  }

  /** K = P H^T S^-1. */
  function LaserGain(P: Matrix, R: Mat2, ops: Ops): (K: Matrix)
    requires IsMatrix(P, 5, 5)
    ensures IsMatrix(K, 5, 2)
  {
    MatMul(MatMul(P, Transpose(LaserH, 5), 2), ops.inverse2(LaserInnovationCovariance(P, R)), 2)
  }

  /** The gain weighs the two position columns of P by the inverse innovation
      covariance Si; the other columns of P play no part. */
  lemma LaserGainEntry(P: Matrix, R: Mat2, ops: Ops, i: nat, j: nat)
    requires IsMatrix(P, 5, 5) && i < 5 && j < 2
    ensures var Si := ops.inverse2(LaserInnovationCovariance(P, R));
            LaserGain(P, R, ops)[i][j] == P[i][0] * Si[0][j] + P[i][1] * Si[1][j]
  {
    var Si := ops.inverse2(LaserInnovationCovariance(P, R));
    var PHt := MatMul(P, Transpose(LaserH, 5), 2);
    LaserColumn(P, i, 0);
    LaserColumn(P, i, 1);
    Dot2(PHt[i], Col(Si, j));
  }

  /** (I - K H) P. */
  function LaserCovarianceUpdate(K: Matrix, P: Matrix): (r: Matrix)
    requires IsMatrix(K, 5, 2) && IsMatrix(P, 5, 5)
    ensures IsMatrix(r, 5, 5)
  {
    MatMul(MatSub(Identity(5), MatMul(K, LaserH, 5), 5), P, 5)
  }

  /** Row i of (I - K H) P is row i of P less K[i][0] times row 0 and K[i][1]
      times row 1. */
  lemma LaserCovarianceEntry(K: Matrix, P: Matrix, i: nat, j: nat)
    requires IsMatrix(K, 5, 2) && IsMatrix(P, 5, 5) && i < 5 && j < 5
    ensures LaserCovarianceUpdate(K, P)[i][j] == P[i][j] - (K[i][0] * P[0][j] + K[i][1] * P[1][j])
  {
    var KH := MatMul(K, LaserH, 5);
    var c := Col(P, j);
    assert LaserCovarianceUpdate(K, P)[i][j] == Dot(Sub(Identity(5)[i], KH[i]), c);
    DotSub(Identity(5)[i], KH[i], c);
    IdentityDot5(i, c);
    LaserGainRow(K, i);
    Dot5(KH[i], c);
  }

  /** Row i of K H is row i of K padded with three zeros. */
  lemma LaserGainRow(K: Matrix, i: nat)
    requires IsMatrix(K, 5, 2) && i < 5
    ensures MatMul(K, LaserH, 5)[i] == [K[i][0], K[i][1], 0.0, 0.0, 0.0]
  {
    var r := MatMul(K, LaserH, 5)[i];
    forall m | 0 <= m < 5 ensures r[m] == [K[i][0], K[i][1], 0.0, 0.0, 0.0][m] {
      Dot2(K[i], Col(LaserH, m));
    }
  }

  /** UKF::UpdateLidar on the state (x, P) and the reading z with noise R. */
  function LidarUpdate(x: Vector, P: Matrix, z: Vector, R: Mat2, ops: Ops): (e: Estimate)
    requires |x| == 5 && IsMatrix(P, 5, 5) && |z| == 2
    ensures |e.x| == 5 && IsMatrix(e.P, 5, 5)
  {
    var zPred := MatVec(LaserH, x);
    var y := Sub(z, zPred);
    var K := LaserGain(P, R, ops);
    Estimate(Add(x, MatVec(K, y)), LaserCovarianceUpdate(K, P))
  }

  /** The new mean moves by the gain times the position residual z - (px, py). */
  lemma LidarUpdateMean(x: Vector, P: Matrix, z: Vector, R: Mat2, ops: Ops, i: nat)
    requires |x| == 5 && IsMatrix(P, 5, 5) && |z| == 2 && i < 5
    ensures var K := LaserGain(P, R, ops);
            LidarUpdate(x, P, z, R, ops).x[i] == x[i] + (K[i][0] * (z[0] - x[0]) + K[i][1] * (z[1] - x[1]))
  {
    LaserProjection(x);
    var K := LaserGain(P, R, ops);
    Dot2(K[i], Sub(z, MatVec(LaserH, x)));
  }

  /** The new covariance loses the gain times the position rows of P. */
  lemma LidarUpdateCovariance(x: Vector, P: Matrix, z: Vector, R: Mat2, ops: Ops, i: nat, j: nat)
    requires |x| == 5 && IsMatrix(P, 5, 5) && |z| == 2 && i < 5 && j < 5
    ensures var K := LaserGain(P, R, ops);
            LidarUpdate(x, P, z, R, ops).P[i][j] == P[i][j] - (K[i][0] * P[0][j] + K[i][1] * P[1][j])
  {
    var K := LaserGain(P, R, ops);
    assert LidarUpdate(x, P, z, R, ops).P == LaserCovarianceUpdate(K, P);
    LaserCovarianceEntry(K, P, i, j);
  }

  /** A reading that matches the predicted position leaves the mean where it
      was, whatever the gain. */
  lemma LidarMatchingReading(x: Vector, P: Matrix, z: Vector, R: Mat2, ops: Ops)
    requires |x| == 5 && IsMatrix(P, 5, 5) && |z| == 2
    requires z == x[..2]
    ensures LidarUpdate(x, P, z, R, ops).x == x
  {
    var e := LidarUpdate(x, P, z, R, ops);
    forall i | 0 <= i < 5 ensures e.x[i] == x[i] {
      LidarUpdateMean(x, P, z, R, ops, i);
      assert z[0] - x[0] == 0.0 && z[1] - x[1] == 0.0;
    }
  }

  /** For a symmetric 2x2 S, with k = a S and l = b S: k . b' == l . a',
      where a' and b' are a and b read from the other side of a symmetric
      matrix. */
  lemma BilinearSymmetric(k0: real, k1: real, l0: real, l1: real, a0: real, a1: real, b0: real, b1: real,
                          a0': real, a1': real, b0': real, b1': real, s00: real, s01: real, s10: real, s11: real)
    requires s01 == s10 && a0' == a0 && a1' == a1 && b0' == b0 && b1' == b1
    requires k0 == a0 * s00 + a1 * s10 && k1 == a0 * s01 + a1 * s11
    requires l0 == b0 * s00 + b1 * s10 && l1 == b0 * s01 + b1 * s11
    ensures k0 * b0' + k1 * b1' == l0 * a0' + l1 * a1'
  {
    calc {
      k0 * b0 + k1 * b1;
      (a0 * s00 + a1 * s10) * b0 + (a0 * s01 + a1 * s11) * b1;
      a0 * b0 * s00 + a1 * b0 * s10 + a0 * b1 * s01 + a1 * b1 * s11;
      (b0 * s00 + b1 * s10) * a0 + (b0 * s01 + b1 * s11) * a1;
      l0 * a0 + l1 * a1;
    }
  }

  /** A matrix M with the entries of (I - K H) P, for K = P H^T Si, is
      symmetric when P and Si are. */
  lemma CovarianceUpdateSymmetric(M: Matrix, K: Matrix, P: Matrix, Si: Mat2)
    requires IsMatrix(M, 5, 5) && IsMatrix(K, 5, 2) && Symmetric(P, 5) && Symmetric(Si, 2)
    requires forall r, c :: 0 <= r < 5 && 0 <= c < 2 ==> K[r][c] == P[r][0] * Si[0][c] + P[r][1] * Si[1][c]
    requires forall i, j :: 0 <= i < 5 && 0 <= j < 5 ==> M[i][j] == P[i][j] - (K[i][0] * P[0][j] + K[i][1] * P[1][j])
    ensures Symmetric(M, 5)
  {
    forall i, j | 0 <= i < 5 && 0 <= j < 5 ensures M[i][j] == M[j][i] {
      CovarianceEntrySymmetric(M, K, P, Si, i, j);
    }
  }

  /** One entry pair of CovarianceUpdateSymmetric, from ground facts only. */
  lemma CovarianceEntrySymmetric(M: Matrix, K: Matrix, P: Matrix, Si: Mat2, i: nat, j: nat)
    requires IsMatrix(M, 5, 5) && IsMatrix(K, 5, 2) && IsMatrix(P, 5, 5) && IsMatrix(Si, 2, 2) && i < 5 && j < 5
    requires Si[0][1] == Si[1][0] && P[i][j] == P[j][i]
    requires P[0][i] == P[i][0] && P[1][i] == P[i][1] && P[0][j] == P[j][0] && P[1][j] == P[j][1]
    requires K[i][0] == P[i][0] * Si[0][0] + P[i][1] * Si[1][0] && K[i][1] == P[i][0] * Si[0][1] + P[i][1] * Si[1][1]
    requires K[j][0] == P[j][0] * Si[0][0] + P[j][1] * Si[1][0] && K[j][1] == P[j][0] * Si[0][1] + P[j][1] * Si[1][1]
    requires M[i][j] == P[i][j] - (K[i][0] * P[0][j] + K[i][1] * P[1][j])
    requires M[j][i] == P[j][i] - (K[j][0] * P[0][i] + K[j][1] * P[1][i])
    ensures M[i][j] == M[j][i]
  {
    BilinearSymmetric(K[i][0], K[i][1], K[j][0], K[j][1], P[i][0], P[i][1], P[j][0], P[j][1],
                      P[0][i], P[1][i], P[0][j], P[1][j], Si[0][0], Si[0][1], Si[1][0], Si[1][1]);
  }

  /** When the inverse of the innovation covariance is symmetric (as the exact
      inverse of a symmetric matrix is), (I - K H) P is symmetric: the
      subtracted term is P H^T S^-1 H P. */
  lemma LidarUpdateSymmetric(x: Vector, P: Matrix, z: Vector, R: Mat2, ops: Ops)
    requires |x| == 5 && Symmetric(P, 5) && |z| == 2
    requires Symmetric(ops.inverse2(LaserInnovationCovariance(P, R)), 2)
    ensures Symmetric(LidarUpdate(x, P, z, R, ops).P, 5)
  {
    var Si := ops.inverse2(LaserInnovationCovariance(P, R));
    var K := LaserGain(P, R, ops);
    var M := LaserCovarianceUpdate(K, P);
    forall r, c | 0 <= r < 5 && 0 <= c < 2 ensures K[r][c] == P[r][0] * Si[0][c] + P[r][1] * Si[1][c] {
      LaserGainEntry(P, R, ops, r, c);
    }
    forall i, j | 0 <= i < 5 && 0 <= j < 5 ensures M[i][j] == P[i][j] - (K[i][0] * P[0][j] + K[i][1] * P[1][j]) {
      LaserCovarianceEntry(K, P, i, j);
    }
    CovarianceUpdateSymmetric(M, K, P, Si);
  }

  /** With a symmetric covariance and symmetric noise the innovation
      covariance is symmetric. */
  lemma LaserInnovationSymmetric(P: Matrix, R: Mat2)
    requires Symmetric(P, 5) && Symmetric(R, 2)
    ensures Symmetric(LaserInnovationCovariance(P, R), 2)
  {
  }
}
