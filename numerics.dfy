/** The operations the filter takes from the C math library and from the
    matrix library, left uninterpreted. Only their shapes are known: a square
    root of a positive number is positive, the Cholesky factor of a 7x7 matrix
    is 7x7, and the inverse of an n x n matrix is n x n. */
module Numerics {
  import opened LinAlg

  type Positive = r: real | r > 0.0 witness 1.0

  datatype Ops = Ops(
    sin: real -> real,
    cos: real -> real,
    sqrt: Positive -> Positive,
    atan2: (real, real) -> real,
    /** lower-triangular factor L with L * L^T = argument (llt().matrixL()) */
    cholesky: Mat7 -> Mat7,
    /** inverse of the lidar innovation covariance */
    inverse2: Mat2 -> Mat2,
    /** inverse of the radar innovation covariance */
    inverse3: Mat3 -> Mat3)

  /** The 2x2 inverse maps symmetric matrices to symmetric ones, as the exact
      inverse of a symmetric matrix does. */
  ghost predicate SymmetricInverse2(ops: Ops) {
    forall S: Mat2 :: Symmetric(S, 2) ==> Symmetric(ops.inverse2(S), 2)
  }
}
