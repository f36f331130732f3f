/** Dense vectors and row-major matrices over the reals: the small part of a
    matrix library that the filter uses (sums, scalings, products, transposes
    and outer products), with the shape facts the filter relies on. */
module LinAlg {

  type Vector = seq<real>
  type Matrix = seq<seq<real>>

  /** m has `rows` rows of `cols` entries each. */
  predicate IsMatrix(m: Matrix, rows: nat, cols: nat) {
    |m| == rows && forall i :: 0 <= i < rows ==> |m[i]| == cols
  }

  /** Every point of `pts` has dimension n. */
  predicate AllOfLength(pts: seq<Vector>, n: nat) {
    forall i :: 0 <= i < |pts| ==> |pts[i]| == n
  }

  predicate Symmetric(m: Matrix, n: nat) {
    IsMatrix(m, n, n) && forall i, j :: 0 <= i < n && 0 <= j < n ==> m[i][j] == m[j][i]
  }

  /** The magnitude of a scalar (fabs, std::abs). */
  function Abs(a: real): real {
    if a < 0.0 then -a else a
  }

  type Mat2 = m: Matrix | IsMatrix(m, 2, 2) witness [[0.0, 0.0], [0.0, 0.0]]
  type Mat3 = m: Matrix | IsMatrix(m, 3, 3) witness ZeroMatrix(3, 3)
  type Mat7 = m: Matrix | IsMatrix(m, 7, 7) witness ZeroMatrix(7, 7)

  function Zeros(n: nat): (v: Vector)
    ensures |v| == n
  {
    seq(n, _ => 0.0)
  }

  function ZeroMatrix(rows: nat, cols: nat): (m: Matrix)
    ensures IsMatrix(m, rows, cols)
  {
    seq(rows, _ => Zeros(cols))
  }

  function Identity(n: nat): (m: Matrix)
    ensures IsMatrix(m, n, n)
  {
    seq(n, i => seq(n, j => if i == j then 1.0 else 0.0))
  }

  function Add(u: Vector, v: Vector): (r: Vector)
    requires |u| == |v|
    ensures |r| == |u|
  {
    seq(|u|, i requires 0 <= i < |u| => u[i] + v[i])
  }

  function Sub(u: Vector, v: Vector): (r: Vector)
    requires |u| == |v|
    ensures |r| == |u|
  {
    seq(|u|, i requires 0 <= i < |u| => u[i] - v[i])
  }

  function Scale(a: real, v: Vector): (r: Vector)
    ensures |r| == |v|
  {
    seq(|v|, i requires 0 <= i < |v| => a * v[i])
  }

  /** Sum of the products of corresponding entries, accumulated from the front. */
  function Dot(u: Vector, v: Vector): real
    requires |u| == |v|
  {
    if |u| == 0 then 0.0 else u[0] * v[0] + Dot(u[1..], v[1..])
  }

  /** Column j of m. */
  function Col(m: Matrix, j: nat): (c: Vector)
    requires forall i :: 0 <= i < |m| ==> j < |m[i]|
    ensures |c| == |m|
  {
    seq(|m|, i requires 0 <= i < |m| => m[i][j])
  }

  function MatVec(m: Matrix, v: Vector): (r: Vector)
    requires IsMatrix(m, |m|, |v|)
    ensures |r| == |m|
  {
    seq(|m|, i requires 0 <= i < |m| => Dot(m[i], v))
  }

  /** The transpose of a matrix with `cols` columns. */
  function Transpose(m: Matrix, cols: nat): (t: Matrix)
    requires IsMatrix(m, |m|, cols)
    ensures IsMatrix(t, cols, |m|)
  {
    seq(cols, j requires 0 <= j < cols => Col(m, j))
  }

  /** The product of a (|a| x |b|) and b (|b| x cols). */
  function MatMul(a: Matrix, b: Matrix, cols: nat): (r: Matrix)
    requires IsMatrix(a, |a|, |b|) && IsMatrix(b, |b|, cols)
    ensures IsMatrix(r, |a|, cols)
  {
    seq(|a|, i requires 0 <= i < |a| => seq(cols, j requires 0 <= j < cols => Dot(a[i], Col(b, j))))
  }

  function MatAdd(a: Matrix, b: Matrix, cols: nat): (r: Matrix)
    requires IsMatrix(a, |a|, cols) && IsMatrix(b, |a|, cols)
    ensures IsMatrix(r, |a|, cols)
  {
    seq(|a|, i requires 0 <= i < |a| => Add(a[i], b[i]))
  }

  function MatSub(a: Matrix, b: Matrix, cols: nat): (r: Matrix)
    requires IsMatrix(a, |a|, cols) && IsMatrix(b, |a|, cols)
    ensures IsMatrix(r, |a|, cols)
  {
    seq(|a|, i requires 0 <= i < |a| => Sub(a[i], b[i]))
  }

  function MatScale(c: real, m: Matrix): (r: Matrix)
    ensures |r| == |m| && forall i :: 0 <= i < |m| ==> |r[i]| == |m[i]|
  {
    seq(|m|, i requires 0 <= i < |m| => Scale(c, m[i]))
  }

  /** u * v^T. */
  function Outer(u: Vector, v: Vector): (r: Matrix)
    ensures IsMatrix(r, |u|, |v|)
  {
    seq(|u|, i requires 0 <= i < |u| => seq(|v|, j requires 0 <= j < |v| => u[i] * v[j]))
  }

  /** A dot product with the zero vector vanishes. */
  lemma {:induction false} DotZeros(u: Vector)
    ensures Dot(u, Zeros(|u|)) == 0.0
  {
    if |u| > 0 {
      assert Zeros(|u|)[1..] == Zeros(|u| - 1);
      DotZeros(u[1..]);
    }
  }

  /** Dot products of length two and five, written out. */
  lemma Dot2(u: Vector, v: Vector)
    requires |u| == |v| == 2
    ensures Dot(u, v) == u[0] * v[0] + u[1] * v[1]
  {
    assert Dot(u[2..], v[2..]) == 0.0;
  }

  lemma Dot3(u: Vector, v: Vector)
    requires |u| == |v| == 3
    ensures Dot(u, v) == u[0] * v[0] + u[1] * v[1] + u[2] * v[2]
  {
    assert u[1..][1..] == u[2..] && v[1..][1..] == v[2..];
    assert Dot(u[1..], v[1..]) == u[1] * v[1] + Dot(u[2..], v[2..]);
    assert u[2..][1..] == u[3..] && v[2..][1..] == v[3..];
    assert Dot(u[2..], v[2..]) == u[2] * v[2] + Dot(u[3..], v[3..]);
  }

  lemma Dot5(u: Vector, v: Vector)
    requires |u| == |v| == 5
    ensures Dot(u, v) == u[0] * v[0] + u[1] * v[1] + u[2] * v[2] + u[3] * v[3] + u[4] * v[4]
  {
    var t2, t3, t4 := Dot(u[2..], v[2..]), Dot(u[3..], v[3..]), Dot(u[4..], v[4..]);
    assert u[1..][1..] == u[2..] && v[1..][1..] == v[2..];
    assert Dot(u[1..], v[1..]) == u[1] * v[1] + t2;
    assert u[2..][1..] == u[3..] && v[2..][1..] == v[3..];
    assert t2 == u[2] * v[2] + t3;
    assert u[3..][1..] == u[4..] && v[3..][1..] == v[4..];
    assert t3 == u[3] * v[3] + t4;
    assert u[4..][1..] == u[5..] && v[4..][1..] == v[5..];
    assert t4 == u[4] * v[4] + Dot(u[5..], v[5..]);
  }

  /** Row i of the 5x5 identity picks entry i of a vector. */
  lemma IdentityDot5(i: nat, c: Vector)
    requires i < 5 && |c| == 5
    ensures Dot(Identity(5)[i], c) == c[i]
  {
    var e := Identity(5)[i];
    Dot5(e, c);
    forall k | 0 <= k < 5 ensures e[k] * c[k] == (if k == i then c[k] else 0.0) {
    }
  }

  /** The dot product distributes over a difference on the left. */
  lemma {:induction false} DotSub(a: Vector, b: Vector, c: Vector)
    requires |a| == |b| == |c|
    ensures Dot(Sub(a, b), c) == Dot(a, c) - Dot(b, c)
  {
    if |a| > 0 {
      assert Sub(a, b)[1..] == Sub(a[1..], b[1..]);
      DotSub(a[1..], b[1..], c[1..]);
      assert (a[0] - b[0]) * c[0] == a[0] * c[0] - b[0] * c[0];
    }
  }

  /** A matrix applied to the zero vector gives the zero vector. */
  lemma MatVecZeros(m: Matrix, n: nat)
    requires IsMatrix(m, |m|, n)
    ensures MatVec(m, Zeros(n)) == Zeros(|m|)
  {
    forall i | 0 <= i < |m| ensures MatVec(m, Zeros(n))[i] == 0.0 {
      DotZeros(m[i]);
    }
  }

  /** u * u^T is symmetric. */
  lemma OuterSelfSymmetric(u: Vector)
    ensures Symmetric(Outer(u, u), |u|)
  {
  }

  /** The sum of two symmetric matrices is symmetric. */
  lemma AddSymmetric(a: Matrix, b: Matrix, n: nat)
    requires Symmetric(a, n) && Symmetric(b, n)
    ensures Symmetric(MatAdd(a, b, n), n)
  {
  }

  /** A symmetric matrix plus a scaled symmetric matrix is symmetric. */
  lemma AddScaledSymmetric(a: Matrix, c: real, b: Matrix, n: nat)
    requires Symmetric(a, n) && Symmetric(b, n)
    ensures Symmetric(MatAdd(a, MatScale(c, b), n), n)
  {
  }
}
