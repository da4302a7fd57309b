/**
 * Exact vector and matrix arithmetic over `real`, standing for the numpy operations
 * `@`, `.T`, `-`, scalar `*`, `np.dot` and `np.sum(np.abs(.))`.
 */
module LinAlg {

  type Vector = seq<real>
  type Matrix = seq<seq<real>>

  /** A map on vectors that keeps the dimension of its argument. */
  ghost predicate KeepsDimension(f: Vector -> Vector) {
    forall v :: |f(v)| == |v|
  }

  /** A 2-D array whose every row has `cols` entries. */
  predicate IsMatrix(a: Matrix, cols: nat) {
    forall i :: 0 <= i < |a| ==> |a[i]| == cols
  }

  function Abs(x: real): (r: real)
    ensures r >= 0.0 && (r == x || r == -x)
  {
    if x < 0.0 then -x else x
  }

  function Zeros(n: nat): (r: Vector)
    ensures |r| == n && forall i :: 0 <= i < n ==> r[i] == 0.0
  {
    seq(n, _ => 0.0)
  }

  /** `np.dot(u, v)`. */
  function Dot(u: Vector, v: Vector): real
    requires |u| == |v|
    decreases |u|
  {
    if |u| == 0 then 0.0 else u[0] * v[0] + Dot(u[1..], v[1..])
  }

  /** `np.sum(np.abs(v))`. */
  function SumAbs(v: Vector): real
    decreases |v|
  {
    if |v| == 0 then 0.0 else Abs(v[0]) + SumAbs(v[1..])
  }

  function Add(u: Vector, v: Vector): (r: Vector)
    requires |u| == |v|
    ensures |r| == |u|
  {
    seq(|u|, i requires 0 <= i < |u| => u[i] + v[i])
  }

  function Sub(u: Vector, v: Vector): (r: Vector)
    requires |u| == |v|
    ensures |r| == |u|
  {
    seq(|u|, i requires 0 <= i < |u| => u[i] - v[i])
  }

  function Scale(c: real, v: Vector): (r: Vector)
    ensures |r| == |v|
  {
    seq(|v|, i requires 0 <= i < |v| => c * v[i])
  }

  /** `a @ x`. */
  function MatVec(a: Matrix, x: Vector): (r: Vector)
    requires IsMatrix(a, |x|)
    ensures |r| == |a|
  {
    seq(|a|, i requires 0 <= i < |a| => Dot(a[i], x))
  }

  /** Column `j` of `a`. */
  function Column(a: Matrix, cols: nat, j: nat): (c: Vector)
    requires IsMatrix(a, cols) && j < cols
    ensures |c| == |a|
  {
    seq(|a|, i requires 0 <= i < |a| => a[i][j])
  }

  /** `a.T @ v` for an `|a|`-by-`cols` matrix `a`. */
  function TransposeMatVec(a: Matrix, cols: nat, v: Vector): (r: Vector)
    requires IsMatrix(a, cols) && |v| == |a|
    ensures |r| == cols
  {
    seq(cols, j requires 0 <= j < cols => Dot(Column(a, cols, j), v))
  }

  lemma {:induction false} DotSelfNonNegative(v: Vector)
    ensures Dot(v, v) >= 0.0
    decreases |v|
  {
    if |v| > 0 {
      DotSelfNonNegative(v[1..]);
      assert v[0] * v[0] >= 0.0;
    }
  }

  lemma {:induction false} SumAbsNonNegative(v: Vector)
    ensures SumAbs(v) >= 0.0
    decreases |v|
  {
    if |v| > 0 {
      SumAbsNonNegative(v[1..]);
    }
  }
}
