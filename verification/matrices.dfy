/** Dense real vectors and matrices as nested sequences, with the exact entry
    operations the Wishart sampler performs itself (entry update, column
    gather).  `Dot` is the exact inner product that stands in for the sparse
    vector library's `inner`.  Real arithmetic stands in for the source's
    doubles. */
module Matrices {

  type Vector = seq<real>
  type Matrix = seq<seq<real>>

  /** `m` has `rows` rows, each of length `cols`. */
  predicate IsMatrix(m: Matrix, rows: nat, cols: nat)
  {
    |m| == rows && forall r :: 0 <= r < |m| ==> |m[r]| == cols
  }

  predicate IsSquare(m: Matrix, n: nat)
  {
    IsMatrix(m, n, n)
  }

  predicate Symmetric(m: Matrix)
    requires IsSquare(m, |m|)
  {
    forall i, j :: 0 <= i < |m| && 0 <= j < |m| ==> m[i][j] == m[j][i]
  }

  /** A freshly allocated matrix (the library initialises entries to zero). */
  function Zeros(rows: nat, cols: nat): (m: Matrix)
    ensures IsMatrix(m, rows, cols)
  {
    seq(rows, _ => seq(cols, _ => 0.0))
  }

  function Identity(n: nat): (m: Matrix)
    ensures IsSquare(m, n)
  {
    seq(n, i => seq(n, j => if i == j then 1.0 else 0.0))
  }

  /** `m` with entry (i, j) overwritten by `v`; every other entry is kept. */
  function SetEntry(m: Matrix, i: nat, j: nat, v: real): (m': Matrix)
    requires i < |m| && j < |m[i]|
    ensures |m'| == |m|
    ensures forall r :: 0 <= r < |m| ==> |m'[r]| == |m[r]|
    ensures m'[i][j] == v
    ensures forall r :: 0 <= r < |m| && r != i ==> m'[r] == m[r]
    ensures forall r, c :: 0 <= r < |m| && 0 <= c < |m[r]| && (r != i || c != j) ==> m'[r][c] == m[r][c]
  {
    m[i := m[i][j := v]]
  }

  /** Column `c` of `m`, top to bottom. */
  function Column(m: Matrix, c: nat): (v: Vector)
    requires forall r :: 0 <= r < |m| ==> c < |m[r]|
    ensures |v| == |m|
  {
    seq(|m|, r requires 0 <= r < |m| => m[r][c])
  }

  /** Inner product of two equally long vectors, summed from the back. */
  function Dot(u: Vector, v: Vector): real
    requires |u| == |v|
    decreases |u|
  {
    if |u| == 0 then 0.0
    else Dot(u[..|u| - 1], v[..|v| - 1]) + u[|u| - 1] * v[|v| - 1]
  }

  /** Whether columns `a` and `b` exist in the first `n` rows of `z`. */
  predicate HasColumns(z: Matrix, a: nat, b: nat, n: nat)
  {
    n <= |z| && forall k :: 0 <= k < n ==> a < |z[k]| && b < |z[k]|
  }

  /** The sum over the first `n` rows of `z` of z[k][a] * z[k][b]. */
  function ColumnCross(z: Matrix, a: nat, b: nat, n: nat): real
    requires HasColumns(z, a, b, n)
  {
    if n == 0 then 0.0
    else ColumnCross(z, a, b, n - 1) + z[n - 1][a] * z[n - 1][b]
  }

  /** Gathering columns `a` and `b` of the first `n` rows into two vectors and
      taking their inner product gives the column cross sum. */
  lemma {:induction false} DotOfGatheredColumns(z: Matrix, a: nat, b: nat, n: nat, u: Vector, v: Vector)
    requires HasColumns(z, a, b, n)
    requires |u| == n && |v| == n
    requires forall k :: 0 <= k < n ==> u[k] == z[k][a] && v[k] == z[k][b]
    ensures Dot(u, v) == ColumnCross(z, a, b, n)
  {
    if n > 0 {
      DotOfGatheredColumns(z, a, b, n - 1, u[..n - 1], v[..n - 1]);
    }
  }

  /** A column's sum of squares is never negative. */
  lemma {:induction false} SquaresNonNegative(z: Matrix, a: nat, n: nat)
    requires HasColumns(z, a, a, n)
    ensures ColumnCross(z, a, a, n) >= 0.0
  {
    if n > 0 {
      SquaresNonNegative(z, a, n - 1);
      var x := z[n - 1][a];
      assert x * x >= 0.0;
    }
  }
}
