/** The Wishart sampler `wishart(scale, df)`: the Bartlett matrix `B` assembled
    from standard-normal draws `z` and gamma draws `y`, transformed by the
    Cholesky factor `A` of `scale` into `Aᵀ·B·A`, or no sample when `scale` has
    no Cholesky factor. */
module Wishart {
  import opened Options
  import opened Matrices
  import opened Library

  /** The random draws one call consumes: `gaussian(i, j)` is the standard-normal
      draw stored at z[i][j], and `gamma(i, shape, scale)` is the i-th gamma draw,
      taken with the given shape and scale. */
  datatype Rng = Rng(gaussian: (nat, nat) -> real, gamma: (nat, real, real) -> real)

  /** `Undefined` is the source's `null` (no Cholesky factor); `Fault` is the
      index error the source raises for a 0×0 scale matrix. */
  datatype Outcome = Undefined | Drawn(sample: Matrix) | Fault

  /** Shape of the gamma draw for row i, which the source writes (df - (i + 1)) / 2. */
  function GammaShape(df: real, i: nat): real
  {
    (df - (i + 1) as real) / 2.0
  }

  /** The p×p standard-normal draws z. */
  function Normals(p: nat, rng: Rng): (z: Matrix)
    ensures IsSquare(z, p)
  {
    seq(p, i requires 0 <= i < p => seq(p, j requires 0 <= j < p => rng.gaussian(i, j)))
  }

  /** The p gamma draws y, each with shape GammaShape(df, i) and scale 2. */
  function Gammas(p: nat, df: real, rng: Rng): (y: Vector)
    ensures |y| == p
  {
    seq(p, i requires 0 <= i < p => rng.gamma(i, GammaShape(df, i), 2.0))
  }

  /** Inputs of the Bartlett assembly: p ≥ 1 gamma draws and p×p normal draws. */
  predicate Draws(z: Matrix, y: Vector)
  {
    |y| >= 1 && IsSquare(z, |y|)
  }

  /** Entry (i, j) with i ≤ j of the Bartlett matrix: the diagonal is the gamma
      draw plus the squares of the normals above it in column j; the first row is
      the normal scaled by sqrt(y[0]); an interior entry is the normal scaled by
      sqrt(y[i]) plus the cross sum of columns i and j above row i. */
  function Upper(z: Matrix, y: Vector, sqrt: real -> real, i: nat, j: nat): real
    requires Draws(z, y) && i <= j < |y|
  {
    if i == j then y[j] + ColumnCross(z, j, j, j)
    else if i == 0 then z[0][j] * sqrt(y[0])
    else z[i][j] * sqrt(y[i]) + ColumnCross(z, i, j, i)
  }

  /** The Bartlett matrix: its upper triangle is `Upper`, its lower triangle the mirror. */
  function Bartlett(z: Matrix, y: Vector, sqrt: real -> real): (B: Matrix)
    requires Draws(z, y)
    ensures IsSquare(B, |y|) && Symmetric(B)
    ensures B[0][0] == y[0]
  {
    seq(|y|, i requires 0 <= i < |y| =>
      seq(|y|, j requires 0 <= j < |y| =>
        if i <= j then Upper(z, y, sqrt, i, j) else Upper(z, y, sqrt, j, i)))
  }

  /** Every diagonal entry of B is at least its gamma draw. */
  lemma DiagonalAtLeastGamma(z: Matrix, y: Vector, sqrt: real -> real)
    requires Draws(z, y)
    ensures forall j :: 0 <= j < |y| ==> Bartlett(z, y, sqrt)[j][j] >= y[j]
  {
    forall j | 0 <= j < |y|
      ensures Bartlett(z, y, sqrt)[j][j] >= y[j]
    {
      SquaresNonNegative(z, j, j);
    }
  }

  /** Copies column `a` and column `b` of the first `n` rows of z into two
      vectors, as the source does before each inner product. */
  method GatherColumns(z: Matrix, a: nat, b: nat, n: nat) returns (u: Vector, v: Vector)
    requires HasColumns(z, a, b, n)
    ensures |u| == n && |v| == n
    ensures forall k :: 0 <= k < n ==> u[k] == z[k][a] && v[k] == z[k][b]
  {
    u := seq(n, _ => 0.0);
    v := seq(n, _ => 0.0);
    var k := 0;
    while k < n
      invariant 0 <= k <= n
      invariant |u| == n && |v| == n
      invariant forall m :: 0 <= m < k ==> u[m] == z[m][a] && v[m] == z[m][b]
    {
      u := u[k := z[k][a]];
      v := v[k := z[k][b]];
      k := k + 1;
    }
  }

  /** Fills the diagonal below (0, 0): B[j][j] = y[j] + inner product of the
      normals above it in column j; no off-diagonal entry changes. */
  method FillDiagonal(B0: Matrix, z: Matrix, y: Vector, sqrt: real -> real) returns (B: Matrix)
    requires Draws(z, y) && IsSquare(B0, |y|)
    requires B0[0][0] == y[0]
    ensures IsSquare(B, |y|)
    ensures forall d :: 0 <= d < |y| ==> B[d][d] == Upper(z, y, sqrt, d, d)
    ensures forall a, b :: 0 <= a < |y| && 0 <= b < |y| && a != b ==> B[a][b] == B0[a][b]
  {
    B := B0;
    var j := 1;
    while j < |y|
      invariant 1 <= j <= |y|
      invariant IsSquare(B, |y|)
      invariant forall d :: 0 <= d < j ==> B[d][d] == Upper(z, y, sqrt, d, d)
      invariant forall a, b :: 0 <= a < |y| && 0 <= b < |y| && a != b ==> B[a][b] == B0[a][b]
    {
      var zz, _ := GatherColumns(z, j, j, j);
      DotOfGatheredColumns(z, j, j, j, zz, zz);
      B := SetEntry(B, j, j, y[j] + Dot(zz, zz));
      j := j + 1;
    }
  }

  /** Fills the first row from the normals scaled by sqrt(y[0]) and mirrors each
      entry into the first column; no other entry changes. */
  method FillBorder(B0: Matrix, z: Matrix, y: Vector, sqrt: real -> real) returns (B: Matrix)
    requires Draws(z, y) && IsSquare(B0, |y|)
    ensures IsSquare(B, |y|)
    ensures forall c :: 1 <= c < |y| ==> B[0][c] == Upper(z, y, sqrt, 0, c) && B[c][0] == B[0][c]
    ensures forall a, b :: 0 <= a < |y| && 0 <= b < |y| && (a == 0 <==> b == 0) ==> B[a][b] == B0[a][b]
  {
    B := B0;
    var j := 1;
    while j < |y|
      invariant 1 <= j <= |y|
      invariant IsSquare(B, |y|)
      invariant forall c :: 1 <= c < j ==> B[0][c] == Upper(z, y, sqrt, 0, c) && B[c][0] == B[0][c]
      invariant forall a, b :: 0 <= a < |y| && 0 <= b < |y| && (a == 0 <==> b == 0) ==> B[a][b] == B0[a][b]
    {
      B := SetEntry(B, 0, j, z[0][j] * sqrt(y[0]));
      B := SetEntry(B, j, 0, B[0][j]);
      j := j + 1;
    }
  }

  /** Fills the interior entries (i, j), 1 ≤ i < j, of column j and mirrors each
      into row j; no other entry changes. */
  method FillColumn(B0: Matrix, z: Matrix, y: Vector, sqrt: real -> real, j: nat) returns (B: Matrix)
    requires Draws(z, y) && IsSquare(B0, |y|)
    requires 2 <= j < |y|
    ensures IsSquare(B, |y|)
    ensures forall a :: 1 <= a < j ==> B[a][j] == Upper(z, y, sqrt, a, j) && B[j][a] == B[a][j]
    ensures forall a, b :: 0 <= a < |y| && 0 <= b < |y| && !(1 <= a < j && b == j) && !(1 <= b < j && a == j) ==>
              B[a][b] == B0[a][b]
  {
    B := B0;
    var i := 1;
    while i <= j - 1
      invariant 1 <= i <= j
      invariant IsSquare(B, |y|)
      invariant forall a :: 1 <= a < i ==> B[a][j] == Upper(z, y, sqrt, a, j) && B[j][a] == B[a][j]
      invariant forall a, b :: 0 <= a < |y| && 0 <= b < |y| && !(1 <= a < i && b == j) && !(1 <= b < i && a == j) ==>
                  B[a][b] == B0[a][b]
    {
      var zki, zkj := GatherColumns(z, i, j, i);
      DotOfGatheredColumns(z, i, j, i, zki, zkj);
      B := SetEntry(B, i, j, z[i][j] * sqrt(y[i]) + Dot(zki, zkj));
      B := SetEntry(B, j, i, B[i][j]);
      i := i + 1;
    }
  }

  /** Fills every interior entry above the diagonal, column by column from
      column 2, with its mirror; the diagonal and the first row and column do
      not change. */
  method FillInterior(B0: Matrix, z: Matrix, y: Vector, sqrt: real -> real) returns (B: Matrix)
    requires Draws(z, y) && IsSquare(B0, |y|)
    ensures IsSquare(B, |y|)
    ensures forall a, b :: 1 <= a < b < |y| ==> B[a][b] == Upper(z, y, sqrt, a, b) && B[b][a] == B[a][b]
    ensures forall a, b :: 0 <= a < |y| && 0 <= b < |y| && (a == 0 || b == 0 || a == b) ==> B[a][b] == B0[a][b]
  {
    B := B0;
    var j := 2;
    while j < |y|
      invariant 2 <= j
      invariant j <= |y| || |y| < 2
      invariant IsSquare(B, |y|)
      invariant forall a, b :: 1 <= a < b < j && b < |y| ==> B[a][b] == Upper(z, y, sqrt, a, b) && B[b][a] == B[a][b]
      invariant forall a, b :: 0 <= a < |y| && 0 <= b < |y| && (a == 0 || b == 0 || a == b) ==> B[a][b] == B0[a][b]
    {
      B := FillColumn(B, z, y, sqrt, j);
      j := j + 1;
    }
  }

  /** A matrix whose diagonal, first row and interior upper triangle carry the
      `Upper` formulas and whose lower triangle mirrors them is the Bartlett matrix. */
  lemma AssembledIsBartlett(B: Matrix, z: Matrix, y: Vector, sqrt: real -> real)
    requires Draws(z, y) && IsSquare(B, |y|)
    requires forall d :: 0 <= d < |y| ==> B[d][d] == Upper(z, y, sqrt, d, d)
    requires forall c :: 1 <= c < |y| ==> B[0][c] == Upper(z, y, sqrt, 0, c) && B[c][0] == B[0][c]
    requires forall a, b :: 1 <= a < b < |y| ==> B[a][b] == Upper(z, y, sqrt, a, b) && B[b][a] == B[a][b]
    ensures B == Bartlett(z, y, sqrt)
  {
    var R := Bartlett(z, y, sqrt);
    forall a | 0 <= a < |y|
      ensures B[a] == R[a]
    {
      forall b | 0 <= b < |y|
        ensures B[a][b] == R[a][b]
      {
        if 1 <= b < a {
          assert B[a][b] == B[b][a];
        }
      }
    }
  }

  /** Assembles B as the source does: B[0][0] = y[0], then the rest of the
      diagonal, then the first row with its mirror (only when p > 1), then the
      interior with mirrors (only when p > 2). */
  method BuildBartlett(z: Matrix, y: Vector, sqrt: real -> real) returns (B: Matrix)
    requires Draws(z, y)
    ensures B == Bartlett(z, y, sqrt)
  {
    var p := |y|;
    B := Zeros(p, p);
    B := SetEntry(B, 0, 0, y[0]);
    if p > 1 {
      B := FillDiagonal(B, z, y, sqrt);
      B := FillBorder(B, z, y, sqrt);
    }
    if p > 2 {
      B := FillInterior(B, z, y, sqrt);
    }
    AssembledIsBartlett(B, z, y, sqrt);
  }

  /** What `wishart(scale, df)` returns for the given draws: no sample without a
      Cholesky factor A, otherwise Aᵀ·B·A with B the Bartlett matrix of the
      draws, the gamma shapes taken from `df`. */
  function Spec(scale: Matrix, df: real, la: Ops, rng: Rng): Outcome
  {
    match la.cholesky(scale)
    case None => Undefined
    case Some(A) =>
      var p := |scale|;
      if p == 0 then Fault
      else Drawn(la.mult(la.mult(la.transpose(A), Bartlett(Normals(p, rng), Gammas(p, df, rng), la.sqrt)), A))
  }

  method Sample(scale: Matrix, df: real, la: Ops, rng: Rng) returns (w: Outcome)
    ensures w.Undefined? <==> la.cholesky(scale).None?
    ensures w.Fault? <==> la.cholesky(scale).Some? && |scale| == 0
    ensures w == Spec(scale, df, la, rng)
  {
    var chol := la.cholesky(scale);
    if chol.None? {
      return Undefined;
    }
    var A := chol.value;
    var p := |scale|;
    var z := Normals(p, rng);
    var y := Gammas(p, df, rng);
    if p == 0 {
      return Fault;
    }
    var B := BuildBartlett(z, y, la.sqrt);
    w := Drawn(la.mult(la.mult(la.transpose(A), B), A));
  }
}
