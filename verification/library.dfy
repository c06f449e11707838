/** The numeric routines the sampler calls but does not define: the dense
    linear-algebra library (`DenseMatrix`/`DenseVector`) and `Math.sqrt`.  Their
    code is not part of this model, so each one is an arbitrary total function
    supplied by the caller; every property proved here holds whatever they
    compute. */
module Library {
  import opened Options
  import opened Matrices

  datatype Ops = Ops(
    /** Lower-triangular Cholesky factor, or None when the matrix is not positive-definite. */
    cholesky: Matrix -> Option<Matrix>,
    inv: Matrix -> Matrix,
    transpose: Matrix -> Matrix,
    mult: (Matrix, Matrix) -> Matrix,
    multVec: (Matrix, Vector) -> Vector,
    add: (Matrix, Matrix) -> Matrix,
    addVec: (Vector, Vector) -> Vector,
    subVec: (Vector, Vector) -> Vector,
    scale: (Matrix, real) -> Matrix,
    scaleVec: (Vector, real) -> Vector,
    outer: (Vector, Vector) -> Matrix,
    /** Sample covariance of the rows of a matrix. */
    cov: Matrix -> Matrix,
    /** Mean of a vector's entries. */
    mean: Vector -> real,
    /** Entry `f` of a vector the library computed. */
    at: (Vector, nat) -> real,
    sqrt: real -> real)
}
