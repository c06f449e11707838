/** The factor Gibbs updater: for each entity of a block, gather the opposite
    block's factor rows and the centred ratings it participates in, form the
    conditional posterior, and overwrite the entity's factor row with a draw
    from it, unless the entity has no ratings or the posterior covariance has
    no Cholesky factor. */
module Gibbs {
  import opened Options
  import opened Matrices
  import opened Library
  import opened Ratings
  import opened Hyper

  /** Observation-noise precision beta. */
  const BETA: real := 2.0

  /** The two factor matrices: P (users × K) and Q (items × K). */
  datatype Factors = Factors(P: Matrix, Q: Matrix)

  /** The matrix a block owns and writes, and the one it only reads. */
  function Own(st: Factors, side: Side): Matrix
  {
    if side == Users then st.P else st.Q
  }

  function Opposite(st: Factors, side: Side): Matrix
  {
    if side == Users then st.Q else st.P
  }

  /** P is numUsers × K and Q is numItems × K. */
  predicate Shaped(st: Factors, R: Ratings, K: nat)
  {
    IsMatrix(st.P, R.numRows, K) && IsMatrix(st.Q, R.numCols, K)
  }

  /** The source's compaction loop `ff[ff_idx] = ff[t]`: it copies every index
      onto itself, so the list is unchanged and its count is the full length. */
  method Compact(ff: seq<nat>) returns (ff': seq<nat>, n: nat)
    ensures ff' == ff && n == |ff|
  {
    ff' := ff;
    n := 0;
    var t := 0;
    while t < |ff'|
      invariant 0 <= t <= |ff'|
      invariant n == t
      invariant ff' == ff
    {
      ff' := ff'[n := ff'[t]];
      n := n + 1;
      t := t + 1;
    }
  }

  /** Copies the first n indexed rows of `opp` into MM and the centred
      ratings into rr, one index at a time. */
  method Gather(R: Ratings, side: Side, e: nat, ff: seq<nat>, n: nat, opp: Matrix, K: nat, globalMean: real)
    returns (MM: Matrix, rr: Vector)
    requires n <= |ff|
    requires IsMatrix(opp, |opp|, K)
    requires forall t :: 0 <= t < n ==> ff[t] < |opp|
    ensures IsMatrix(MM, n, K) && |rr| == n
    ensures forall t :: 0 <= t < n ==> MM[t] == opp[ff[t]] && rr[t] == Rating(R.cells, side, e, ff[t]) - globalMean
  {
    MM := Zeros(n, K);
    rr := seq(n, _ => 0.0);
    var idx := 0;
    var t := 0;
    while t < n
      invariant 0 <= t <= n && idx == t
      invariant IsMatrix(MM, n, K) && |rr| == n
      invariant forall s :: 0 <= s < t ==> MM[s] == opp[ff[s]] && rr[s] == Rating(R.cells, side, e, ff[s]) - globalMean
    {
      var i := ff[t];
      rr := rr[idx := Rating(R.cells, side, e, i) - globalMean];
      var f := 0;
      while f < K
        invariant 0 <= f <= K
        invariant IsMatrix(MM, n, K)
        invariant forall s :: 0 <= s < t ==> MM[s] == opp[ff[s]]
        invariant forall g :: 0 <= g < f ==> MM[idx][g] == opp[i][g]
      {
        MM := SetEntry(MM, idx, f, opp[i][f]);
        f := f + 1;
      }
      assert MM[idx] == opp[i];
      idx := idx + 1;
      t := t + 1;
    }
  }

  /** The opposite block's factor rows of the entities e is linked to. */
  function Design(R: Ratings, side: Side, e: nat, opp: Matrix): Matrix
    requires Valid(R) && |opp| == Count(R, side.Flip())
  {
    IndexInRange(R, side, e);
    var ff := Index(R.cells, side, e);
    seq(|ff|, t requires 0 <= t < |ff| => opp[ff[t]])
  }

  /** The ratings e takes part in, centred on the global mean. */
  function Residuals(R: Ratings, side: Side, e: nat, globalMean: real): Vector
  {
    var ff := Index(R.cells, side, e);
    seq(|ff|, t requires 0 <= t < |ff| => Rating(R.cells, side, e, ff[t]) - globalMean)
  }

  /** Posterior covariance (alpha + beta·MMᵀ·MM)⁻¹. */
  function Covariance(MM: Matrix, hyp: Params, la: Ops): Matrix
  {
    la.inv(la.add(hyp.alpha, la.scale(la.mult(la.transpose(MM), MM), BETA)))
  }

  /** Posterior mean covar·(beta·MMᵀ·rr + alpha·mu). */
  function RowMean(MM: Matrix, rr: Vector, covar: Matrix, hyp: Params, la: Ops): Vector
  {
    la.multVec(covar, la.addVec(la.scaleVec(la.multVec(la.transpose(MM), rr), BETA), la.multVec(hyp.alpha, hyp.mu)))
  }

  /** The K standard-normal draws for entity e. */
  function RowNormal(K: nat, e: nat, normal: (nat, nat) -> real): (z: Vector)
    ensures |z| == K
  {
    seq(K, f requires 0 <= f < K => normal(e, f))
  }

  /** The factor row the update writes for entity e, or None when it keeps the
      old row: e has no ratings, or the posterior covariance has no Cholesky
      factor L.  Otherwise the row is Lᵀ·z + mean, read entry by entry. */
  function NewRow(R: Ratings, side: Side, e: nat, opp: Matrix, hyp: Params, K: nat, globalMean: real,
                  la: Ops, normal: (nat, nat) -> real): (row: Option<Vector>)
    requires Valid(R) && |opp| == Count(R, side.Flip())
    ensures row.Some? ==> |row.value| == K
  {
    if |Index(R.cells, side, e)| == 0 then None
    else
      var MM := Design(R, side, e, opp);
      var covar := Covariance(MM, hyp, la);
      match la.cholesky(covar)
      case None => None
      case Some(L) =>
        var w := la.addVec(la.multVec(la.transpose(L), RowNormal(K, e, normal)),
                           RowMean(MM, Residuals(R, side, e, globalMean), covar, hyp, la));
        Some(seq(K, f requires 0 <= f < K => la.at(w, f)))
  }

  /** Updates the factor row of entity e of `side` in F, reading only `opp`. */
  method UpdateEntity(F: Matrix, opp: Matrix, R: Ratings, side: Side, e: nat, hyp: Params, K: nat,
                      globalMean: real, la: Ops, normal: (nat, nat) -> real) returns (F': Matrix)
    requires Valid(R) && |opp| == Count(R, side.Flip()) && IsMatrix(opp, |opp|, K)
    requires e < |F| && IsMatrix(F, |F|, K)
    ensures IsMatrix(F', |F|, K)
    ensures |Index(R.cells, side, e)| == 0 ==> F' == F
    ensures |Index(R.cells, side, e)| > 0 && la.cholesky(Covariance(Design(R, side, e, opp), hyp, la)).None? ==> F' == F
    ensures F' == F[e := NewRow(R, side, e, opp, hyp, K, globalMean, la, normal).GetOr(F[e])]
  {
    var ff := Index(R.cells, side, e);
    if |ff| == 0 {
      return F;
    }
    var n;
    ff, n := Compact(ff);
    IndexInRange(R, side, e);
    var MM, rr := Gather(R, side, e, ff, n, opp, K, globalMean);
    assert MM == Design(R, side, e, opp);
    assert rr == Residuals(R, side, e, globalMean);
    var covar := Covariance(MM, hyp, la);
    var mean := RowMean(MM, rr, covar, hyp, la);
    var lam := la.cholesky(covar);
    if lam.None? {
      return F;
    }
    var L := la.transpose(lam.value);
    var w := la.addVec(la.multVec(L, RowNormal(K, e, normal)), mean);
    F' := F;
    var f := 0;
    while f < K
      invariant 0 <= f <= K
      invariant IsMatrix(F', |F|, K)
      invariant forall r :: 0 <= r < |F| && r != e ==> F'[r] == F[r]
      invariant forall g :: 0 <= g < f ==> F'[e][g] == la.at(w, g)
    {
      F' := SetEntry(F', e, f, la.at(w, f));
      f := f + 1;
    }
    assert F'[e] == NewRow(R, side, e, opp, hyp, K, globalMean, la, normal).value;
  }

  /** One pass over every entity of `side`, in index order: each row becomes
      its new draw or keeps its value, and the opposite matrix is not touched. */
  method Pass(st: Factors, side: Side, R: Ratings, hyp: Params, K: nat, globalMean: real, la: Ops,
              normal: (nat, nat) -> real) returns (st': Factors)
    requires Valid(R) && Shaped(st, R, K)
    ensures Shaped(st', R, K)
    ensures Opposite(st', side) == Opposite(st, side)
    ensures forall e :: 0 <= e < Count(R, side) ==>
              Own(st', side)[e] == NewRow(R, side, e, Opposite(st, side), hyp, K, globalMean, la, normal).GetOr(Own(st, side)[e])
  {
    var opp := Opposite(st, side);
    var F := Own(st, side);
    var e := 0;
    while e < |F|
      invariant 0 <= e <= |F| == Count(R, side)
      invariant IsMatrix(F, Count(R, side), K)
      invariant forall d :: 0 <= d < e ==> F[d] == NewRow(R, side, d, opp, hyp, K, globalMean, la, normal).GetOr(Own(st, side)[d])
      invariant forall d :: e <= d < |F| ==> F[d] == Own(st, side)[d]
    {
      F := UpdateEntity(F, opp, R, side, e, hyp, K, globalMean, la, normal);
      e := e + 1;
    }
    st' := if side == Users then Factors(F, st.Q) else Factors(st.P, F);
  }
}
