/** The hyperparameter step for one block (users or items): the posterior
    scale and degrees of freedom, a Wishart draw for the precision `alpha` that
    keeps the previous precision when no sample exists, and a normal draw for the
    mean `mu` that keeps the previous mean when its covariance has no Cholesky
    factor. */
module Hyper {
  import opened Options
  import opened Matrices
  import opened Library
  import Wishart

  /** Prior pseudo-count, the same for both blocks. */
  const B0: nat := 2

  /** Prior Wishart scale WI, degrees of freedom df and mean mu0 of one block. */
  datatype Prior = Prior(WI: Matrix, df: nat, mu0: Vector)

  /** The prior both blocks use: WI the K×K identity, df = K, mu0 = 0. */
  function DefaultPrior(K: nat): Prior
  {
    Prior(Identity(K), K, seq(K, _ => 0.0))
  }

  /** Current mean vector and precision matrix of one block. */
  datatype Params = Params(mu: Vector, alpha: Matrix)

  /** Draws of one hyperparameter step: those of the Wishart call, and the
      standard-normal draw `normal(f)` for coordinate f of the mean. */
  datatype Rng = Rng(wishart: Wishart.Rng, normal: nat -> real)

  /** `Fault` is the exception the Wishart call raises on a 0×0 scale. */
  datatype Outcome = Sampled(params: Params) | Fault

  /** x̄: the mean of each of the K columns of X. */
  function ColumnMeans(X: Matrix, K: nat, la: Ops): (m: Vector)
    requires IsMatrix(X, |X|, K)
    ensures |m| == K
  {
    seq(K, f requires 0 <= f < K => la.mean(Column(X, f)))
  }

  /** Hyperparameters before the first iteration: the column means of the
      initial factors and the inverse of their covariance. */
  function Initial(X: Matrix, K: nat, la: Ops): Params
    requires IsMatrix(X, |X|, K)
  {
    Params(ColumnMeans(X, K, la), la.inv(la.cov(X)))
  }

  /** K standard-normal draws. */
  function Normal(K: nat, normal: nat -> real): (z: Vector)
    ensures |z| == K
  {
    seq(K, f requires 0 <= f < K => normal(f))
  }

  /** Posterior Wishart scale for N = |X| entities:
      ((WI⁻¹ + N·S̄ + (N·b0/(b0+N))·(mu0−x̄)(mu0−x̄)ᵀ)⁻¹ symmetrised. */
  function PosteriorScale(X: Matrix, K: nat, pr: Prior, la: Ops): Matrix
    requires IsMatrix(X, |X|, K)
  {
    var N := |X|;
    var d := la.subVec(pr.mu0, ColumnMeans(X, K, la));
    var e := la.scale(la.outer(d, d), (N * B0) as real / (B0 + N) as real);
    var W := la.inv(la.add(la.add(la.inv(pr.WI), la.scale(la.cov(X), N as real)), e));
    la.scale(la.add(W, la.transpose(W)), 0.5)
  }

  /** Posterior degrees of freedom: the prior's plus the number of entities. */
  function PosteriorDf(pr: Prior, N: nat): real
  {
    (pr.df + N) as real
  }

  /** Posterior location of the mean: (b0·mu0 + N·x̄) / (b0 + N). */
  function PosteriorMean(X: Matrix, K: nat, pr: Prior, la: Ops): Vector
    requires IsMatrix(X, |X|, K)
  {
    var N := |X|;
    la.scaleVec(la.addVec(la.scaleVec(pr.mu0, B0 as real), la.scaleVec(ColumnMeans(X, K, la), N as real)),
                1.0 / (B0 + N) as real)
  }

  /** Covariance of the mean given precision alpha: (alpha·(b0 + N))⁻¹. */
  function MeanCovariance(alpha: Matrix, N: nat, la: Ops): Matrix
  {
    la.inv(la.scale(alpha, (B0 + N) as real))
  }

  /** One hyperparameter step for the block whose factor matrix is X. */
  method Sample(current: Params, X: Matrix, K: nat, pr: Prior, la: Ops, rng: Rng) returns (out: Outcome)
    requires IsMatrix(X, |X|, K)
    ensures var w := Wishart.Spec(PosteriorScale(X, K, pr, la), PosteriorDf(pr, |X|), la, rng.wishart);
            (out.Fault? <==> w.Fault?) &&
            (w.Undefined? ==> out.Sampled? && out.params.alpha == current.alpha) &&
            (w.Drawn? ==> out.Sampled? && out.params.alpha == w.sample)
    ensures out.Sampled? && la.cholesky(MeanCovariance(out.params.alpha, |X|, la)).None? ==>
              out.params.mu == current.mu
    ensures out.Sampled? && la.cholesky(MeanCovariance(out.params.alpha, |X|, la)).Some? ==>
              var L := la.cholesky(MeanCovariance(out.params.alpha, |X|, la)).value;
              out.params.mu == la.addVec(la.multVec(la.transpose(L), Normal(K, rng.normal)), PosteriorMean(X, K, pr, la))
  {
    var N := |X|;
    var scale := PosteriorScale(X, K, pr, la);
    var dfPost := PosteriorDf(pr, N);
    var w := Wishart.Sample(scale, dfPost, la, rng.wishart);
    if w.Fault? {
      return Fault;
    }
    var alpha := current.alpha;
    if w.Drawn? {
      alpha := w.sample;
    }
    var muTemp := PosteriorMean(X, K, pr, la);
    var lam := la.cholesky(MeanCovariance(alpha, N, la));
    var mu := current.mu;
    if lam.Some? {
      var L := la.transpose(lam.value);
      mu := la.addVec(la.multVec(L, Normal(K, rng.normal)), muTemp);
    }
    out := Sampled(Params(mu, alpha));
  }
}
