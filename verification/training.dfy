/** The training loop of BPMF: hyperparameters initialised from the starting
    factors, then for iter = 1 .. maxIters - 1 one Gibbs sweep (user and item
    hyperparameters, then every user row, then every item row against the new
    user rows), the training loss, and a convergence test that may stop the
    loop early.  An exception raised inside the loop ends training with the
    factors as they stand. */
module Training {
  import opened Options
  import opened Matrices
  import opened Library
  import opened Ratings
  import Wishart
  import Hyper
  import opened Gibbs
  import opened Loss

  /** Number of latent factors K, the iteration bound and the global mean
      rating the factor updates centre on. */
  datatype Config = Config(K: nat, maxIters: int, globalMean: real)

  /** What the sampler carries from one iteration to the next. */
  datatype Chain = Chain(factors: Factors, user: Hyper.Params, item: Hyper.Params)

  /** Every draw of one iteration: the two hyperparameter steps and the
      standard normals of each user row and each item row. */
  datatype IterRng = IterRng(user: Hyper.Rng, item: Hyper.Rng,
                             userRows: (nat, nat) -> real, itemRows: (nat, nat) -> real)

  /** An iteration either completes with a training loss or raises. */
  datatype StepOutcome = Completed(chain: Chain, loss: real) | Aborted

  /** The end of training: final factors, the loss of each completed
      iteration, and whether an exception ended it. */
  datatype Run = Run(factors: Factors, losses: seq<real>, aborted: bool)

  /** The chain before the first iteration: the starting factors and, for
      each block, the column means and inverse covariance of its factors. */
  function Start(P0: Matrix, Q0: Matrix, K: nat, la: Ops): Chain
    requires IsMatrix(P0, |P0|, K) && IsMatrix(Q0, |Q0|, K)
  {
    Chain(Factors(P0, Q0), Hyper.Initial(P0, K, la), Hyper.Initial(Q0, K, la))
  }

  /** The Wishart draw of a hyperparameter step for the block with factors X
      under the default prior. */
  function Draw(X: Matrix, K: nat, la: Ops, rng: Hyper.Rng): Wishart.Outcome
    requires IsMatrix(X, |X|, K)
  {
    var pr := Hyper.DefaultPrior(K);
    Wishart.Spec(Hyper.PosteriorScale(X, K, pr, la), Hyper.PosteriorDf(pr, |X|), la, rng.wishart)
  }

  /** The precision after a completed hyperparameter step is the Wishart
      draw, or the previous precision when no sample exists. */
  predicate AlphaFollows(before: Hyper.Params, after: Hyper.Params, X: Matrix, K: nat, la: Ops, rng: Hyper.Rng)
    requires IsMatrix(X, |X|, K)
  {
    var w := Draw(X, K, la, rng);
    (w.Undefined? ==> after.alpha == before.alpha) && (w.Drawn? ==> after.alpha == w.sample)
  }

  /** The mean after a completed hyperparameter step: Lᵀ·z plus the posterior
      location when the covariance (alpha·(b0 + N))⁻¹ of the new precision has
      a Cholesky factor L, and the previous mean otherwise. */
  predicate MuFollows(before: Hyper.Params, after: Hyper.Params, X: Matrix, K: nat, la: Ops, rng: Hyper.Rng)
    requires IsMatrix(X, |X|, K)
  {
    match la.cholesky(Hyper.MeanCovariance(after.alpha, |X|, la))
    case None => after.mu == before.mu
    case Some(L) =>
      after.mu == la.addVec(la.multVec(la.transpose(L), Hyper.Normal(K, rng.normal)),
                            Hyper.PosteriorMean(X, K, Hyper.DefaultPrior(K), la))
  }

  /** Whether the Wishart call of the block with factors X raises: its
      posterior scale has a Cholesky factor but no rows.  No draw takes part. */
  predicate ScaleFaults(X: Matrix, K: nat, la: Ops)
    requires IsMatrix(X, |X|, K)
  {
    var scale := Hyper.PosteriorScale(X, K, Hyper.DefaultPrior(K), la);
    la.cholesky(scale).Some? && |scale| == 0
  }

  /** Whether the hyperparameter step of either block raises in the iteration
      that starts from `ch`. */
  predicate Faults(ch: Chain, R: Ratings, cfg: Config, la: Ops)
    requires Shaped(ch.factors, R, cfg.K)
  {
    ScaleFaults(ch.factors.P, cfg.K, la) || ScaleFaults(ch.factors.Q, cfg.K, la)
  }

  /** Whether entity e of `side` takes part in no stored rating. */
  predicate Unrated(R: Ratings, side: Side, e: nat)
  {
    |Index(R.cells, side, e)| == 0
  }

  /** The factors after a sweep: each user row redrawn against the old item
      factors, then each item row against the new user factors, every row
      kept where the update writes nothing. */
  predicate Swept(before: Factors, after: Factors, R: Ratings, cfg: Config, user: Hyper.Params, item: Hyper.Params,
                  la: Ops, rng: IterRng)
    requires Valid(R) && Shaped(before, R, cfg.K) && Shaped(after, R, cfg.K)
  {
    (forall u :: 0 <= u < R.numRows ==>
       after.P[u] == NewRow(R, Users, u, before.Q, user, cfg.K, cfg.globalMean, la, rng.userRows).GetOr(before.P[u])) &&
    (forall i :: 0 <= i < R.numCols ==>
       after.Q[i] == NewRow(R, Items, i, after.P, item, cfg.K, cfg.globalMean, la, rng.itemRows).GetOr(before.Q[i]))
  }

  /** `ch'` and `loss` are what a completed iteration from `ch` under the
      draws `rng` yields: neither Wishart call raised, both blocks' precision and
      mean follow their hyperparameter step, the factors follow the sweep under
      the new hyperparameters, and `loss` is the loss of the new factors. */
  predicate Step(ch: Chain, ch': Chain, loss: real, R: Ratings, cfg: Config, la: Ops, predict: Predictor, rng: IterRng)
    requires Valid(R)
  {
    Shaped(ch.factors, R, cfg.K) && Shaped(ch'.factors, R, cfg.K) &&
    !Faults(ch, R, cfg, la) &&
    AlphaFollows(ch.user, ch'.user, ch.factors.P, cfg.K, la, rng.user) &&
    MuFollows(ch.user, ch'.user, ch.factors.P, cfg.K, la, rng.user) &&
    AlphaFollows(ch.item, ch'.item, ch.factors.Q, cfg.K, la, rng.item) &&
    MuFollows(ch.item, ch'.item, ch.factors.Q, cfg.K, la, rng.item) &&
    Swept(ch.factors, ch'.factors, R, cfg, ch'.user, ch'.item, la, rng) &&
    loss == 0.5 * SquaredError(R.cells, ch'.factors.P, ch'.factors.Q, predict)
  }

  /** The Gibbs sweep of one iteration under fixed hyperparameters: every user
      row, then every item row, then the training loss of the new factors. */
  method Sweep(before: Factors, R: Ratings, cfg: Config, user: Hyper.Params, item: Hyper.Params,
               la: Ops, predict: Predictor, rng: IterRng) returns (after: Factors, loss: real)
    requires Valid(R) && Shaped(before, R, cfg.K)
    ensures Shaped(after, R, cfg.K)
    ensures Swept(before, after, R, cfg, user, item, la, rng)
    ensures forall u :: 0 <= u < R.numRows && Unrated(R, Users, u) ==> after.P[u] == before.P[u]
    ensures forall i :: 0 <= i < R.numCols && Unrated(R, Items, i) ==> after.Q[i] == before.Q[i]
    ensures loss == 0.5 * SquaredError(R.cells, after.P, after.Q, predict) && loss >= 0.0
  {
    var afterUsers := Pass(before, Users, R, user, cfg.K, cfg.globalMean, la, rng.userRows);
    after := Pass(afterUsers, Items, R, item, cfg.K, cfg.globalMean, la, rng.itemRows);
    var errs;
    errs, loss := Evaluate(R, after.P, after.Q, predict);
  }

  /** One iteration of the loop body. */
  method Iterate(ch: Chain, R: Ratings, cfg: Config, la: Ops, predict: Predictor, rng: IterRng)
    returns (out: StepOutcome)
    requires Valid(R) && Shaped(ch.factors, R, cfg.K)
    ensures out.Aborted? <==> Faults(ch, R, cfg, la)
    ensures out.Completed? ==> Step(ch, out.chain, out.loss, R, cfg, la, predict, rng)
    ensures out.Completed? ==>
              (forall u :: 0 <= u < R.numRows && Unrated(R, Users, u) ==> out.chain.factors.P[u] == ch.factors.P[u]) &&
              (forall i :: 0 <= i < R.numCols && Unrated(R, Items, i) ==> out.chain.factors.Q[i] == ch.factors.Q[i])
    ensures out.Completed? ==> out.loss >= 0.0
  {
    var prior := Hyper.DefaultPrior(cfg.K);
    var user := Hyper.Sample(ch.user, ch.factors.P, cfg.K, prior, la, rng.user);
    if user.Fault? {
      return Aborted;
    }
    var item := Hyper.Sample(ch.item, ch.factors.Q, cfg.K, prior, la, rng.item);
    if item.Fault? {
      return Aborted;
    }
    var factors, loss := Sweep(ch.factors, R, cfg, user.params, item.params, la, predict, rng);
    out := Completed(Chain(factors, user.params, item.params), loss);
  }

  /** The convergence test rejected the history after each of the first n
      iterations. */
  predicate Rejected(converged: (nat, seq<real>) -> bool, losses: seq<real>, n: nat)
    requires n <= |losses|
  {
    forall k :: 1 <= k <= n ==> !converged(k, losses[..k])
  }

  /** Appending a loss keeps the earlier prefixes of the history, so an
      iteration the convergence test rejected stays rejected. */
  lemma ExtendHistory(converged: (nat, seq<real>) -> bool, losses: seq<real>, x: real)
    requires Rejected(converged, losses, |losses|)
    ensures Rejected(converged, losses + [x], |losses|)
  {
    forall k | 1 <= k <= |losses|
      ensures !converged(k, (losses + [x])[..k])
    {
      assert (losses + [x])[..k] == losses[..k];
    }
  }

  /** A rejected latest iteration extends the rejected prefix to the whole
      history. */
  lemma RejectLatest(converged: (nat, seq<real>) -> bool, losses: seq<real>)
    requires |losses| > 0 && Rejected(converged, losses, |losses| - 1)
    requires !converged(|losses|, losses)
    ensures Rejected(converged, losses, |losses|)
  {
    assert losses[..|losses|] == losses;
  }

  /** What holds after every completed iteration: the factors keep their
      shapes, every recorded loss is non-negative and the last one is the loss
      of the current factors, and entities without ratings keep their
      starting rows. */
  predicate Progress(R: Ratings, cfg: Config, P0: Matrix, Q0: Matrix, predict: Predictor, ch: Chain, losses: seq<real>)
    requires IsMatrix(P0, R.numRows, cfg.K) && IsMatrix(Q0, R.numCols, cfg.K)
  {
    Shaped(ch.factors, R, cfg.K) &&
    (forall k :: 0 <= k < |losses| ==> losses[k] >= 0.0) &&
    (|losses| > 0 ==> losses[|losses| - 1] == 0.5 * SquaredError(R.cells, ch.factors.P, ch.factors.Q, predict)) &&
    (forall u :: 0 <= u < R.numRows && Unrated(R, Users, u) ==> ch.factors.P[u] == P0[u]) &&
    (forall i :: 0 <= i < R.numCols && Unrated(R, Items, i) ==> ch.factors.Q[i] == Q0[i])
  }

  /** A completed iteration that keeps the shapes and the unrated rows and
      reports the loss of its factors preserves `Progress`. */
  lemma ProgressStep(R: Ratings, cfg: Config, P0: Matrix, Q0: Matrix, predict: Predictor,
                     ch: Chain, losses: seq<real>, ch': Chain, loss: real)
    requires IsMatrix(P0, R.numRows, cfg.K) && IsMatrix(Q0, R.numCols, cfg.K)
    requires Progress(R, cfg, P0, Q0, predict, ch, losses)
    requires Shaped(ch'.factors, R, cfg.K)
    requires (forall u :: 0 <= u < R.numRows && Unrated(R, Users, u) ==> ch'.factors.P[u] == ch.factors.P[u]) &&
             (forall i :: 0 <= i < R.numCols && Unrated(R, Items, i) ==> ch'.factors.Q[i] == ch.factors.Q[i])
    requires loss == 0.5 * SquaredError(R.cells, ch'.factors.P, ch'.factors.Q, predict) && loss >= 0.0
    ensures Progress(R, cfg, P0, Q0, predict, ch', losses + [loss])
  {
  }

  /** `chains[k + 1]` and `losses[k]` are what iteration k + 1 yields from
      `chains[k]` under its draws `rng(k + 1)`. */
  predicate Trace(chains: seq<Chain>, losses: seq<real>, R: Ratings, cfg: Config, la: Ops, predict: Predictor,
                  rng: nat -> IterRng)
    requires Valid(R)
  {
    |chains| == |losses| + 1 &&
    forall k :: 0 <= k < |losses| ==> Step(chains[k], chains[k + 1], losses[k], R, cfg, la, predict, rng(k + 1))
  }

  /** A completed iteration from the last chain extends the trace. */
  lemma ExtendTrace(chains: seq<Chain>, losses: seq<real>, ch': Chain, loss: real, R: Ratings, cfg: Config,
                    la: Ops, predict: Predictor, rng: nat -> IterRng)
    requires Valid(R) && Trace(chains, losses, R, cfg, la, predict, rng)
    requires Step(chains[|losses|], ch', loss, R, cfg, la, predict, rng(|losses| + 1))
    ensures Trace(chains + [ch'], losses + [loss], R, cfg, la, predict, rng)
  {
    var chains', losses' := chains + [ch'], losses + [loss];
    forall k | 0 <= k < |losses'|
      ensures Step(chains'[k], chains'[k + 1], losses'[k], R, cfg, la, predict, rng(k + 1))
    {
      if k < |losses| {
        assert chains'[k] == chains[k] && chains'[k + 1] == chains[k + 1] && losses'[k] == losses[k];
      } else {
        assert chains'[k] == chains[|losses|] && chains'[k + 1] == ch' && losses'[k] == loss;
      }
    }
  }

  /** The loop of `Train` for maxIters > 1: iterations 1, 2, ... until one
      raises (`done && aborted`), the convergence test accepts one (`done &&
      !aborted`), or iteration maxIters - 1 has completed. */
  method RunIterations(R: Ratings, cfg: Config, P0: Matrix, Q0: Matrix, la: Ops, predict: Predictor,
                       converged: (nat, seq<real>) -> bool, rng: nat -> IterRng)
    returns (ch: Chain, chains: seq<Chain>, losses: seq<real>, aborted: bool, done: bool, iter: nat)
    requires Valid(R) && IsMatrix(P0, R.numRows, cfg.K) && IsMatrix(Q0, R.numCols, cfg.K)
    requires cfg.maxIters > 1
    ensures 1 <= iter <= cfg.maxIters && (done ==> iter < cfg.maxIters) && (done || iter == cfg.maxIters)
    ensures Progress(R, cfg, P0, Q0, predict, ch, losses)
    ensures Trace(chains, losses, R, cfg, la, predict, rng)
    ensures chains[0] == Start(P0, Q0, cfg.K, la) && chains[|losses|] == ch
    ensures !done ==> !aborted && |losses| == iter - 1 && Rejected(converged, losses, |losses|)
    ensures done && aborted ==>
              |losses| == iter - 1 && Rejected(converged, losses, |losses|) && Faults(ch, R, cfg, la)
    ensures done && !aborted ==>
              |losses| == iter && converged(iter, losses) && Rejected(converged, losses, |losses| - 1)
  {
    ch := Start(P0, Q0, cfg.K, la);
    chains := [ch];
    losses := [];
    aborted := false;
    done := false;
    iter := 1;
    while !done && iter < cfg.maxIters
      invariant 1 <= iter <= cfg.maxIters && (done ==> iter < cfg.maxIters)
      invariant Progress(R, cfg, P0, Q0, predict, ch, losses)
      invariant Trace(chains, losses, R, cfg, la, predict, rng)
      invariant chains[0] == Start(P0, Q0, cfg.K, la) && chains[|losses|] == ch
      invariant !done ==> !aborted && |losses| == iter - 1 && Rejected(converged, losses, |losses|)
      invariant done && aborted ==>
                  |losses| == iter - 1 && Rejected(converged, losses, |losses|) && Faults(ch, R, cfg, la)
      invariant done && !aborted ==>
                  |losses| == iter && converged(iter, losses) && Rejected(converged, losses, |losses| - 1)
      decreases cfg.maxIters - iter, if done then 0 else 1
    {
      var step := Iterate(ch, R, cfg, la, predict, rng(iter));
      if step.Aborted? {
        aborted := true;
        done := true;
      } else {
        ExtendTrace(chains, losses, step.chain, step.loss, R, cfg, la, predict, rng);
        chains := chains + [step.chain];
        ProgressStep(R, cfg, P0, Q0, predict, ch, losses, step.chain, step.loss);
        ch := step.chain;
        ExtendHistory(converged, losses, step.loss);
        losses := losses + [step.loss];
        if converged(iter, losses) {
          done := true;
        } else {
          RejectLatest(converged, losses);
          iter := iter + 1;
        }
      }
    }
  }

  /** The whole training run; `converged(iter, losses)` is the base
      recommender's convergence test after iteration `iter`. */
  method Train(R: Ratings, cfg: Config, P0: Matrix, Q0: Matrix, la: Ops, predict: Predictor,
               converged: (nat, seq<real>) -> bool, rng: nat -> IterRng) returns (run: Run, chains: seq<Chain>)
    requires Valid(R) && IsMatrix(P0, R.numRows, cfg.K) && IsMatrix(Q0, R.numCols, cfg.K)
    ensures Shaped(run.factors, R, cfg.K)
    ensures Trace(chains, run.losses, R, cfg, la, predict, rng)
    ensures chains[0] == Start(P0, Q0, cfg.K, la)
    ensures run.factors == chains[|run.losses|].factors
    ensures run.aborted <==>
              |run.losses| < cfg.maxIters - 1 && (|run.losses| == 0 || !converged(|run.losses|, run.losses)) &&
              Faults(chains[|run.losses|], R, cfg, la)
    ensures |run.losses| <= if cfg.maxIters > 1 then cfg.maxIters - 1 else 0
    ensures cfg.maxIters <= 1 ==> run == Run(Factors(P0, Q0), [], false)
    ensures forall k :: 0 <= k < |run.losses| ==> run.losses[k] >= 0.0
    ensures |run.losses| > 0 ==>
              run.losses[|run.losses| - 1] == 0.5 * SquaredError(R.cells, run.factors.P, run.factors.Q, predict)
    ensures forall k :: 1 <= k < |run.losses| ==> !converged(k, run.losses[..k])
    ensures !run.aborted && |run.losses| < cfg.maxIters - 1 ==>
              |run.losses| > 0 && converged(|run.losses|, run.losses)
    ensures run.aborted ==> |run.losses| < cfg.maxIters - 1
    ensures forall u :: 0 <= u < R.numRows && Unrated(R, Users, u) ==> run.factors.P[u] == P0[u]
    ensures forall i :: 0 <= i < R.numCols && Unrated(R, Items, i) ==> run.factors.Q[i] == Q0[i]
  {
    chains := [Start(P0, Q0, cfg.K, la)];
    if cfg.maxIters <= 1 {
      return Run(Factors(P0, Q0), [], false), chains;
    }
    var ch, losses, aborted, done, iter;
    ch, chains, losses, aborted, done, iter := RunIterations(R, cfg, P0, Q0, la, predict, converged, rng);
    assert losses[..|losses|] == losses;
    run := Run(ch.factors, losses, aborted);
  }
}
