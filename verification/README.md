# Bayesian probabilistic matrix factorisation (librec `BPMF`) in Dafny

This project models librec's `BPMF` recommender, which trains by Gibbs
sampling (Salakhutdinov and Mnih, ICML 2008). The ratings form a sparse
user × item matrix. The model learns two factor matrices: `P` (one row per
user) and `Q` (one row per item), each with `K` columns.

Training first takes the column means and the inverse covariance of the
starting factors as the initial hyperparameters. Then each iteration does
the following:

1. For the user block and then the item block, draw the precision `alpha`
   from a Wishart posterior. Then draw the mean `mu` from a normal
   posterior.
2. Redraw every user's factor row, reading `Q`.
3. Redraw every item's factor row, reading the new `P`.
4. Compute half the sum of squared residuals over the positive ratings.
5. Ask the convergence test whether to stop.

The Wishart sampler assembles the Bartlett matrix from normal and gamma
draws and returns `Aᵀ·B·A`, where `A` is the Cholesky factor of the scale.

The modules follow the structure of the source:

- `Matrices`: nested-sequence matrices and the exact entry operations.
- `Library`: the linear-algebra routines the source calls but does not
  define, as caller-supplied total functions.
- `Wishart`: the sampler.
- `Ratings`: the sparse training matrix as a list of cells. A well-formed
  matrix stores each position at most once and keeps no explicit zeros.
- `Hyper`: the hyperparameter step.
- `Gibbs`: the factor-row update.
- `Loss`: the training loss.
- `Training`: one iteration and the whole loop.

Random draws are parameters indexed by their position. So every property
below holds for every outcome of the random number generator, and for
every behaviour of the library routines.

## Model

| member | source | states |
|---|---|---|
| `Wishart.Sample` | librec/src/main/java/librec/core/BPMF.java:269-323 | A scale with no Cholesky factor yields no sample, and only then. A 0×0 scale raises, and only then. Otherwise the result is `Aᵀ·B·A`, where `A` is the Cholesky factor and `B` is the Bartlett matrix of the `p×p` normal draws and the `p` gamma draws (shape `(df-(i+1))/2`, scale 2). |
| `Wishart.Bartlett` | librec/src/main/java/librec/core/BPMF.java:287-321 | The Bartlett matrix is `p×p` and symmetric, and its corner entry is the first gamma draw. |
| `Wishart.BuildBartlett` | librec/src/main/java/librec/core/BPMF.java:287-321 | The imperative assembly, with its `p > 1` and `p > 2` branches, produces exactly the reference Bartlett matrix. |
| `Wishart.FillDiagonal` | librec/src/main/java/librec/core/BPMF.java:292-298 | Each diagonal entry `j` becomes the gamma draw `y[j]` plus the squares of the normals above it in column `j`. No off-diagonal entry changes. |
| `Wishart.FillBorder` | librec/src/main/java/librec/core/BPMF.java:301-304 | Entry `(0, j)` becomes `z[0][j]·sqrt(y[0])` and is mirrored to `(j, 0)`. The diagonal and the interior are untouched. |
| `Wishart.FillColumn` | librec/src/main/java/librec/core/BPMF.java:309-319 | In column `j`, each row `1 ≤ i < j` becomes `z[i][j]·sqrt(y[i])` plus the inner product of columns `i` and `j` over the rows above `i`, and is mirrored. Nothing else changes. |
| `Wishart.FillInterior` | librec/src/main/java/librec/core/BPMF.java:307-321 | Every off-diagonal entry away from the first row and column gets its Bartlett value, symmetrically. The diagonal and the border are kept. |
| `Wishart.AssembledIsBartlett` | librec/src/main/java/librec/core/BPMF.java:287-321 | A matrix whose diagonal, border and interior match the three fill rules is the Bartlett matrix. |
| `Wishart.GatherColumns` | librec/src/main/java/librec/core/BPMF.java:310-316 | The two sparse vectors hold columns `a` and `b` of the first `n` rows of `z`, entry by entry. |
| `Wishart.DiagonalAtLeastGamma` | librec/src/main/java/librec/core/BPMF.java:297 | Every diagonal entry of the Bartlett matrix is at least its gamma draw. |
| `Matrices.DotOfGatheredColumns` | librec/src/main/java/librec/core/BPMF.java:313-317 | The inner product of the gathered vectors equals the column cross sum, which the reference definition uses. |
| `Matrices.SquaresNonNegative` | librec/src/main/java/librec/core/BPMF.java:293-297 | The inner product of a gathered column with itself is never negative. |
| `Ratings.Index` | librec/src/main/java/librec/core/BPMF.java:142 | An entity's index list contains exactly the entities it shares a stored rating with. |
| `Ratings.IndexIsNonzeroRatings` | librec/src/main/java/librec/core/BPMF.java:142-145 | In a well-formed rating matrix, an entity's index list contains another entity exactly when their rating is nonzero. |
| `Ratings.IndexInRange` | librec/src/main/java/librec/core/BPMF.java:188 | In a well-formed rating matrix, every listed index names an existing entity of the other side. |
| `Ratings.GetStored` | librec/src/main/java/librec/core/BPMF.java:159 | Reading the matrix at a stored cell's position returns that cell's rating. |
| `Ratings.GetAbsent` | librec/src/main/java/librec/core/BPMF.java:205 | Reading the matrix at a position with no stored cell returns 0. |
| `Hyper.Sample` | librec/src/main/java/librec/core/BPMF.java:77-103 | Raises exactly when the Wishart call raises. The precision becomes the Wishart draw, or keeps its value when no sample exists. The mean becomes `Lᵀ·z + (b0·mu0 + N·x̄)/(b0+N)`, where `L` is the Cholesky factor of `(alpha·(b0+N))⁻¹`; without that factor the mean is kept. The item block (lines 105-133) is the same step applied to `Q`. |
| `Gibbs.Compact` | librec/src/main/java/librec/core/BPMF.java:147-151 | The copy loop leaves the index list unchanged, and its count is the full length. |
| `Gibbs.Gather` | librec/src/main/java/librec/core/BPMF.java:153-164 | Row `t` of `MM` is the opposite block's factor row of the `t`-th listed entity. Entry `t` of `rr` is their rating minus the global mean. |
| `Gibbs.UpdateEntity` | librec/src/main/java/librec/core/BPMF.java:142-181 | An entity with no ratings keeps its row, and so does one whose posterior covariance has no Cholesky factor. Otherwise only its row changes, to `Lᵀ·z` plus the posterior mean `covar·(beta·MMᵀ·rr + alpha·mu)`. |
| `Gibbs.Pass` | librec/src/main/java/librec/core/BPMF.java:140-182 | Sweeping a block rewrites each of its rows as the update defines. Shapes are kept, and the opposite block's matrix is not modified. The item sweep (lines 186-228) is the same pass applied to `Q`. |
| `Loss.Evaluate` | librec/src/main/java/librec/core/BPMF.java:231-247 | `errs` and `loss` are equal. Both are half the sum of squared residuals over the cells with a positive rating, and never negative. |
| `Loss.SquaredErrorNonNegative` | librec/src/main/java/librec/core/BPMF.java:237-242 | The sum of squared residuals is never negative. |
| `Loss.SquaredErrorBoundsEachTerm` | librec/src/main/java/librec/core/BPMF.java:237-242 | The squared residual of each positive rating is at most the whole sum. |
| `Loss.ExactMeansZero` | librec/src/main/java/librec/core/BPMF.java:231-247 | If every positive rating is predicted exactly, the loss is zero. |
| `Loss.SquaredErrorZeroIffExact` | librec/src/main/java/librec/core/BPMF.java:231-247 | The loss is zero if and only if every positive rating is predicted exactly. |
| `Training.Iterate` | librec/src/main/java/librec/core/BPMF.java:73-247 | One iteration raises exactly when one of the two Wishart calls raises, that is, when a block's posterior scale has a Cholesky factor but no rows. Otherwise it keeps the shapes and takes both precisions from their Wishart draws (or keeps them). Each block's mean becomes `Lᵀ·z` plus the posterior location, or is kept when `L` does not exist. Each user row is redrawn against the old `Q`, and each item row against the new `P`, under the new hyperparameters. The reported loss is that of the new factors, and it is non-negative. Rows of unrated entities are kept. |
| `Training.Sweep` | librec/src/main/java/librec/core/BPMF.java:137-247 | Under fixed hyperparameters, each user row is redrawn against the old item factors, then each item row against the new user factors. Rows of unrated entities are kept. The loss returned is that of the new factors, and it is non-negative. |
| `Training.Train` | librec/src/main/java/librec/core/BPMF.java:50-256 | The run is a chain of states. It starts from the starting factors with each block's column means and inverse covariance (lines 56-63). Each completed iteration `k` relates state `k - 1` to state `k` exactly as one iteration does under the `k`-th draws. The final factors are those of the last state. The run ends by an exception exactly when it was neither converged nor out of iterations and the last state's next iteration raises. At most `maxIters - 1` iterations run, and none when `maxIters ≤ 1`. Every recorded loss is non-negative, and the last one is the loss of the final factors. The run stops early only at the first iteration the convergence test accepts, or when an exception ends it. An exception leaves the factors of the last completed iteration. Users and items without ratings keep their starting rows. |

## Left out

- Random draws: `Randoms.gaussian`, `Randoms.gamma` and `P.init(0, 1)`/`Q.init(0, 1)` are parameters. Draws are indexed by position, and the starting factors `P0` and `Q0` are given. Distributions are not modelled.
- Linear-algebra routines: `DenseMatrix`/`DenseVector` (`cholesky`, `inv`, `transpose`, `mult`, `add`, `scale`, `outer`, `cov`, `mean`, `get`) and `Math.sqrt` are not part of this model. They are arbitrary total functions.
  - `SparseVector.inner` (lines 297 and 317) is not part of this model either. It is assumed to be the exact inner product, `Dot`.
  - Consequence: the exceptions they could raise are not modelled, for example on mismatched sizes.
  - The one exception modelled is the one `wishart` raises itself when it writes entry (0, 0) of a 0×0 matrix. It ends training.
- Floating point: doubles are modelled as reals, so rounding is not modelled.
- Hyper.Sample: does not model Java `int` overflow of `M * b0_u` in the posterior scale. The product is taken over unbounded integers.
- Base-class members: `predict(u, j)` and `isConverged(iter)` belong to the base recommender, which is not part of this model.
  - `predict` is a function of the factors and the (user, item) pair.
  - `isConverged` is a function of the iteration number and the losses recorded so far.
- Error printing: the `printStackTrace` in the catch block is not modelled. Only its effect is kept: training stops.
- `for (gibbs = 1; gibbs < 2; gibbs++)` runs exactly once, so it is modelled as a single sweep.
- Ratings.Index: lists an entity's partners in the order the cells are stored, whereas the sparse storage lists them in ascending index order.
- Gamma shape: the model keeps the gamma shape `(df - (i + 1)) / 2` exactly as the code computes it (line 285). The textbook Bartlett decomposition uses `(df - i) / 2`, but whether the intended shape differs is a statistical question, so the model does not decide it.
- Bartlett diagonal: the code puts the gamma draw itself plus the squares of the normals above it on the diagonal (line 297), not the square root of a gamma draw. The model follows the code.
- Not modelled: the constructor, `algoName` and `toString`.
