# TrueSkill 0.2.1 in Dafny

This project models the exact-algebra and bookkeeping core of the TrueSkill rating system (the `trueskill` Python package, version 0.2.1). Numbers are Dafny `real`s. Every Python exception becomes a `Failure` of a `Result`, with the exception's kind and message. This covers the explicit raises and asserts, and the `ZeroDivisionError` Python raises for every division by zero.

The model has ten modules.

- `Wrappers` (wrappers.dfy): `Option`, `Result` and the error kinds.
- `Gaussians` (gaussian.dfy): the `Gaussian` of `trueskill/mathematics.py` in canonical form.
  - It stores precision `pi` and precision-adjusted mean `tau`.
  - Product and quotient are componentwise addition and subtraction.
  - The mean is `tau / pi`, and 0 without precision.
- `Matrices` (matrix.dfy): the dense `Matrix` (list, dict and generator construction, transpose, minor, add, multiply, scalar multiply).
  - Each operation the source writes as nested loops is a method with those loops.
  - Each such method is proved equal to a specification function on rows.
- `Determinants` (determinant.dfy): the determinant, the adjugate and the inverse.
  - The determinant is the source's elimination with partial pivoting.
  - It works in place on a copied array of rows, which leaves the receiver untouched.
  - It is proved equal to the functional `DetFrom`, which performs the same steps.
  - For sizes other than 2, `adjugate` builds the signed-minor (cofactor) matrix without transposing it, and the model keeps that.
- `FactorGraph` (factorgraph.dfy): `Variable` and the four factor kinds, as classes.
  - A `Variable` holds a belief and a message table keyed by factor object.
  - `update_message` and `update_value` keep the belief equal to the componentwise sum of the stored messages (`Variable.Valid`).
  - That invariant is preserved by every factor operation.
  - `SumFactor`'s precision accumulator uses an explicit `+inf` sentinel (`ExtReal`).
  - `LikelihoodFactor.down` scales by the mean variable's full precision, while `up` scales by the quotient's precision. The model keeps this asymmetry.
- `Ratings` (ratings.dfy): the environment's constants, `Rating` and its comparisons, the checks and reshaping of `rate` and `quality`.
  - The checks are validation of rating groups and weights.
  - The reshaping is team sizes, the stable sort by rank with clamped weights, the inverse permutation and re-keying.
- `Schedule` (schedule.dfy): the five-layer factor graph `build_factor_graph` lays out, and the message schedule `run_schedule` runs on it.
  - The schedule runs at most 10 rounds, with an early stop.
  - Every factor operation appends its call and the change it returned to a ghost `Log` when it succeeds. When it raises, it records the call and the error as the log's `failed` pass.
  - The calls logged by a run are proved equal to a schedule function, and the round deltas the stopping rule reads are read off the logged changes.
  - When a run raises, the calls logged are proved to be a proper prefix of the planned ones, and the recorded `failed` pass is the next planned call (`Stopped`).
- `TrueSkill` (trueskill.dfy): `rate` and `rate_1vs1`.
- `Quality` (quality.dfy): `quality` and `quality_1vs1`.
  - The comparison, mean and variance matrices, and the matrix formula.
  - Lemmas show that row `r` of `comparison * means` is the difference of the weighted mean skills of teams `r` and `r + 1`.
  - Another lemma shows that the exponent is the quadratic form `-1/2 d^T middle^-1 d` of those differences.
- `RealArithmetic` (arithmetic.dfy): single steps of real arithmetic (signs of products, reciprocals, division by a negated divisor) that the factor-graph and quality proofs use.

`math.sqrt`, `math.exp`, the normal distribution's `cdf`/`pdf`/`ppf` and the truncation functions `v_win`, `v_draw`, `w_win`, `w_draw` are not computed. They are function-valued parameters: fields of `Ratings.Backend`, or plain `real -> real` arguments. The only fact the proofs use about `sqrt` is its sign (`FactorGraph.SqrtSign`).

## Model

| member | source | states |
|---|---|---|
| Gaussians.Create | trueskill/mathematics.py:33-39 | Without a mean, `(pi, tau)` are kept as given. A mean with `sigma == 0` fails the assertion; a mean without `sigma` is a TypeError. Otherwise `pi = 1/sigma^2 > 0` and the mean reads back unchanged. |
| Gaussians.Mu | trueskill/mathematics.py:41-44 | `mu * pi == tau` when `pi != 0`; 0 when `pi == 0` |
| Gaussians.MuOfPrecisionMean | trueskill/mathematics.py:36-44 | the Gaussian `(p, p*m)` has mean `m` |
| Gaussians.MulDivRoundTrip | trueskill/mathematics.py:51-57 | `Mul` and `Div` (`__mul__`, `__div__`) undo each other: `(a*b)/b == a` and `(a/b)*b == a` |
| Gaussians.DivSelf | trueskill/mathematics.py:55-57 | `a/a` is `pi == tau == 0` |
| Gaussians.MulAlgebra | trueskill/mathematics.py:51-53 | `Mul` (`__mul__`) is commutative and associative, with the `(0, 0)` Gaussian as identity |
| Gaussians.ScaleKeepsMean | trueskill/factorgraph.py:117-125 | `Scale`, which multiplies both `pi` and `tau` by a non-zero `a`, keeps the mean |
| Matrices.FromList | trueskill/mathematics.py:83-89 | the list form succeeds iff the rows are non-empty and all of one length, keeping them as given; otherwise ValueError |
| Matrices.FlattenEmpty | trueskill/mathematics.py:86-87 | the flattened list is empty iff every row is empty (the "no number" test) |
| Matrices.RowLengthsSingleton | trueskill/mathematics.py:85-87 | the set of row lengths has one element iff there are rows and all share the first row's length |
| Matrices.Tabulate | trueskill/mathematics.py:102-107 | `height` rows of `width` entries, each entry the dict's value or 0 when absent |
| Matrices.FromDict | trueskill/mathematics.py:90-107 | given sizes are kept. A missing width is the least bound of the row indices and a missing height the least bound of the column indices, as written. Every entry is the dict's value or 0. |
| Matrices.FromItems | trueskill/mathematics.py:69-107 | the generator form. The cell `(r, c)` holds the last value the generator gave for it, or 0, and given sizes are kept. A height still left as its setter is the TypeError of `range` on a function. So is a width still left as its setter, unless the height is 0 and the inferred row count is 0 too, which gives the empty matrix. With both sizes known it always succeeds. |
| Matrices.RowCount | trueskill/mathematics.py:91-101 | the row count of the dict form: the height when it is non-zero, else the least bound of the keys' second components |
| Matrices.LastWinsMeaning | trueskill/mathematics.py:80-81 | a key is present iff some item has it, and its value is that of its last item |
| Matrices.GetAppend | trueskill/mathematics.py:80-81 | one more item overrides exactly its own cell |
| Matrices.Transposed | trueskill/mathematics.py:120-126 | the transpose swaps width and height and has `t[c][r] == m[r][c]` |
| Matrices.Transpose | trueskill/mathematics.py:120-126 | the loops compute `Transposed(m)` |
| Matrices.TransposedTwice | trueskill/mathematics.py:120-126 | transposing twice gives the original |
| Matrices.Plus | trueskill/mathematics.py:185-193 | the sum has the operands' shape and is elementwise |
| Matrices.Add | trueskill/mathematics.py:185-193 | it succeeds iff the shapes are equal, giving `Plus(a, b)`; otherwise ValueError("Must be same size") |
| Matrices.PlusCommutes | trueskill/mathematics.py:185-193 | `a + b == b + a` |
| Matrices.PlusExample | trueskill/mathematics.py:185-193 | a concrete 2x2 sum, and a refused shape mismatch |
| Matrices.Product | trueskill/mathematics.py:195-204 | the product is `height(a)` by `width(b)` and each entry is the dot product of a row and a column |
| Matrices.Dot | trueskill/mathematics.py:202-203 | the inner sum is `DotUpTo` over the whole row |
| Matrices.Mul | trueskill/mathematics.py:195-204 | it succeeds iff `width(a) == height(b)`, giving `Product(a, b)`; otherwise ValueError("Bad size") |
| Matrices.ProductExample | trueskill/mathematics.py:195-204 | a concrete 2x2 by 2x3 product, and a refused size |
| Matrices.Scaled | trueskill/mathematics.py:206-214 | the scalar multiple has the same shape and every entry is scaled |
| Matrices.ScalarMul | trueskill/mathematics.py:206-214 | the loops compute `Scaled(k, m)` |
| Matrices.TransposedProduct | trueskill/mathematics.py:120-126 | `(a b)^T == b^T a^T` |
| Matrices.DotUpToTransposed | trueskill/mathematics.py:195-204 | the dot sums of `a b` and `b^T a^T` agree entry by entry |
| Matrices.ScaledProduct | trueskill/mathematics.py:195-214 | `(k a) b == k (a b)` |
| Matrices.DotUpToScaled | trueskill/mathematics.py:195-214 | a scalar factors out of every partial dot sum |
| Matrices.Skip | trueskill/mathematics.py:133-141 | index `i` of the minor is `i` of the original before the dropped line and `i + 1` after it |
| Matrices.DropAt | trueskill/mathematics.py:138-141 | a row without its column `k`: one shorter, and every other entry kept in order |
| Matrices.MinorRows | trueskill/mathematics.py:132-141 | the minor drops exactly row `row` and column `col` |
| Matrices.Minor | trueskill/mathematics.py:128-142 | out-of-range indices fail the assertion; otherwise the list form of `MinorRows` |
| Matrices.MinorDefined | trueskill/mathematics.py:128-142 | the list form accepts the minor iff the matrix has at least two rows and two columns |
| Matrices.DictInferenceSwapsShape | trueskill/mathematics.py:91-101 | the keys `(0,0)` and `(4,9)` give 10 rows of 5 entries, and the entry at `(4,9)` is lost |
| Matrices.FromDictIntended | trueskill/mathematics.py:90-107 | with the height inferred from the row indices and the width from the column indices, every key in range keeps its value |
| Determinants.PivotUpTo | trueskill/mathematics.py:149 | the pivot row is among the rows considered |
| Determinants.PivotUpToLargest | trueskill/mathematics.py:149 | the pivot has the largest magnitude, and ties go to the last such row (the `max` over `(abs, r)` pairs) |
| Determinants.PivotRow | trueskill/mathematics.py:149-150 | the pivot row is at most the column index |
| Determinants.Swapped | trueskill/mathematics.py:153 | the swap keeps the shape |
| Determinants.SwappedStage | trueskill/mathematics.py:153 | the swap keeps the shape |
| Determinants.ElimRow | trueskill/mathematics.py:158-161 | an eliminated row keeps its length |
| Determinants.Eliminated | trueskill/mathematics.py:157-161 | elimination keeps the shape |
| Determinants.EliminatedUpTo | trueskill/mathematics.py:158-161 | elimination keeps the shape |
| Determinants.EliminatedUpToRows | trueskill/mathematics.py:158-161 | after `k` row steps, rows below `k` are eliminated and the rest untouched |
| Determinants.Step | trueskill/mathematics.py:148-161 | one column step (swap, sign, scale, eliminate) keeps the shape |
| Determinants.DetFromStep | trueskill/mathematics.py:148-162 | at column 0 the result is `rv * tmp[0][0]`; a zero pivot gives 0; otherwise the next column continues |
| Determinants.FindPivot | trueskill/mathematics.py:149-150 | the pivot search loop finds `PivotRow` |
| Determinants.EliminateColumn | trueskill/mathematics.py:157-161 | the in-place loops leave `Eliminated(old rows, c)` |
| Determinants.PivotAndEliminate | trueskill/mathematics.py:150-161 | one in-place column step preserves the determinant still to be computed |
| Determinants.ColumnPass | trueskill/mathematics.py:148-161 | a zero pivot means the determinant is 0; otherwise the rest of the computation is unchanged |
| Determinants.EliminateAll | trueskill/mathematics.py:147-162 | the in-place elimination returns `DetFrom` of the original rows |
| Determinants.Determinant | trueskill/mathematics.py:144-162 | a non-square matrix fails the assertion; otherwise the result is `Det(m)` |
| Determinants.DetOfOne | trueskill/mathematics.py:144-162 | a 1x1 matrix's determinant is its entry |
| Determinants.DetOfTwo | trueskill/mathematics.py:144-162 | for 2x2 the elimination gives `ad - bc` |
| Determinants.DetOfTwoPivot | trueskill/mathematics.py:149-162 | the 2x2 result for each pivot choice |
| Determinants.DetExample | trueskill/mathematics.py:144-162 | `det [[1,2],[3,4]] == -2` |
| Determinants.DetFromZeroColumn | trueskill/mathematics.py:151-152 | a column that is zero at and above the diagonal gives 0 |
| Determinants.DetZeroColumn | trueskill/mathematics.py:151-152 | a matrix with a zero column has determinant 0 |
| Determinants.Sign | trueskill/mathematics.py:175 | the sign is +1 or -1 |
| Determinants.Cofactors | trueskill/mathematics.py:172-176 | entry `(r, c)` is `(-1)^(r+c) det(minor(r, c))` |
| Determinants.Adjugated | trueskill/mathematics.py:164-177 | the adjugate is square of the same size |
| Determinants.CofactorEntry | trueskill/mathematics.py:174-176 | a 1x1 matrix's minor is refused (ValueError); otherwise the signed minor determinant |
| Determinants.CofactorRow | trueskill/mathematics.py:173-176 | the inner loop fills row `r` of the table with cofactors and keeps the other rows |
| Determinants.CofactorTable | trueskill/mathematics.py:172-176 | the loops fill the whole table with cofactors, or fail for 1x1 |
| Determinants.Adjugate | trueskill/mathematics.py:164-177 | non-square fails the assertion; 1x1 is a ValueError; otherwise `Adjugated(m)`, with 2x2 as `[[d,-b],[-c,a]]` |
| Determinants.Inverted | trueskill/mathematics.py:179-183 | the inverse is square of the same size |
| Determinants.Inverse | trueskill/mathematics.py:179-183 | non-square fails the assertion; a zero determinant is a ZeroDivisionError; otherwise `Inverted(m)` |
| Determinants.InverseOfTwo | trueskill/mathematics.py:164-183 | for every invertible 2x2 matrix `m * inverse(m)` is the identity |
| Determinants.InverseExample | trueskill/mathematics.py:164-183 | `adjugate [[1,2],[3,4]] == [[4,-2],[-3,1]]` and its inverse is `[[-2,1],[1.5,-0.5]]` |
| FactorGraph.TotalPick | trueskill/factorgraph.py:29-31 | the message sum splits off any one message |
| FactorGraph.TotalFrame | trueskill/factorgraph.py:29-31 | the message sum depends only on the messages summed |
| FactorGraph.TotalUpdate | trueskill/factorgraph.py:44-53 | replacing one message changes the sum by the quotient of the old and the product with the new |
| FactorGraph.TotalConnect | trueskill/factorgraph.py:69-72 | adding a `(0, 0)` message leaves the sum unchanged |
| FactorGraph.Delta | trueskill/factorgraph.py:38-42 | the delta is the larger of `abs(tau difference)` and `sqrt(abs(pi difference))` |
| FactorGraph.DeltaZero | trueskill/factorgraph.py:38-42 | the delta is non-negative, and 0 iff the two Gaussians are equal |
| FactorGraph.Variable.constructor | trueskill/factorgraph.py:29-31 | a new variable has belief `(0, 0)` and no messages |
| FactorGraph.Variable.Set | trueskill/factorgraph.py:33-36 | the belief becomes `val`, the messages stay, and the result is the delta between the beliefs |
| FactorGraph.Variable.UpdateMessage | trueskill/factorgraph.py:44-47 | an unknown factor is a KeyError. Otherwise only that factor's message becomes the new one, the belief becomes `belief / old * new`, the delta is returned and the belief stays the sum of messages. |
| FactorGraph.Variable.UpdateValue | trueskill/factorgraph.py:49-53 | an unknown factor is a KeyError. Otherwise the belief becomes the value, the message becomes `value * old / belief`, the delta is returned and the invariant is kept. |
| FactorGraph.Variable.Connect | trueskill/factorgraph.py:69-72 | a factor's `(0, 0)` message is stored without changing the belief or the invariant |
| FactorGraph.UpdateValueIsUpdateMessage | trueskill/factorgraph.py:44-53 | `update_value` is `update_message` with the message that makes the belief the value |
| FactorGraph.PriorValue | trueskill/factorgraph.py:98-101 | a negative precision is a math domain error. Zero precision gives `(0, 0)`. Otherwise the result has variance `1/pi + dynamic^2` and the prior's mean. |
| FactorGraph.PriorWidens | trueskill/factorgraph.py:98-101 | the prior's mean is kept and its variance grows by `dynamic^2` |
| FactorGraph.PriorFactor.constructor | trueskill/factorgraph.py:93-96 | connects to its variable with a `(0, 0)` message |
| FactorGraph.PriorFactor.Down | trueskill/factorgraph.py:98-101 | `update_value` of its variable with `PriorValue`, or the failure. On success the belief becomes the value and the stored message becomes `value * old message / old belief`. On success the call and its change are logged. On failure the calls and changes logged are unchanged, and the call with its error is recorded as the failed pass. |
| FactorGraph.LikelihoodDown | trueskill/factorgraph.py:112-118 | ZeroDivisionError iff `variance == 0` or `1/variance + mean.pi == 0`; otherwise the message scaled by `(1/v) / (1/v + mean.pi)` |
| FactorGraph.LikelihoodUp | trueskill/factorgraph.py:120-125 | ZeroDivisionError iff `1 + variance * msg.pi == 0`; otherwise the message scaled by `1 / (1 + variance * msg.pi)` |
| FactorGraph.LikelihoodUpAddsVariance | trueskill/factorgraph.py:120-125 | for a non-negative variance and a positive precision, the mean is kept and the variance grows by exactly `variance` |
| FactorGraph.LikelihoodDownIsUpRule | trueskill/factorgraph.py:112-125 | `down` with the message's own precision is the `up` rule |
| FactorGraph.LikelihoodFactor.constructor | trueskill/factorgraph.py:106-110 | connects to both variables with `(0, 0)` messages |
| FactorGraph.LikelihoodFactor.Down | trueskill/factorgraph.py:112-118 | `update_message` of the value variable with `LikelihoodDown` of the mean's quotient, or KeyError or ZeroDivisionError, keeping the invariant. On success the call and its change are logged. On failure the calls and changes logged are unchanged, and the call with its error is recorded as the failed pass. |
| FactorGraph.LikelihoodFactor.Up | trueskill/factorgraph.py:120-125 | `update_message` of the mean variable with `LikelihoodUp` of the value's quotient, or the failure, keeping the invariant. On success the call and its change are logged. On failure the calls and changes logged are unchanged, and the call with its error is recorded as the failed pass. |
| FactorGraph.ZipLength | trueskill/factorgraph.py:160 | `izip` stops at the shorter list |
| FactorGraph.PrecisionInv | trueskill/factorgraph.py:163-172 | the accumulator is `+inf` iff some quotient has zero precision |
| FactorGraph.SumMessage | trueskill/factorgraph.py:157-175 | a zero `pi_inv` is a ZeroDivisionError. An infinite one gives `(0, 0)`. Otherwise the message's mean is the weighted sum of the quotients' means. |
| FactorGraph.Rewritten | trueskill/factorgraph.py:141-151 | position `index` gets `1/c`, every other position `-c_j/c`, and all are 0 when `c == 0` |
| FactorGraph.SolveForTerm | trueskill/factorgraph.py:141-155 | the rewritten coefficients solve `s = sum c_j x_j` for `x_index` |
| FactorGraph.SumUpSolves | trueskill/factorgraph.py:141-175 | the message `up(i)` computes has term `i`'s mean |
| FactorGraph.MeanSumIsDot | trueskill/factorgraph.py:160-162 | the `mu` accumulator is the dot product of coefficients and means |
| FactorGraph.SumFactor.constructor | trueskill/factorgraph.py:130-134 | connects to the sum and every term with `(0, 0)` messages |
| FactorGraph.SumFactor.Messages | trueskill/factorgraph.py:138 | the factor's message from each variable, or KeyError if one is missing |
| FactorGraph.SumFactor.Quotients | trueskill/factorgraph.py:161 | each quotient is `belief / message` |
| FactorGraph.SumFactor.CollectMessages | trueskill/factorgraph.py:138 | the loop collects `Messages(vals)` |
| FactorGraph.SumFactor.Accumulate | trueskill/factorgraph.py:158-172 | the loop computes `PrecisionInv` and `MeanSum` |
| FactorGraph.SumFactor.Update | trueskill/factorgraph.py:157-175 | `update_message` of the target with `SumMessage` of the quotients, or the failure, keeping the invariant |
| FactorGraph.SumFactor.Down | trueskill/factorgraph.py:136-139 | `update` of the sum variable from the terms, or KeyError. On success the call and its change are logged. On failure the calls and changes logged are unchanged, and the call with its error is recorded as the failed pass. |
| FactorGraph.SumFactor.RewriteCoeffs | trueskill/factorgraph.py:142-151 | the loop computes `Rewritten` |
| FactorGraph.SumFactor.Up | trueskill/factorgraph.py:141-155 | an index out of range is an IndexError (negative indices count from the end). Otherwise `update` of term `index`, with the sum in its place and the rewritten coefficients. On success the call with its index and the change are logged. On failure the calls and changes logged are unchanged, and the call with its error is recorded as the failed pass. |
| FactorGraph.PyIndex | trueskill/factorgraph.py:142 | the index is in range iff Python's indexing accepts it, and non-negative indices are kept |
| FactorGraph.TruncateValue | trueskill/factorgraph.py:186-196 | a negative precision is a math domain error; `sqrt(pi) == 0` is a ZeroDivisionError |
| FactorGraph.TruncateMoments | trueskill/factorgraph.py:186-196 | for `pi > 0` it succeeds iff `w != 1`. The new mean is `mu + v sqrt(pi) / pi` and the new variance `(1 - w) / pi`. For `0 < w < 1` the precision grows. |
| FactorGraph.TruncatePositive | trueskill/factorgraph.py:186-196 | the same for any positive `sqrt(pi)` |
| FactorGraph.TruncatedMoments | trueskill/factorgraph.py:194-195 | the moments of `(pi/(1-w), (tau + s v)/(1-w))` |
| FactorGraph.TruncateFactor.constructor | trueskill/factorgraph.py:180-184 | connects to its variable with a `(0, 0)` message |
| FactorGraph.TruncateFactor.Up | trueskill/factorgraph.py:186-196 | `update_value` with `TruncateValue` of the quotient, or the failure, keeping the invariant. On success the belief becomes the truncated value and the stored message becomes `value * old message / old belief`. On success the call and its change are logged. On failure the calls and changes logged are unchanged, and the call with its error is recorded as the failed pass. |
| Ratings.DrawMargin | trueskill/__init__.py:80-82 | the margin is 0 when `ppf((p + 1) / 2)` is 0 or `beta` is 0 |
| Ratings.CreateRating | trueskill/__init__.py:178-190 | missing `mu`/`sigma` come from the environment. `sigma == 0` fails the assertion. Otherwise the mean is `mu` and `pi * sigma^2 == 1`. |
| Ratings.DefaultRating | trueskill/__init__.py:26-37 | the default rating has mean 25 and precision `9/625` |
| Ratings.RatingOrder | trueskill/__init__.py:128-141 | `RatingLt`, `RatingLe`, `RatingGt` and `RatingGe` order by mean: total, transitive, with `<` the negation of the reversed `<=` |
| Ratings.OrderCoarserThanEq | trueskill/__init__.py:128-141 | two ratings can be `<=` both ways and still be `RatingEq`-unequal, since equality compares `(pi, tau)` |
| Ratings.RatingOfBelief | trueskill/__init__.py:396 | `Rating(var.mu, var.sigma)`: negative precision is a math domain error; zero gives `(0, 0)`; otherwise the belief itself |
| Ratings.RatingsOf | trueskill/__init__.py:227 | a dict group's values in entry order; a tuple's members |
| Ratings.KeysOf | trueskill/__init__.py:226 | a dict group's keys in entry order |
| Ratings.KindsSingleton | trueskill/__init__.py:219-220 | the set of group types has one element iff all groups have one type |
| Ratings.ValidateRatingGroups | trueskill/__init__.py:213-230 | each error in the source's order, with its message. Success iff there are at least 2 groups, none empty, all of one type and not bare ratings. Then the values are in order and the keys are given iff the groups are dicts. |
| Ratings.ReadWeights | trueskill/__init__.py:232-242 | a list is kept. Otherwise the groups' shape, with 1 everywhere (None) or the dict's value at `(group, position)` with default 1. |
| Ratings.ValidateWeights | trueskill/__init__.py:232-242 | the loops compute `ReadWeights` |
| Ratings.Clamped | trueskill/__init__.py:384 | each weight becomes `max(min_delta, w)` |
| Ratings.ConcatSameShape | trueskill/__init__.py:246-247 | flattening lists of the same shape gives equal lengths |
| Ratings.TeamSizes | trueskill/__init__.py:85-91 | one prefix sum per group: entry `x` is the number of players in groups `0..x` |
| Ratings.ConcatPrefix | trueskill/__init__.py:85-91 | the players of the first `j` groups are a prefix of all players |
| Ratings.TeamSlices | trueskill/__init__.py:391-397 | group `x`'s players are the slice between consecutive team sizes |
| Ratings.StableOrder | trueskill/__init__.py:375-378 | the order is a permutation that sorts by rank, keeping equal ranks in input order |
| Ratings.InsertSorted | trueskill/__init__.py:375-378 | inserting an index at its place keeps the order sorted and stable |
| Ratings.Permute | trueskill/__init__.py:379-382 | position `a` holds item `order[a]` |
| Ratings.Unsort | trueskill/__init__.py:398-400 | the item at sorted position `x` goes back to position `order[x]` |
| Ratings.UnsortPermuted | trueskill/__init__.py:398-400 | unsorting the sorted list gives the original |
| Ratings.PermutationOnto | trueskill/__init__.py:398-400 | every input position is hit by the order |
| Ratings.Arrange | trueskill/__init__.py:379-384 | the groups and ranks in sorted order, and each sorted team's weights clamped |
| Schedule.Pairs | trueskill/__init__.py:254 | `g - 1` neighbouring pairs for `g >= 1` teams |
| Schedule.NewVariables | trueskill/__init__.py:251-254 | `k` fresh, distinct variables with no messages |
| Schedule.NewPrior | trueskill/__init__.py:259 | a prior on the given variable with the rating and `tau` |
| Schedule.NewLikelihood | trueskill/__init__.py:262 | a likelihood from skill to performance with the given variance |
| Schedule.NewSum | trueskill/__init__.py:273 | a sum factor with the given terms and coefficients |
| Schedule.NewTruncate | trueskill/__init__.py:287 | a truncation with the given `v`, `w` and draw margin |
| Schedule.BuildPriors | trueskill/__init__.py:257-259 | prior `i` is on skill variable `i` with rating `i` and the environment's `tau` |
| Schedule.BuildLikelihoods | trueskill/__init__.py:260-262 | likelihood `i` links skill `i` to performance `i` with variance `beta^2` |
| Schedule.BuildTeamPerfs | trueskill/__init__.py:263-273 | sum `x` covers performances `team_sizes[x-1]..team_sizes[x]` with the flattened weights of that slice |
| Schedule.BuildTeamDiffs | trueskill/__init__.py:274-277 | difference `x` is team performance `x` minus team performance `x + 1` |
| Schedule.BuildTruncs | trueskill/__init__.py:278-287 | truncation `x` uses the draw functions iff `ranks[x] == ranks[x+1]`, with the draw margin of those two teams' size |
| Schedule.GroupSlice | trueskill/__init__.py:266-272 | the weights between `start` and `end` are exactly group `x`'s weights |
| Schedule.SizesBound | trueskill/__init__.py:85-91 | the team sizes grow and stay within the player count |
| Schedule.TeamPerfLaidOut | trueskill/__init__.py:270 | the terms of a team sum are the performances of its slice |
| Schedule.TeamPerfsLaidOut | trueskill/__init__.py:263-273 | every team sum covers its own team's performances with its own weights |
| Schedule.LaidOutWithin | trueskill/__init__.py:250-291 | every factor connects only variables of the graph |
| Schedule.NewGraphVariables | trueskill/__init__.py:250-254 | `n` skill and performance variables, `g` team variables and `g - 1` difference variables, all fresh |
| Schedule.LayersShaped | trueskill/__init__.py:244-291 | the five layers have the shape described by `Shaped` |
| Schedule.LayOutPlayers | trueskill/__init__.py:257-262 | the prior and likelihood layers |
| Schedule.LayOutTeams | trueskill/__init__.py:263-287 | the team sum, difference and truncation layers |
| Schedule.LayOut | trueskill/__init__.py:256-291 | all five layers, with the `Shaped` layout |
| Schedule.BuildFactorGraph | trueskill/__init__.py:244-291 | fresh variables; layers shaped as `Shaped` says; distinct skill variables; every variable consistent with its messages |
| Schedule.DownAll | trueskill/__init__.py:301-302 | one `down` per factor of a layer, in the layer's order |
| Schedule.UpAll | trueskill/__init__.py:331-332 | one `up` per likelihood, in the layer's order |
| Schedule.TermUps | trueskill/__init__.py:329-330 | `up(x)` of a team sum for each `x` in `xrange(len(f.vars) - 1)`, that is once per term, in order |
| Schedule.Forward | trueskill/__init__.py:313-316 | the left-to-right loop over pairs `0 .. k-1` makes three passes per pair |
| Schedule.Backward | trueskill/__init__.py:317-320 | the right-to-left loop over pairs `k` down to `k - j + 1` makes three passes per pair |
| Schedule.Round | trueskill/__init__.py:306-320 | a round over one difference makes 2 passes, and over `m >= 2` differences `6 (m - 1)` |
| Schedule.Repeat | trueskill/__init__.py:305 | `k` rounds make `k` times as many passes as one |
| Schedule.SweepDeltaIsMax | trueskill/__init__.py:312-320 | the running `delta = max(delta, trunc.up())` of a sweep is at least 0 and at least every truncation change, and it is 0 or one of them |
| Schedule.SweepDeltaAppend | trueskill/__init__.py:312-320 | carrying `delta` from one loop into the next gives the larger of the two loops' deltas |
| Schedule.SweepDeltaStep | trueskill/__init__.py:315 | one more pair makes `delta` the larger of the old delta and that pair's truncation change |
| Schedule.TwoSweeps | trueskill/__init__.py:312-320 | the delta the backward loop ends with is the round's delta over both loops' logged changes |
| Schedule.RoundDeltas | trueskill/__init__.py:305-323 | the logged changes of `n` rounds give exactly `n` round deltas |
| Schedule.ForwardPairWithin | trueskill/__init__.py:313-316 | the forward loop's first `x` pairs followed by pair `x` begin the loop over any `k > x` pairs |
| Schedule.BackwardPrefix | trueskill/__init__.py:317-320 | the backward loop's first passes are a prefix of the whole backward loop |
| Schedule.TeamPerfUpsPrefix | trueskill/__init__.py:328-330 | the term passes of the first `f` team sums are a prefix of all of them |
| Schedule.LoopStopped | trueskill/__init__.py:305-323 | a round that raised after whole rounds with deltas above `min_delta` is the loop stopping (`RoundsAborted`) |
| Schedule.RoundsStopped | trueskill/__init__.py:293-323 | the loop stopping after a whole prelude is the run aborting (`Aborted`) |
| Schedule.FinalStopped | trueskill/__init__.py:293-332 | the final passes stopping after the prelude and rounds that obey the stopping rule is the run aborting (`Aborted`) |
| Schedule.PriorDown | trueskill/__init__.py:302 | a prior's `down`: a `PriorValue` failure, or a missing message (KeyError), is returned with the variable unchanged. Otherwise the belief becomes `PriorValue` of the prior, the stored message becomes `value * old message / old belief`, and the result is the delta between the old and the new belief. The call is logged with its delta on success, and recorded with its error as the failed pass otherwise. |
| Schedule.LikelihoodDownPass | trueskill/__init__.py:302 | a likelihood's `down`: a missing message is a KeyError and a `LikelihoodDown` failure is returned, each with the performance variable unchanged. Otherwise the performance variable trades only the likelihood's message, its belief is `old / old message * new message`, and the result is the delta. The call is logged with its delta on success, and recorded with its error as the failed pass otherwise. |
| Schedule.LikelihoodUpPass | trueskill/__init__.py:332 | a likelihood's `up`: the same failures and the same trade on the skill variable, with its delta. The call is logged with its delta on success, and recorded with its error as the failed pass otherwise. |
| Schedule.SumDown | trueskill/__init__.py:302 | a sum's `down`: a missing message is a KeyError and a `SumMessage` failure is returned, each with the sum variable unchanged. Otherwise the same trade on the sum variable, with its delta. The call is logged with its delta on success, and recorded with its error as the failed pass otherwise. |
| Schedule.SumUp | trueskill/__init__.py:312-330 | a sum's `up(index)`: an index out of range is an IndexError, a missing message a KeyError, and a `SumMessage` failure is returned, each with the term unchanged. Otherwise the term at that index makes the same trade, with its delta. The call is logged with its delta on success, and recorded with its error as the failed pass otherwise. |
| Schedule.TruncUp | trueskill/__init__.py:306-320 | a truncation's `up`: a missing message is a KeyError and a `TruncateValue` failure is returned, each with the variable unchanged. Otherwise the belief becomes `TruncateValue` of its quotient by the old message, the stored message becomes `value * old message / old belief`, and the result is the delta. The call is logged with its delta on success, and recorded with its error as the failed pass otherwise. |
| Schedule.DownPriors | trueskill/__init__.py:301-302 | every prior goes `down` once, in order, and exactly those calls are logged. On failure the calls logged are a proper prefix of `DownAll` of the layer, each with its change, and the failed pass recorded is the next planned call with the error returned. |
| Schedule.DownLikelihoods | trueskill/__init__.py:301-302 | every likelihood goes `down` once, in order, and exactly those calls are logged. On failure the calls logged are a proper prefix of `DownAll` of the layer, each with its change, and the failed pass recorded is the next planned call with the error returned. |
| Schedule.DownTeamPerfs | trueskill/__init__.py:301-302 | every team sum goes `down` once, in order, and exactly those calls are logged. On failure the calls logged are a proper prefix of `DownAll` of the layer, each with its change, and the failed pass recorded is the next planned call with the error returned. |
| Schedule.PreludePasses | trueskill/__init__.py:301-302 | the priors, then the likelihoods, then the team sums go `down`, logged in that order (`Prelude`). On failure the calls logged are a proper prefix of `Prelude`, each with its change, and the failed pass recorded is the next planned call with the error returned. |
| Schedule.PairPass | trueskill/__init__.py:312-320 | difference `x` down, truncation `x` up, difference `x` up to side `side`, logged in that order (`Triple`); the result is the truncation's logged change. On failure the calls logged are a proper prefix of `Triple`, each with its change, and the failed pass recorded is the next planned call with the error returned. |
| Schedule.ForwardPass | trueskill/__init__.py:312-316 | the calls logged are `Forward`, and the result is `max(delta0, SweepDelta)` of the truncation changes logged. On failure the calls logged are a proper prefix of `Forward`, each with its change, and the failed pass recorded is the next planned call with the error returned. |
| Schedule.BackwardPass | trueskill/__init__.py:317-320 | the calls logged are `Backward`, and the result is `max(delta0, SweepDelta)` of the truncation changes logged. On failure the calls logged are a proper prefix of `Backward`, each with its change, and the failed pass recorded is the next planned call with the error returned. |
| Schedule.DownTruncate | trueskill/__init__.py:306-309 | difference `x` down, then truncation `x` up, logged in that order (`DownTrunc`); the result is the truncation's logged change. On failure the calls logged are a proper prefix of `DownTrunc`, each with its change, and the failed pass recorded is the next planned call with the error returned. |
| Schedule.SingleRoundLogged | trueskill/__init__.py:306-309 | with one difference, a logged `DownTrunc` is the whole round and its delta is the truncation's change |
| Schedule.SweepsLogged | trueskill/__init__.py:311-320 | a logged forward sweep followed by a logged backward sweep is the whole round, and the running `max` over both is `RoundDelta` |
| Schedule.ForwardStopped | trueskill/__init__.py:313-316 | a pair that stopped after the first `x` pairs of the forward loop is the forward loop stopping: a proper prefix of `Forward` logged, and the next planned call recorded as failed |
| Schedule.BackwardStopped | trueskill/__init__.py:317-320 | as `ForwardStopped`, for the backward loop, which runs its pairs from the last down to 1 |
| Schedule.RunRound | trueskill/__init__.py:306-320 | the calls logged are `Round`, and the result is `RoundDelta` of the changes logged: the truncation's change for one difference, `max(0, every truncation change)` for several. On failure the calls logged are a proper prefix of `Round`, each with its change, and the failed pass recorded is the next planned call with the error returned. |
| Schedule.Rounds | trueskill/__init__.py:305-323 | between 1 and 10 rounds are logged, and their deltas, read off the logged changes, obey `StopRule`: every round before the last has delta above `min_delta`, and the last has delta at most `min_delta` unless it is the tenth. On failure (`RoundsAborted`) the log holds `j < 10` whole rounds, each with delta above `min_delta`, then a proper prefix of one more round, and the failed pass recorded is that round's next call. |
| Schedule.EndPasses | trueskill/__init__.py:324-326 | the first difference up to its left team, then the last up to its right, logged in that order (`Ends`). On failure the calls logged are a proper prefix of `Ends`, each with its change, and the failed pass recorded is the next planned call with the error returned. |
| Schedule.TermPasses | trueskill/__init__.py:329-330 | the calls logged are `TermUps` of one team sum. On failure the calls logged are a proper prefix of `TermUps`, each with its change, and the failed pass recorded is the next planned call with the error returned. |
| Schedule.TeamPerfPasses | trueskill/__init__.py:328-330 | the calls logged are the `TermUps` of every team sum, team by team (`TeamPerfUps`). On failure the calls logged are a proper prefix of `TeamPerfUps`, each with its change, and the failed pass recorded is the next planned call with the error returned. |
| Schedule.LikelihoodPasses | trueskill/__init__.py:331-332 | every likelihood goes `up` once, in order, and exactly those calls are logged. On failure the calls logged are a proper prefix of `UpAll` of the layer, each with its change, and the failed pass recorded is the next planned call with the error returned. |
| Schedule.FinalPasses | trueskill/__init__.py:324-332 | the calls logged are `Final`: both ends of the difference chain, then the team terms, then the likelihoods. On failure the calls logged are a proper prefix of `Final`, each with its change, and the failed pass recorded is the next planned call with the error returned. |
| Schedule.ScheduleLogged | trueskill/__init__.py:293-332 | a log made of the prelude, `n` rounds whose deltas obey the stopping rule and the final passes is a `Converged` log |
| Schedule.RunSchedule | trueskill/__init__.py:293-332 | negative `min_delta` is a ValueError before any message moves; no difference at all is a failure. On success the calls the factors logged are `Schedule(layers, n)` for some `1 <= n <= 10`, whose round deltas, read off the logged changes, obey the stopping rule. With `min_delta >= 0` a failure is `Raised`: the prelude stopped partway; or, with no differences, the whole prelude was logged and the error is IndexError; or the prelude was logged and the loop stopped as `RoundsAborted` says; or the prelude and `n` rounds obeying the stopping rule were logged and the final passes stopped partway. In each case the failed pass recorded is the next planned call. Every variable stays consistent. |
| TrueSkill.Beliefs | trueskill/__init__.py:395-396 | the belief of each prior's variable |
| TrueSkill.ReadGroup | trueskill/__init__.py:394-397 | each new rating is `Rating(mu, sigma)` of its belief, or the math domain error of a negative precision |
| TrueSkill.ReadOut | trueskill/__init__.py:390-397 | each sorted team's ratings are read from its slice of the rating layer |
| TrueSkill.Zip | trueskill/__init__.py:404 | `izip(keys, values)` pairs them position by position |
| TrueSkill.Rekey | trueskill/__init__.py:401-404 | dict groups with the original keys, or tuples, holding the given ratings |
| TrueSkill.RekeyValidates | trueskill/__init__.py:213-230 | re-keyed output validates to exactly the ratings and keys it holds |
| TrueSkill.RanksOr | trueskill/__init__.py:371-372 | missing ranks default to `0..n-1` |
| TrueSkill.SortedWeights | trueskill/__init__.py:380-384 | sorted team `x` has the clamped weights of team `order[x]` |
| TrueSkill.Collect | trueskill/__init__.py:390-404 | a group per input group with its length and keys, whose ratings are those read for its sorted position |
| TrueSkill.Reorder | trueskill/__init__.py:398-400 | read-back in sorted order carries over to the unsorted groups |
| TrueSkill.KeysFit | trueskill/__init__.py:225-227 | dict groups' key lists match their value lists |
| TrueSkill.WeightsShape | trueskill/__init__.py:232-242 | the weights have the validated groups' shape |
| TrueSkill.Prepare | trueskill/__init__.py:368-384 | the validation error is passed on; wrong-length ranks are ValueError("Wrong ranks"); otherwise the stable sort by rank with clamped weights |
| TrueSkill.RunPlan | trueskill/__init__.py:385-404 | the graph built on the sorted teams is `Shaped`, and `beliefs` are its rating layer's beliefs. On success the run is `Converged` (the calls the factors logged are `Schedule(layers, n)` for some `1 <= n <= 10`, whose round deltas obey the stopping rule), and the new ratings are read back in input order and shape. With `min_delta >= 0` a failure is `RunFailed`: the schedule `Raised` it, or the run converged and a negative precision made reading a rating back a math domain error. |
| TrueSkill.Rate | trueskill/__init__.py:334-404 | the validation, ranks and `min_delta` errors. When validation and ranks pass, the stable sorted plan, the shaped graph and its beliefs are stated whatever the outcome. On success: a `Converged` log of the run, and one group per input group. Each group has the input's length and keys, and holds the ratings read from its team's slice of the rating layer. A later failure with `min_delta >= 0` is `RunFailed`. |
| TrueSkill.RateKeepsShape | trueskill/__init__.py:391-404 | every output group is a dict with the input's keys or a tuple, as long as the input group |
| TrueSkill.Rate1vs1 | trueskill/__init__.py:462-478 | `rate` of two one-player teams with ranks `[0, 0]` for a draw and `[0, 1]` otherwise. The graph is `Shaped`: two priors over the two ratings and one truncation of the kind `drawn` chooses. On success the log is `Converged` and the results are the ratings read from the two skill beliefs. Negative `min_delta` is the ValueError; any other failure is `RunFailed`. |
| TrueSkill.PlanOfTwo | trueskill/__init__.py:375-384 | ranks already in order leave two teams in place |
| TrueSkill.KeptInPlace | trueskill/__init__.py:379-382 | the identity order keeps the list |
| TrueSkill.ValidatedTwo | trueskill/__init__.py:213-230 | two one-player tuples pass validation unchanged, without keys |
| TrueSkill.ShapedTwo | trueskill/__init__.py:278-287 | the graph of two players has two priors and one truncation of the kind the ranks choose |
| TrueSkill.ReadBackTwo | trueskill/__init__.py:390-404 | the two results are read from the two skill beliefs |
| TrueSkill.OrderOfTwo | trueskill/__init__.py:375-378 | a stable sort of two ordered ranks is the identity |
| Quality.Comparison | trueskill/__init__.py:437-449 | `g - 1` rows, one column per player, every entry given by `Entry` |
| Quality.ComparisonRow | trueskill/__init__.py:437-449 | row `r` holds `+w` for team `r`'s players, `-w` for team `r + 1`'s, and 0 elsewhere |
| Quality.Means | trueskill/__init__.py:428 | a column of the players' means |
| Quality.Variance | trueskill/__init__.py:432-433 | `sigma^2` is `1/pi`, positive |
| Quality.Variances | trueskill/__init__.py:431-435 | the square diagonal matrix of the players' variances |
| Quality.BetaTerm | trueskill/__init__.py:452 | `beta^2 * rot * rot^T` is square with one row per pair |
| Quality.VarianceTerm | trueskill/__init__.py:453 | `rot * S * rot^T` is square with one row per pair |
| Quality.VarianceItems | trueskill/__init__.py:431-435 | `((x, x), sigma^2)` per player, or the math domain error of a negative precision |
| Quality.ComparisonItems | trueskill/__init__.py:437-449 | the generator's items give every cell its `Entry`, and it sets the width to the player count and the height to `g - 1` |
| Quality.BuildMatrices | trueskill/__init__.py:428-449 | the mean, variance and comparison matrices, or the math domain error |
| Quality.Evaluate | trueskill/__init__.py:426-460 | the result is `Evaluated`: a math domain error for a negative precision, otherwise the matrix formula |
| Quality.Middle | trueskill/__init__.py:452-455 | `_ata` and `middle = _ata + _atsa` |
| Quality.Quadratic | trueskill/__init__.py:458 | the exponent `det(-0.5 start middle^-1 end)` |
| Quality.Combine | trueskill/__init__.py:450-460 | the formula from the three matrices |
| Quality.Finish | trueskill/__init__.py:457-460 | a singular `middle` is a ZeroDivisionError; a negative determinant ratio a math domain error; otherwise `exp(e) * sqrt(s)` |
| Quality.Ratio | trueskill/__init__.py:459 | `det(_ata) / det(middle)` |
| Quality.FlatWeights | trueskill/__init__.py:425 | one weight per player |
| Quality.Quality | trueskill/__init__.py:406-460 | the validation error is passed on; otherwise `Evaluated` on the validated groups and their flattened weights |
| Quality.Quality1vs1 | trueskill/__init__.py:480-491 | `quality` of two one-player teams with weights `[1, 1]` |
| Quality.UnweightedTwo | trueskill/__init__.py:233-234 | two unweighted one-player teams have weights `[1, 1]` |
| Quality.ConcatPrecise | trueskill/__init__.py:424 | non-zero precisions survive flattening |
| Quality.MeansOf | trueskill/__init__.py:428 | the players' means |
| Quality.TeamMeans | trueskill/__init__.py:428 | the means of each team |
| Quality.TeamMeansFlatten | trueskill/__init__.py:424-428 | flattening the teams' means gives the flattened players' means |
| Quality.ElementAt | trueskill/__init__.py:424 | player `j` of team `r` sits after the players of the earlier teams |
| Quality.OffsetNext | trueskill/__init__.py:440-445 | the next team starts after this team's players |
| Quality.PartialStep | trueskill/__init__.py:456 | each column adds its entry times its mean to the partial difference |
| Quality.StepOutside | trueskill/__init__.py:437-449 | outside the two teams the entry is 0 and the partial difference is unchanged |
| Quality.StepFirst | trueskill/__init__.py:440-442 | inside team `r` the column adds `w * mu` |
| Quality.StepSecond | trueskill/__init__.py:444-447 | inside team `r + 1` the column subtracts `w * mu` |
| Quality.PartialMeanDifference | trueskill/__init__.py:456 | the partial dot sum of row `r` with the means is the partial difference |
| Quality.PartialEnd | trueskill/__init__.py:456 | past both teams the partial difference is the whole one |
| Quality.MeansColumn | trueskill/__init__.py:428 | the mean column holds the teams' means, flattened |
| Quality.MeanDifference | trueskill/__init__.py:456 | `(rot * means)[r]` is the weighted mean of team `r` minus that of team `r + 1` |
| Quality.QuadraticForm | trueskill/__init__.py:454-458 | the exponent is `-1/2 d^T middle^-1 d` with `d = rot * means`, a 1x1 matrix |
| Quality.DetOfSingle | trueskill/mathematics.py:144-162 | a 1x1 determinant is the entry |

## Left out

- Floating point: every number is an exact real. Rounding, overflow of `exp`, NaN and infinite floats are not modelled. Exceptions to this are the `+inf` precision accumulator of `SumFactor.update` and the infinite `sigma` of a zero precision, which are written out explicitly.
- `math.sqrt`, `math.exp`, `cdf`, `pdf`, `ppf`, `v_win`, `v_draw`, `w_win` and `w_draw` are parameters, not computed. The numerical approximations of trueskill/backends.py, trueskill/statistics.py and trueskill/scipycompat.py are not part of this model.
- `calc_draw_probability` (trueskill/__init__.py:75-77) is not modelled. It is built only on `cdf`, and nothing in the core calls it.
- `Gaussian.sigma` is not a member of its own. Where the source squares it, the model uses `1/pi`. Where the source rebuilds a Gaussian from `(mu, sigma)`, the model keeps `(pi, tau)`, which is exact over the reals. This happens in `Rating(var.mu, var.sigma)`, `PriorFactor.down` and the variance matrix.
- FactorGraph.Delta: the branch returning 0 for an infinite precision difference is absent, because precisions are finite reals.
- `Variable.update_message` and `update_value` take a Gaussian. The `pi=`/`tau=` keyword form builds the same Gaussian and is not modelled separately. `Factor.down`/`up` returning 0 and the `Factor.var` assertion are also not modelled.
- The global environment (`_g`, `setup`) is an explicit `Env` parameter. The `Rating` tuple-argument form, `exposure`, `__int__`/`__long__`/`__float__`/`__iter__`, `__repr__` and the deprecated methods are not modelled.
- Python types are not modelled:
  - `Matrix`'s `TypeError('Invalid source')` and `__rmul__`'s non-number TypeError;
  - the "every entry is a number" part of the list check, of which only emptiness remains;
  - the int/float distinction.
- Matrices.IsMatrix: the dict and generator forms accept a matrix with no rows or no columns, but the operations' requires exclude such a matrix.
- Determinants.Adjugate: the dict built from the cofactors is converted with sizes `n, n` passed explicitly, which for a full `n x n` table gives the same matrix.
- Dict groups are ordered entry lists, with keys and values read in the same order as Python 2's `dict.keys()`/`itervalues()`. Duplicate keys, which a dict cannot have, are not excluded.
- TrueSkill.Rate: requires `WeightsFit`: a list of weights has one row per group, and each row is as long as its group. The source does not check this, and a ragged list would silently misalign weights with players.
- TrueSkill.Prepare: requires `WeightsFit`, for the same reason.
- Quality.Quality: requires `WeightsFit` (as for `rate`).
- Quality.Quality: requires every precision non-zero. A zero precision gives Python an infinite `sigma`, and the infinite and NaN arithmetic that follows is not modelled.
- Quality.Quality1vs1: requires both precisions non-zero, for the same reason.
- Schedule.RunSchedule: requires a graph whose variables are all consistent with their messages, with one truncation per difference (what `BuildFactorGraph` produces). Its ensures fixes the order of the factor operations, the changes they returned and the stopping rule over those changes. It does not state the beliefs the run leaves, beyond every variable staying consistent. What each single pass writes is stated by `PriorDown`, `LikelihoodDownPass`, `LikelihoodUpPass`, `SumDown`, `SumUp` and `TruncUp`.
- Schedule.DownPriors: states the calls logged, not the beliefs each pass writes (those are stated per pass, as for `RunSchedule`).
- Schedule.DownLikelihoods: as `DownPriors`.
- Schedule.DownTeamPerfs: as `DownPriors`.
- Schedule.PreludePasses: as `DownPriors`.
- Schedule.ForwardPass: states the calls logged and the delta over the logged changes, not the beliefs each pass writes.
- Schedule.BackwardPass: as `ForwardPass`.
- Schedule.RunRound: as `ForwardPass`.
- Schedule.Rounds: as `ForwardPass`.
- Schedule.TermPasses: as `DownPriors`.
- Schedule.TeamPerfPasses: as `DownPriors`.
- Schedule.LikelihoodPasses: as `DownPriors`.
- Schedule.FinalPasses: as `DownPriors`.
- Schedule.PairPass: as `ForwardPass`.
- Schedule.DownTruncate: as `ForwardPass`.
- Schedule.EndPasses: as `DownPriors`.
- SumFactor weights: trueskill/factorgraph.py:149 computes `-c / coeff`, which under Python 2 floor-divides when the weights are integers (weights `(2, 3)` give `-3 / 2 == -2`). The model divides exactly, as for float weights.
- trueskill/factorgraph.py:15 imports `inf` from trueskill/mathematics.py, which does not define it. The model takes it to be `float('inf')`, the `+inf` of `ExtReal`.
- TrueSkill.Rate: the new ratings are stated as read back from the beliefs the schedule leaves. Their numerical values depend on the abstract `v`/`w` functions and are not stated.

## Findings

| source | as written | input that shows it | evidently intended | confidence | as-written member | corrected member |
|---|---|---|---|---|---|---|
| trueskill/mathematics.py:91-101 | the dict form infers the width from the row indices (`r + 1`) and the height from the column indices (`c + 1`) | `{(0, 0): 1, (4, 9): 1}` with no sizes gives 10 rows of 5 entries, and the entry at `(4, 9)` is lost | height from the row indices and width from the column indices, so that every key lands in the matrix | high (not executed) | Matrices.DictInferenceSwapsShape | Matrices.FromDictIntended |
