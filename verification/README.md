# Confidence-region projection of the delphi truncated-statistics estimators

This project models the confidence-region projection of the truncated and censored estimators in delphi. After every optimiser step a post-step hook clamps the parameter estimate back into intervals centred on the empirical estimate. The model also covers two small pieces of bookkeeping around those hooks.

It covers these parts of the source:

- `TruncatedNormalProjectionSet`: the truncated normal distribution with an unknown truncation set.
  - Location bounds are `emp_loc ± radius`.
  - Scale bounds run from `max(alpha²/12, emp_scale − radius)` to `emp_scale + radius`.
  - The hook clamps the location and every covariance entry.
- `CensoredNormalProjectionSet`: the same shape of bounds with the floor `(alpha/12)²`. The model also covers:
  - the way `censored_normal.fit` builds this set;
  - the return line of `CensoredMultivariateNormalNLL.backward`, which splits the flat gradient into a d×d covariance gradient and a location gradient.
- `TruncatedRegressionProjectionSet`, for regression with a known noise variance. The set's bounds are `emp_weight[i] ± radius` for weight coordinate `i` and `emp_bias ± radius` for the bias, where `radius` is the raw configured multiplier. The hook as written clamps the bias into its interval but clamps every weight coordinate into coordinate 0's interval (see Findings); the model also has a corrected hook that clamps coordinate `i` into interval `i`.
- `TruncatedUnknownVarianceProjectionSet` and `LinearUnknownVariance`, for regression with an unknown noise variance. The layer stores `v = weight·λ`, `bias·λ` and `λ = 1/variance`. The hook:
  1. clamps the variance into `[emp_var/radius, emp_var/alpha²]`;
  2. clamps the weight `v·var` and the bias `bias·var` into `emp ± radius·(12 + 4·log(2/alpha))`;
  3. stores both back, multiplied by the new `λ`.
- `LinearRegression.__init__`/`fit`: the known- or unknown-variance branch is chosen from the truthiness of `var`.

Modelling choices:

- **Numbers.** All quantities are `real`s and tensors are `seq<real>`. Covariance matrices are kept row-major and flat, which is how `torch.clamp` sees them.
- **Radius factors.** The factors `sqrt(log(1/alpha))`, `log(1/alpha)` and `log(2/alpha)` are real inputs to the radius functions. The rest of each radius formula is computed exactly.
- **Clamping.** `torch.clamp(x, lo, hi)` is modelled as `min(max(x, lo), hi)`. When `lo > hi`, every input goes to `hi`. Every "in bounds" property is therefore stated for non-empty intervals, and idempotence holds either way.
- **Configuration.** The hooks read the global `config.args` on every call. The model captures the configuration when the set is built. A set built with `clamp` off is `Disabled` and has no bounds, just as the source never assigns them.
- **Exceptions.** Errors the source raises become `Result` values:
  - `float()` of a tensor with more than one element;
  - `.clone()` on `None`;
  - `reshape` of too short a gradient;
  - `inverse()` of a zero scalar.

  Shape agreement between an estimate and its own projection set is a precondition (`Fits`). Both always come from the same estimator.

Modules:

| module | file | content |
|---|---|---|
| `Outcomes` | outcomes.dfy | `Option`, `Result` and the raised errors |
| `Intervals` | intervals.dfy | `Clamp`, `Interval`, `Box`, entry-wise clamping |
| `Tensors` | tensors.dfy | scaling, inner product, `reshape`/`flatten` |
| `NormalProjection` | normal_projection.dfy | bounds and hook shared by the two normal families |
| `TruncatedNormal` | truncated_normal.dfy | `TruncatedNormalProjectionSet` |
| `CensoredNormal` | censored_normal.dfy | `CensoredNormalProjectionSet`, `fit`'s construction of it, the gradient split |
| `KnownVariance` | known_variance.dfy | `TruncatedRegressionProjectionSet` |
| `UnknownVariance` | unknown_variance.dfy | `TruncatedUnknownVarianceProjectionSet`, `LinearUnknownVariance.forward` |
| `RegressionSetup` | regression_setup.dfy | the branch choice in `LinearRegression` |

## Model

| member | source | states |
|---|---|---|
| Intervals.Clamp | delphi/distributions/unknown_truncation_normal.py:100-102 | `torch.clamp` never exceeds the upper bound. It lands inside a non-empty interval, leaves a value already inside unchanged, and gives the upper bound when the interval is empty. |
| Intervals.ClampIdempotent | delphi/distributions/unknown_truncation_normal.py:100-102 | Clamping a clamped value again changes nothing, even for an empty interval. |
| Intervals.ClampNearest | delphi/distributions/unknown_truncation_normal.py:100-102 | Clamping is the projection onto a non-empty interval: no point of the interval is closer to the input. |
| Intervals.Around | delphi/stats/linear_regression.py:102-103 | `Bounds(c − r, c + r)` is centred on `c` with width `2r`, and contains `c` when `r ≥ 0`. |
| Intervals.BoxAround | delphi/stats/linear_regression.py:100-101 | Entry-wise bounds around a tensor are centred on each entry with width `2r`, and contain the tensor when `r ≥ 0`. |
| Intervals.BoxAroundMonotone | delphi/distributions/unknown_truncation_normal.py:87-91 | A larger radius gives bounds that include the smaller ones, entry by entry. |
| Intervals.ClampAll | delphi/distributions/unknown_truncation_normal.py:100-102 | Clamping a tensor into scalar bounds keeps its length and puts every entry in a non-empty interval. Entries already inside are unchanged. |
| Intervals.ClampAllIdempotent | delphi/distributions/unknown_truncation_normal.py:100-102 | Clamping a tensor into scalar bounds twice is clamping it once. |
| Intervals.ClampEach | delphi/stats/linear_regression.py:150-153 | Clamping entry `i` into interval `i` puts the tensor inside a non-empty box and leaves entries already inside unchanged. |
| Intervals.ClampEachIdempotent | delphi/stats/linear_regression.py:150-153 | Entry-wise clamping twice is entry-wise clamping once. |
| Intervals.ClampEachNearest | delphi/stats/linear_regression.py:150-153 | Entry-wise clamping is the coordinate-wise nearest point of a non-empty box. |
| Tensors.ScaleInverse | delphi/stats/linear_regression.py:150-153 | Multiplying a tensor by `c` and then by `1/c` gives it back exactly. |
| Tensors.DotScale | delphi/stats/linear_regression.py:179-182 | `x·(w·c) = (x·w)·c`: the inner product is linear in the weight. |
| Tensors.Reshape | delphi/stats/censored_normal.py:99 | `reshape(n, d)` of `n·d` entries gives `n` rows of `d` entries. |
| Tensors.ReshapeEntry | delphi/stats/censored_normal.py:99 | Entry `(i, j)` of the reshaped matrix is flat entry `i·d + j`. |
| Tensors.FlattenReshape | delphi/stats/censored_normal.py:99 | Flattening the reshaped matrix gives back the flat tensor. |
| NormalProjection.FloorAt | delphi/distributions/unknown_truncation_normal.py:92-93 | `torch.max(floor, s)` is at least both arguments and equals one of them, entry by entry. |
| NormalProjection.Build | delphi/distributions/unknown_truncation_normal.py:89-96 | Bounds exist exactly when `clamp` is on. Location bounds are `emp_loc ± radius`. Each scale lower bound is the larger of the floor and `emp_scale − radius`, and each upper bound is `emp_scale + radius`. |
| NormalProjection.ScaleNonEmptyIff | delphi/distributions/unknown_truncation_normal.py:92-94 | For `radius ≥ 0` a scale interval is non-empty exactly when the floor is at most `emp_scale + radius`. |
| NormalProjection.AsScalar | delphi/distributions/unknown_truncation_normal.py:100 | `float(t)` succeeds exactly on one-element tensors and returns their entry. |
| NormalProjection.Hook | delphi/distributions/unknown_truncation_normal.py:98-104 | The hook as written does nothing when `clamp` is off. Otherwise it succeeds exactly when every bound has one element, and then puts the location and every covariance entry within the scalar bounds. |
| NormalProjection.HookIdempotent | delphi/distributions/unknown_truncation_normal.py:100-102 | The hook applied to its own output changes nothing. |
| NormalProjection.HookRaisesAboveOneDimension | delphi/distributions/unknown_truncation_normal.py:100 | With clamping on, a location of dimension greater than one makes the hook raise on every estimate. |
| NormalProjection.HookEntrywise | delphi/distributions/unknown_truncation_normal.py:98-104 | The corrected hook clamps each entry into its own interval. The location and covariance end inside non-empty bounds, and values already inside are unchanged. |
| NormalProjection.HookEntrywiseIdempotent | delphi/distributions/unknown_truncation_normal.py:100-102 | The corrected hook is idempotent. |
| NormalProjection.HookEntrywiseNearest | delphi/distributions/unknown_truncation_normal.py:100-102 | The corrected hook moves each entry no farther than to any point of its interval. |
| NormalProjection.HookAgreesInOneDimension | delphi/distributions/unknown_truncation_normal.py:98-104 | In one dimension the hook as written and the corrected hook give the same estimate. |
| TruncatedNormal.Radius | delphi/distributions/unknown_truncation_normal.py:87 | `radius·sqrt(log(1/alpha))` is non-negative for a non-negative multiplier and factor. |
| TruncatedNormal.ScaleFloorPositive | delphi/distributions/unknown_truncation_normal.py:92 | The floor `alpha²/12` is strictly positive for `alpha > 0`. |
| TruncatedNormal.NewProjectionSet | delphi/distributions/unknown_truncation_normal.py:78-96 | The set has bounds exactly when `clamp` is on, with one scale interval per covariance entry. |
| TruncatedNormal.LocBoundsAroundEmpirical | delphi/distributions/unknown_truncation_normal.py:87-91 | The location bounds are exactly `emp_loc − radius` and `emp_loc + radius`. For `radius ≥ 0` they are non-empty and contain `emp_loc`. |
| TruncatedNormal.ScaleLowerAboveFloor | delphi/distributions/unknown_truncation_normal.py:92-93 | Every scale lower bound is at least `alpha²/12`, hence strictly positive for `alpha > 0`. |
| TruncatedNormal.ScaleNonEmptyIff | delphi/distributions/unknown_truncation_normal.py:92-94 | A scale interval is non-empty exactly when `alpha²/12 ≤ emp_scale + radius`. |
| TruncatedNormal.WiderRadiusIncludes | delphi/distributions/unknown_truncation_normal.py:87-91 | For the same non-negative factor, a larger radius multiplier gives location bounds that include the smaller ones. |
| TruncatedNormal.HookInBounds | delphi/distributions/unknown_truncation_normal.py:99-102 | With clamping on, after a successful hook the location lies within `emp_loc ± radius`. Every covariance entry lies within the scale bounds and is strictly positive. |
| TruncatedNormal.HookTwiceIsOnce | delphi/distributions/unknown_truncation_normal.py:100-102 | Applying the family's hook twice gives the same state as applying it once. |
| TruncatedNormal.HookDisabledKeeps | delphi/distributions/unknown_truncation_normal.py:103-104 | With `clamp` off, the hook leaves location and covariance unchanged. |
| TruncatedNormal.HookRaisesInTwoDimensions | delphi/distributions/unknown_truncation_normal.py:100 | For a two-dimensional normal with mean `[1, 1]` and identity covariance, the hook as written raises on every call. |
| TruncatedNormal.HookEntrywiseMovesOffDiagonal | delphi/distributions/unknown_truncation_normal.py:92-102 | The corrected hook also clamps off-diagonal covariance entries into the floored scale intervals. For the identity covariance `[1, 0, 0, 1]` with `alpha > 0` and a positive radius, it moves both zero off-diagonal entries to positive values. |
| TruncatedNormal.HookEntrywiseInBounds | delphi/distributions/unknown_truncation_normal.py:99-102 | In any dimension, the corrected hook puts the location inside its bounds and every covariance entry inside its scale interval, strictly positive. |
| CensoredNormal.ScaleFloorPositive | delphi/stats/censored_normal.py:118 | The floor `(alpha/12)²` equals `alpha²/144` and is strictly positive for `alpha > 0`. |
| CensoredNormal.NewProjectionSet | delphi/stats/censored_normal.py:106-120 | The set has bounds exactly when `clamp` is on, with one scale interval per covariance entry. |
| CensoredNormal.LocBoundsAroundEmpirical | delphi/stats/censored_normal.py:112-117 | The location bounds are exactly `emp_loc ± radius`. For `radius ≥ 0` they contain `emp_loc`. |
| CensoredNormal.ScaleLowerAboveFloor | delphi/stats/censored_normal.py:118 | Every scale lower bound is at least `alpha²/144`, hence strictly positive. |
| CensoredNormal.ScaleNonEmptyIff | delphi/stats/censored_normal.py:117-118 | A scale interval is non-empty exactly when `(alpha/12)² ≤ emp_scale + radius`. |
| CensoredNormal.HookInBounds | delphi/stats/censored_normal.py:123-125 | With clamping on, after a successful hook the location and every covariance entry lie within their bounds. The covariance entries are strictly positive. |
| CensoredNormal.HookTwiceIsOnce | delphi/stats/censored_normal.py:124-125 | The hook is idempotent. |
| CensoredNormal.HookDisabledKeeps | delphi/stats/censored_normal.py:126-127 | With `clamp` off, the hook changes nothing. |
| CensoredNormal.NewProjectionSetFrom | delphi/stats/censored_normal.py:112-113 | Building the set raises `.clone()` on `None` exactly when an empirical input is `None`. Otherwise it builds the bounds around the given location. |
| CensoredNormal.FitProjectionSet | delphi/stats/censored_normal.py:68 | `fit` as written builds the set from the estimator's own `emp_loc` and `emp_var`, not from the data. It raises on `.clone()` exactly when one of them is `None`, and otherwise centres the location bounds on the estimator's `emp_loc`. |
| CensoredNormal.FitRaisesOnFreshEstimator | delphi/stats/censored_normal.py:45-68 | `fit` as written builds the set from the estimator's fields. Those fields are still `None`, so it raises whatever the data and settings. |
| CensoredNormal.FitProjectionSetFromData | delphi/stats/censored_normal.py:63-68 | The corrected `fit` builds the set around the dataset's moments. This is what the constructor gives on those moments. |
| CensoredNormal.SplitGradient | delphi/stats/censored_normal.py:99 | The split succeeds exactly when the gradient has at least `d²` entries. It gives a d×d covariance gradient, the remaining entries as the location gradient, and no gradient for the samples. |
| CensoredNormal.SplitGradientCovEntry | delphi/stats/censored_normal.py:99 | Covariance-gradient entry `(i, j)` is flat entry `i·d + j`. |
| CensoredNormal.SplitGradientLocEntry | delphi/stats/censored_normal.py:99 | Location-gradient entry `k` is flat entry `d² + k`. |
| CensoredNormal.SplitGradientRoundTrip | delphi/stats/censored_normal.py:98-99 | For a gradient of length `d² + d`, the location gradient has length `d`. The flattened covariance gradient followed by the location gradient is the original gradient. |
| KnownVariance.NewProjectionSet | delphi/stats/linear_regression.py:95-105 | Bounds exist exactly when `clamp` is on: one weight interval per coordinate, and a bias interval exactly when `bias` is on. |
| KnownVariance.BoundsAroundEmpirical | delphi/stats/linear_regression.py:98-103 | The weight bounds are `emp_weight[i] ± r` with the raw multiplier `r`, not the computed radius. So are the bias bounds; without `bias` there are none. |
| KnownVariance.Hook | delphi/stats/linear_regression.py:107-116 | The corrected hook keeps the shape. It puts the weight inside non-empty bounds and leaves a weight already inside unchanged. The bias is clamped only when bias bounds exist. |
| KnownVariance.HookInBounds | delphi/stats/linear_regression.py:108-114 | For the corrected hook: with clamping on and `r ≥ 0`, after the hook each weight coordinate lies in `emp_weight[i] ± r`. The bias lies in `emp_bias ± r` when `bias` is on and is untouched otherwise. |
| KnownVariance.HookIdempotent | delphi/stats/linear_regression.py:108-114 | The corrected hook is idempotent. |
| KnownVariance.HookDisabledKeeps | delphi/stats/linear_regression.py:115-116 | With `clamp` off, the corrected hook is a no-op. |
| KnownVariance.HookRows | delphi/stats/linear_regression.py:109-111 | The hook as written clamps every entry of weight row `i` into interval `i`. |
| KnownVariance.HookRowsIdempotent | delphi/stats/linear_regression.py:108-114 | The hook as written, applied to its own output, changes nothing: each row and the bias are clamped into the same intervals again. |
| KnownVariance.HookRowsDisabledKeeps | delphi/stats/linear_regression.py:115-116 | With `clamp` off, the hook as written is a no-op. |
| KnownVariance.HookRowsInBounds | delphi/stats/linear_regression.py:108-114 | With clamping on and `r ≥ 0`, the hook as written puts every coordinate of the single weight row into `emp_weight[0] ± r`, the interval of coordinate 0. The bias lies in `emp_bias ± r` when `bias` is on. |
| KnownVariance.HookRowsLeavesRegion | delphi/stats/linear_regression.py:109-111 | Take weight `[0, 10]` and radius 1, with the estimate at the empirical weight. The hook as written moves the second coordinate to 1, outside `10 ± 1`. The corrected hook leaves the estimate alone. |
| KnownVariance.HookRowsAgreesInOneDimension | delphi/stats/linear_regression.py:109-114 | With one feature, the hook as written and the corrected hook agree. |
| UnknownVariance.Inverse | delphi/stats/linear_regression.py:128 | `inverse()` of a scalar succeeds exactly when it is non-zero, and gives a non-zero `1/x`. |
| UnknownVariance.EncodeRoundTrip | delphi/stats/linear_regression.py:166-175 | Storing weight, bias and variance as `v = weight·λ`, `bias·λ`, `λ = 1/variance` and reading them back gives exactly the stored values. |
| UnknownVariance.ParamRadius | delphi/stats/linear_regression.py:131 | For a non-negative multiplier and `log(2/alpha) ≥ 0`, the parameter radius `radius·(12 + 4·log(2/alpha))` is at least `12·radius`. |
| UnknownVariance.NewProjectionSet | delphi/stats/linear_regression.py:124-140 | Building the set raises exactly when the empirical `λ` is zero. Otherwise:<br>• bounds exist exactly when `clamp` is on;<br>• the weight and bias intervals are centred on `v/λ_emp` and `bias/λ_emp` with half-width `radius·(12 + 4·log(2/alpha))`;<br>• the variance bounds are `emp_var/radius` and `emp_var/alpha²`. |
| UnknownVariance.VarianceBoundsNonEmptyIff | delphi/stats/linear_regression.py:134-136 | For a positive radius and empirical variance, both variance bounds are positive. The interval is non-empty exactly when `alpha² ≤ radius`. |
| UnknownVariance.Hook | delphi/stats/linear_regression.py:142-159 | The hook raises only when inverting `λ` or the clamped variance hits zero. With `clamp` off it keeps a non-singular layer. Otherwise it keeps shapes, gives a non-zero new `λ`, and leaves the bias alone without bias bounds. |
| UnknownVariance.HookRecoversVariance | delphi/stats/linear_regression.py:148 | After the hook, `1/λ` is exactly the clamped variance. |
| UnknownVariance.HookRecoversWeight | delphi/stats/linear_regression.py:150-153 | After the hook, `v/λ` is exactly the coordinate-wise clamped weight `v_old·var_old`. |
| UnknownVariance.HookRecoversBias | delphi/stats/linear_regression.py:155-157 | After the hook, `bias/λ` is exactly the clamped bias `bias_old·var_old`. |
| UnknownVariance.HookRecovers | delphi/stats/linear_regression.py:142-157 | After the hook, variance, weight and bias are recovered exactly as their clamped values. |
| UnknownVariance.ClampStoredRecovers | delphi/stats/linear_regression.py:155-157 | A bias stored by the bias step reads back as the clamped bias. |
| UnknownVariance.ClampStoredKeeps | delphi/stats/linear_regression.py:155-157 | The bias step keeps a stored bias whose value is already inside its bounds. |
| UnknownVariance.HookVarianceInBounds | delphi/stats/linear_regression.py:136-148 | With clamping on, after the hook `1/λ` lies in `[emp_var/radius, emp_var/alpha²]` when that interval is non-empty. |
| UnknownVariance.HookWeightInBounds | delphi/stats/linear_regression.py:131-153 | With clamping on and a non-negative parameter radius, each coordinate of `v/λ` lies in `emp_weight ± param_radius` after the hook. |
| UnknownVariance.HookBiasInBounds | delphi/stats/linear_regression.py:137-157 | With clamping and `bias` on, `bias/λ` lies in `emp_bias ± param_radius` after the hook. |
| UnknownVariance.HookKeepsLambda | delphi/stats/linear_regression.py:148 | Re-running the hook on its output keeps `λ`. |
| UnknownVariance.HookKeepsWeight | delphi/stats/linear_regression.py:150-153 | Re-running the hook on its output keeps `v`. |
| UnknownVariance.HookKeepsBias | delphi/stats/linear_regression.py:155-157 | Re-running the hook on its output keeps the bias. |
| UnknownVariance.HookIdempotent | delphi/stats/linear_regression.py:142-159 | Applying the hook twice gives the same layer as applying it once. |
| UnknownVariance.HookNeverSingular | delphi/stats/linear_regression.py:136-148 | A set built with a positive radius never makes the hook raise on a non-singular layer. This holds for any non-zero `alpha` and empirical variance. |
| UnknownVariance.HookDisabledKeeps | delphi/stats/linear_regression.py:146-159 | With `clamp` off, the hook leaves a non-singular layer unchanged. |
| UnknownVariance.Forward | delphi/stats/linear_regression.py:177-182 | The forward pass raises exactly when `λ` is zero, and otherwise gives one prediction per row. |
| UnknownVariance.ForwardIsLinearModel | delphi/stats/linear_regression.py:177-182 | The forward pass is the plain linear model `x·w + b` at `w = v/λ`, with `b = bias/λ` when the bias is non-empty. |
| UnknownVariance.ForwardDividesScore | delphi/stats/linear_regression.py:177-182 | Each prediction is `(x·v + bias)/λ`. |
| UnknownVariance.ForwardOfEncoded | delphi/stats/linear_regression.py:166-182 | Storing a weight, bias and variance and running the forward pass gives the plain linear model's predictions on them. |
| RegressionSetup.ChooseCriterion | delphi/stats/linear_regression.py:49-52 | The unknown-variance criterion is chosen exactly when `var` is falsy (`None` or `0.0`), and the known-variance criterion otherwise. |
| RegressionSetup.Setup | delphi/stats/linear_regression.py:49-84 | The plan's criterion is the one `__init__` chooses. A parameter group with its own learning rate can only be `lambda_` at `var_lr`. |
| RegressionSetup.SetupAgrees | delphi/stats/linear_regression.py:62-84 | The criterion, dataset flag, model, projection set and parameter groups all take the same branch. Only the unknown-variance branch gives `lambda_` its own group at `var_lr`. |

## Left out

- The rejection-sampling loop of `CensoredMultivariateNormalNLL.backward` and its `forward` (delphi/stats/censored_normal.py:81-98). The loop is random, may not terminate, and depends on `MultivariateNormal` and `censored_sample_nll`, which are not part of this model. Only the return line that splits the gradient is modelled.
- `Exp_h` (delphi/distributions/unknown_truncation_normal.py:108-121): exponential, logarithm and trace arithmetic on floating-point tensors.
- The `fit` methods' dataset, loader and `train_model` calls, and the `config.args` mutations. `DataSet`, `train_model` and `defaults` are not part of this model. From `fit`, only two things are modelled: the choice of the censored projection set's inputs and the regression branch choice.
- The logarithms and square roots in the radius formulas. Their values are real inputs (`sqrtLogInvAlpha`, `logInvAlpha`, `logTwoOverAlpha`).
- The unused known-variance radius `radius·(4·log(2/alpha) + 7)` (delphi/stats/linear_regression.py:98). No bound reads it.
- Matrix `inverse()`. `λ` and the variance are scalars, so the inverse is the reciprocal, and a zero scalar raises.
- Floating point: rounding, infinities and NaN (for example `alpha = 0` or `radius = 0` in a divisor). Reals are exact. The divisions by `alpha` and `radius` carry a non-zero precondition where the source would produce an infinity.
- Tensor shapes beyond flat vectors, devices and autograd.
  - A shape mismatch between an estimate and its own projection set is a precondition.
  - The unknown-variance hook's `unsqueeze`/`cat` per coordinate is modelled as entry-wise clamping.
- Configuration read at call time. The hooks read `config.args.clamp` and `config.args.bias` on each call; the model fixes them when the set is built.
- `NameError`s that stop the constructors before the modelled code runs. The model assumes these names resolve.
  - `device` is undefined at delphi/stats/censored_normal.py:39.
  - `truncated_regression` is undefined at delphi/stats/linear_regression.py:35.
- The import of `TrunatedUnknownVarianceMSE` at delphi/stats/linear_regression.py:15, also used at line 50. The module that defines the criteria is not part of this model, so whether that name exists is unverified. If it does not, the module fails to import.
- TruncatedNormal.Radius: states only that the radius is non-negative. Monotonicity in `alpha` would need the logarithm, which is an input here.
- Known-variance bounds use the raw `config.args.radius` (delphi/stats/linear_regression.py:100-103). The radius computed at line 98 is never read, so the model has no counterpart for it.
- With `clamp` off, the constructors compute no bounds at all; the model's `Disabled` set holds none.
- Bounds can be empty even for `alpha ∈ (0, 1)` and `radius > 0`, and the source does not check for it. The unknown-variance variance interval is non-empty exactly when `alpha² ≤ radius` (`UnknownVariance.VarianceBoundsNonEmptyIff`). A normal scale interval is empty when the floor exceeds `emp_scale + radius` (`TruncatedNormal.ScaleNonEmptyIff`). The clamps then send every value to the upper bound.
- The shape of `dataset.w` (delphi/stats/linear_regression.py:73). `DataSet` is not part of this model. `KnownVariance.HookRows` takes any number of weight rows; the Findings row about it assumes the single 1×d row that a d×1 `dataset.w` gives.
- CensoredNormal.Radius: has no contract of its own. Its sign depends on the `log(1/alpha)` input, so properties needing a non-negative radius take it as a precondition.

## Findings

| source | as written | input that shows it | evidently intended | confidence | as-written member | corrected member |
|---|---|---|---|---|---|---|
| delphi/distributions/unknown_truncation_normal.py:100-102 | `float()` of each bound tensor; it raises unless the bound has exactly one element | 2-dimensional normal, mean `[1, 1]`, identity covariance, clamping on | a hook that runs in every dimension; the corrected member clamps each location and covariance entry into its own interval. That also floors the off-diagonal covariance entries (TruncatedNormal.HookEntrywiseMovesOffDiagonal), so it is one plausible repair, not a behaviour the code clearly intends | high that the hook raises; low for the repair; not executed | NormalProjection.Hook, TruncatedNormal.HookRaisesInTwoDimensions | NormalProjection.HookEntrywise |
| delphi/stats/linear_regression.py:109-111 | iterates over the ROWS of the 1×d weight and clamps the whole row `i` into interval `i`, so every coordinate goes into coordinate 0's interval | empirical weight `[0, 10]`, radius 1, estimate `[[0, 10]]` becomes `[[0, 1]]` | coordinate `i` clamped into `emp_weight[i] ± r` | medium, assumes a d×1 `dataset.w`; not executed | KnownVariance.HookRows, KnownVariance.HookRowsLeavesRegion | KnownVariance.Hook |
| delphi/stats/censored_normal.py:45-68 | `fit` builds the projection set from `self.emp_loc` and `self.emp_var`, which are still `None`, so `.clone()` raises | any data, any settings, on a fresh estimator | bounds built around the dataset's empirical moments | high, not executed | CensoredNormal.FitProjectionSet, CensoredNormal.FitRaisesOnFreshEstimator | CensoredNormal.FitProjectionSetFromData |

Row 2 assumes that `dataset.w` is a d×1 column. delphi/stats/linear_regression.py:73 sets the weight to `dataset.w.t()`, so its shape follows `dataset.w`, and `DataSet` is not part of this model. A d×1 `dataset.w` gives the 1×d weight that `Linear(in_features=d, out_features=1)` at line 72 expects. The scripts in the repository point that way: truncreg.py:84 builds the targets `y` as an n×1 column, and truncreg.py:127 transposes the fitted weight into a column. If `dataset.w` were instead 1-D of shape (d,), `.t()` would leave it unchanged, lines 109-111 would clamp coordinate by coordinate, and row 2 would not arise.
