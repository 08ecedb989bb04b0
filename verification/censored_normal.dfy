/**
 * The censored normal estimator with a known truncation set: its projection set
 * (`CensoredNormalProjectionSet`, like the truncated normal one but with the floor `(alpha/12)²`),
 * the way `fit` feeds it, and how `backward` splits its flat gradient.
 */
module CensoredNormal {
  import opened Outcomes
  import opened Intervals
  import opened Tensors
  import opened NormalProjection

  /**
   * The confidence radius `radius · log(1/alpha) / alpha²`. The logarithm is not computed here:
   * `logInvAlpha` stands for the value of `log(1/alpha)`.
   */
  function Radius(cfg: Config, logInvAlpha: real): real
    requires cfg.alpha != 0.0
  {
    cfg.radius * (logInvAlpha / cfg.alpha / cfg.alpha)
  }

  /** The variance floor `(alpha/12)²`. */
  function ScaleFloor(alpha: real): real
  {
    (alpha / 12.0) * (alpha / 12.0)
  }

  /** The floor equals `alpha²/144` and is strictly positive for a positive `alpha`. */
  lemma ScaleFloorPositive(alpha: real)
    requires alpha > 0.0
    ensures ScaleFloor(alpha) == alpha * alpha / 144.0
    ensures ScaleFloor(alpha) > 0.0
  {
    calc {
      ScaleFloor(alpha);
      (alpha / 12.0) * (alpha / 12.0);
    >
      0.0;
    }
  }

  /** `CensoredNormalProjectionSet(emp_loc, emp_scale)`, given the empirical moments themselves. */
  function NewProjectionSet(cfg: Config, logInvAlpha: real, empLoc: seq<real>, empScale: seq<real>): (p: ProjectionSet)
    requires cfg.alpha != 0.0
    ensures p.Enabled? <==> cfg.clamp
    ensures p.Enabled? ==> p.scale.Shaped(|empScale|)
  {
    Build(empLoc, empScale, Radius(cfg, logInvAlpha), ScaleFloor(cfg.alpha), cfg.clamp)
  }

  /** The location bounds are `emp_loc ± radius`, and hold `emp_loc` for a non-negative radius. */
  lemma LocBoundsAroundEmpirical(cfg: Config, l: real, empLoc: seq<real>, empScale: seq<real>)
    requires cfg.alpha != 0.0 && cfg.clamp
    ensures var p := NewProjectionSet(cfg, l, empLoc, empScale);
            && p.loc.Shaped(|empLoc|)
            && (forall k :: 0 <= k < |empLoc| ==>
                  p.loc.lower[k] == empLoc[k] - Radius(cfg, l) && p.loc.upper[k] == empLoc[k] + Radius(cfg, l))
            && (Radius(cfg, l) >= 0.0 ==> p.loc.NonEmpty() && p.loc.Contains(empLoc))
  {
  }

  /** Every scale lower bound is at least `alpha²/144`, hence strictly positive. */
  lemma ScaleLowerAboveFloor(cfg: Config, l: real, empLoc: seq<real>, empScale: seq<real>)
    requires cfg.alpha > 0.0 && cfg.clamp
    ensures var p := NewProjectionSet(cfg, l, empLoc, empScale);
            forall k :: 0 <= k < |empScale| ==>
              cfg.alpha * cfg.alpha / 144.0 <= p.scale.lower[k] && 0.0 < p.scale.lower[k]
  {
    ScaleFloorPositive(cfg.alpha);
  }

  /** For a non-negative radius, a scale interval is non-empty exactly when `(alpha/12)² <= emp_scale + radius`. */
  lemma ScaleNonEmptyIff(cfg: Config, l: real, empLoc: seq<real>, empScale: seq<real>, k: nat)
    requires cfg.alpha != 0.0 && cfg.clamp && Radius(cfg, l) >= 0.0 && k < |empScale|
    ensures var p := NewProjectionSet(cfg, l, empLoc, empScale);
            p.scale.lower[k] <= p.scale.upper[k] <==> ScaleFloor(cfg.alpha) <= empScale[k] + Radius(cfg, l)
  {
    NormalProjection.ScaleNonEmptyIff(empLoc, empScale, Radius(cfg, l), ScaleFloor(cfg.alpha), k);
  }

  /**
   * With clamping on, a successful hook leaves the location within `emp_loc ± radius` and every
   * covariance entry within the scale bounds, so strictly positive.
   */
  lemma HookInBounds(cfg: Config, l: real, empLoc: seq<real>, empScale: seq<real>, m: Normal)
    requires cfg.alpha > 0.0 && cfg.clamp && Radius(cfg, l) >= 0.0
    requires Hook(NewProjectionSet(cfg, l, empLoc, empScale), m).Ok?
    ensures var p := NewProjectionSet(cfg, l, empLoc, empScale);
            var m1 := Hook(p, m).value;
            && (forall k :: 0 <= k < |m1.loc| ==> Within(m1.loc[k], empLoc[0] - Radius(cfg, l), empLoc[0] + Radius(cfg, l)))
            && (p.scale.NonEmpty() ==> forall k :: 0 <= k < |m1.cov| ==>
                  Within(m1.cov[k], p.scale.lower[0], p.scale.upper[0]) && 0.0 < m1.cov[k])
  {
    var p := NewProjectionSet(cfg, l, empLoc, empScale);
    ScaleLowerAboveFloor(cfg, l, empLoc, empScale);
    assert p.loc.NonEmpty();
  }

  /** Applying the hook twice gives the same estimate as applying it once. */
  lemma HookTwiceIsOnce(cfg: Config, l: real, empLoc: seq<real>, empScale: seq<real>, m: Normal)
    requires cfg.alpha != 0.0
    requires Hook(NewProjectionSet(cfg, l, empLoc, empScale), m).Ok?
    ensures var p := NewProjectionSet(cfg, l, empLoc, empScale);
            Hook(p, Hook(p, m).value) == Hook(p, m)
  {
    HookIdempotent(NewProjectionSet(cfg, l, empLoc, empScale), m);
  }

  /** With clamping off, the hook leaves location and covariance unchanged. */
  lemma HookDisabledKeeps(cfg: Config, l: real, empLoc: seq<real>, empScale: seq<real>, m: Normal)
    requires cfg.alpha != 0.0 && !cfg.clamp
    ensures Hook(NewProjectionSet(cfg, l, empLoc, empScale), m) == Ok(m)
  {
  }

  /** The empirical moments the dataset computes (`loaders[0].dataset.loc` and `.var`). */
  datatype Moments = Moments(loc: seq<real>, variance: seq<real>)

  /** The estimator's own fields `emp_loc` and `emp_var`. */
  datatype Estimator = Estimator(empLoc: Option<seq<real>>, empVar: Option<seq<real>>)

  /** The estimator after `__init__`: both fields hold `None`, and nothing assigns them later. */
  function NewEstimator(): Estimator
  {
    Estimator(None, None)
  }

  /** The constructor on Python values that may be `None`: `emp_loc.clone()` on `None` raises. */
  function NewProjectionSetFrom(cfg: Config, l: real, empLoc: Option<seq<real>>, empScale: Option<seq<real>>): (r: Result<ProjectionSet>)
    requires cfg.alpha != 0.0
    ensures r.Ok? <==> empLoc.Some? && empScale.Some?
    ensures r.Err? ==> r.error == NoneHasNoClone
    ensures r.Ok? ==> (r.value.Enabled? <==> cfg.clamp)
    ensures r.Ok? && r.value.Enabled? ==> r.value.loc == BoxAround(empLoc.value, Radius(cfg, l))
  {
    if empLoc.None? || empScale.None? then Err(NoneHasNoClone)
    else Ok(NewProjectionSet(cfg, l, empLoc.value, empScale.value))
  }

  /** The projection set `fit` builds as written: from the estimator's fields, not from the dataset's moments. */
  function FitProjectionSet(est: Estimator, data: Moments, cfg: Config, l: real): (r: Result<ProjectionSet>)
    requires cfg.alpha != 0.0
    ensures r.Ok? <==> est.empLoc.Some? && est.empVar.Some?
    ensures r.Err? ==> r.error == NoneHasNoClone
    ensures r.Ok? && r.value.Enabled? ==> r.value.loc == BoxAround(est.empLoc.value, Radius(cfg, l))
  {
    NewProjectionSetFrom(cfg, l, est.empLoc, est.empVar)
  }

  /** On a freshly constructed estimator `fit` raises before any optimisation, whatever the data and settings. */
  lemma FitRaisesOnFreshEstimator(data: Moments, cfg: Config, l: real)
    requires cfg.alpha != 0.0
    ensures FitProjectionSet(NewEstimator(), data, cfg, l) == Err(NoneHasNoClone)
  {
  }

  /** The projection set `fit` evidently means to build: around the dataset's empirical moments. */
  function FitProjectionSetFromData(data: Moments, cfg: Config, l: real): (p: ProjectionSet)
    requires cfg.alpha != 0.0
    ensures p.Enabled? <==> cfg.clamp
    ensures p.Enabled? ==> p.loc == BoxAround(data.loc, Radius(cfg, l)) && p.scale.Shaped(|data.variance|)
    ensures NewProjectionSetFrom(cfg, l, Some(data.loc), Some(data.variance)) == Ok(p)
  {
    NewProjectionSet(cfg, l, data.loc, data.variance)
  }

  /** The gradients `backward` returns: location, covariance (d×d), and none for the samples. */
  datatype Gradients = Gradients(loc: seq<real>, cov: seq<seq<real>>, samples: Option<seq<real>>)

  /**
   * The return line of `backward`: the entries after the first `d²` of the flat gradient become the
   * location gradient, the first `d²` reshaped to d×d the covariance gradient; the samples get none.
   * `reshape` raises when fewer than `d²` entries are there.
   */
  function SplitGradient(grad: seq<real>, d: nat): (r: Result<Gradients>)
    ensures r.Ok? <==> |grad| >= d * d
    ensures r.Err? ==> r.error == ReshapeMismatch
    ensures r.Ok? ==> |r.value.cov| == d && forall i :: 0 <= i < d ==> |r.value.cov[i]| == d
    ensures r.Ok? ==> |r.value.loc| == |grad| - d * d && r.value.samples.None?
  {
    if |grad| < d * d then Err(ReshapeMismatch)
    else Ok(Gradients(grad[d * d..], Reshape(grad[..d * d], d, d), None))
  }

  /** Entry `(i, j)` of the covariance gradient is entry `i*d + j` of the flat gradient. */
  lemma SplitGradientCovEntry(grad: seq<real>, d: nat, i: nat, j: nat)
    requires |grad| >= d * d && i < d && j < d
    ensures SplitGradient(grad, d).Ok?
    ensures i * d + j < d * d
    ensures SplitGradient(grad, d).value.cov[i][j] == grad[i * d + j]
  {
    ReshapeEntry(grad[..d * d], d, d, i, j);
  }

  /** Entry `k` of the location gradient is entry `d² + k` of the flat gradient. */
  lemma SplitGradientLocEntry(grad: seq<real>, d: nat, k: nat)
    requires |grad| >= d * d + k + 1
    ensures SplitGradient(grad, d).Ok?
    ensures SplitGradient(grad, d).value.loc[k] == grad[d * d + k]
  {
  }

  /** A gradient of length `d² + d` splits into a d×d covariance gradient and a length-`d` location gradient that together give it back. */
  lemma SplitGradientRoundTrip(grad: seq<real>, d: nat)
    requires |grad| == d * d + d
    ensures SplitGradient(grad, d).Ok?
    ensures var g := SplitGradient(grad, d).value;
            |g.loc| == d && Flatten(g.cov) + g.loc == grad
  {
    FlattenReshape(grad[..d * d], d, d);
    assert grad[..d * d] + grad[d * d..] == grad;
  }
}
