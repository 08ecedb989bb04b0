/**
 * Projection set of the truncated normal estimator with an unknown truncation set
 * (`TruncatedNormalProjectionSet`): location `emp_loc ± radius`, scale from
 * `max(alpha²/12, emp_scale - radius)` to `emp_scale + radius`.
 */
module TruncatedNormal {
  import opened Outcomes
  import opened Intervals
  import opened NormalProjection

  /**
   * The confidence radius `radius · sqrt(log(1/alpha))`. The square root of the logarithm is not
   * computed here: `sqrtLogInvAlpha` stands for its value.
   */
  function Radius(cfg: Config, sqrtLogInvAlpha: real): (rho: real)
    ensures cfg.radius >= 0.0 && sqrtLogInvAlpha >= 0.0 ==> rho >= 0.0
  {
    cfg.radius * sqrtLogInvAlpha
  }

  /** The variance floor `alpha² / 12`. */
  function ScaleFloor(alpha: real): real
  {
    alpha * alpha / 12.0
  }

  /** The variance floor is strictly positive for a positive survival-probability bound. */
  lemma ScaleFloorPositive(alpha: real)
    requires alpha > 0.0
    ensures ScaleFloor(alpha) > 0.0
  {
    calc {
      ScaleFloor(alpha);
      alpha * alpha / 12.0;
    >
      0.0;
    }
  }

  /** `TruncatedNormalProjectionSet(emp_loc, emp_scale)`. */
  function NewProjectionSet(cfg: Config, sqrtLogInvAlpha: real, empLoc: seq<real>, empScale: seq<real>): (p: ProjectionSet)
    ensures p.Enabled? <==> cfg.clamp
    ensures p.Enabled? ==> p.scale.Shaped(|empScale|)
  {
    Build(empLoc, empScale, Radius(cfg, sqrtLogInvAlpha), ScaleFloor(cfg.alpha), cfg.clamp)
  }

  /** The location bounds are exactly `emp_loc - radius` and `emp_loc + radius`, and hold `emp_loc` for a non-negative radius. */
  lemma LocBoundsAroundEmpirical(cfg: Config, s: real, empLoc: seq<real>, empScale: seq<real>)
    requires cfg.clamp
    ensures var p := NewProjectionSet(cfg, s, empLoc, empScale);
            && p.loc.Shaped(|empLoc|)
            && (forall k :: 0 <= k < |empLoc| ==>
                  p.loc.lower[k] == empLoc[k] - Radius(cfg, s) && p.loc.upper[k] == empLoc[k] + Radius(cfg, s))
            && (Radius(cfg, s) >= 0.0 ==> p.loc.NonEmpty() && p.loc.Contains(empLoc))
  {
  }

  /** Every scale lower bound is at least `alpha²/12`, hence strictly positive for `alpha > 0`. */
  lemma ScaleLowerAboveFloor(cfg: Config, s: real, empLoc: seq<real>, empScale: seq<real>)
    requires cfg.clamp && cfg.alpha > 0.0
    ensures var p := NewProjectionSet(cfg, s, empLoc, empScale);
            forall k :: 0 <= k < |empScale| ==>
              cfg.alpha * cfg.alpha / 12.0 <= p.scale.lower[k] && 0.0 < p.scale.lower[k]
  {
    ScaleFloorPositive(cfg.alpha);
  }

  /** For a non-negative radius, a scale interval is non-empty exactly when `alpha²/12 <= emp_scale + radius`. */
  lemma ScaleNonEmptyIff(cfg: Config, s: real, empLoc: seq<real>, empScale: seq<real>, k: nat)
    requires cfg.clamp && Radius(cfg, s) >= 0.0 && k < |empScale|
    ensures var p := NewProjectionSet(cfg, s, empLoc, empScale);
            p.scale.lower[k] <= p.scale.upper[k] <==> cfg.alpha * cfg.alpha / 12.0 <= empScale[k] + Radius(cfg, s)
  {
    NormalProjection.ScaleNonEmptyIff(empLoc, empScale, Radius(cfg, s), ScaleFloor(cfg.alpha), k);
  }

  /** For the same factor, a larger radius multiplier gives location bounds that include the smaller ones. */
  lemma WiderRadiusIncludes(cfg1: Config, cfg2: Config, s: real, empLoc: seq<real>, empScale: seq<real>)
    requires cfg1.clamp && cfg2.clamp && cfg1.alpha == cfg2.alpha
    requires cfg1.radius <= cfg2.radius && s >= 0.0
    ensures NewProjectionSet(cfg2, s, empLoc, empScale).loc.Includes(NewProjectionSet(cfg1, s, empLoc, empScale).loc)
  {
    assert (cfg2.radius - cfg1.radius) * s >= 0.0;
    BoxAroundMonotone(empLoc, Radius(cfg1, s), Radius(cfg2, s));
  }

  /**
   * With clamping on, a successful hook leaves the location within `emp_loc ± radius` and every
   * covariance entry within the scale bounds, so strictly positive when `alpha > 0`.
   */
  lemma HookInBounds(cfg: Config, s: real, empLoc: seq<real>, empScale: seq<real>, m: Normal)
    requires cfg.clamp && cfg.alpha > 0.0 && Radius(cfg, s) >= 0.0
    requires Hook(NewProjectionSet(cfg, s, empLoc, empScale), m).Ok?
    ensures var p := NewProjectionSet(cfg, s, empLoc, empScale);
            var m1 := Hook(p, m).value;
            && (forall k :: 0 <= k < |m1.loc| ==> Within(m1.loc[k], empLoc[0] - Radius(cfg, s), empLoc[0] + Radius(cfg, s)))
            && (p.scale.NonEmpty() ==> forall k :: 0 <= k < |m1.cov| ==>
                  Within(m1.cov[k], p.scale.lower[0], p.scale.upper[0]) && 0.0 < m1.cov[k])
  {
    var p := NewProjectionSet(cfg, s, empLoc, empScale);
    ScaleLowerAboveFloor(cfg, s, empLoc, empScale);
    assert p.loc.NonEmpty();
  }

  /** Applying the hook twice gives the same estimate as applying it once. */
  lemma HookTwiceIsOnce(cfg: Config, s: real, empLoc: seq<real>, empScale: seq<real>, m: Normal)
    requires Hook(NewProjectionSet(cfg, s, empLoc, empScale), m).Ok?
    ensures var p := NewProjectionSet(cfg, s, empLoc, empScale);
            Hook(p, Hook(p, m).value) == Hook(p, m)
  {
    HookIdempotent(NewProjectionSet(cfg, s, empLoc, empScale), m);
  }

  /** With clamping off, the hook leaves location and covariance unchanged. */
  lemma HookDisabledKeeps(cfg: Config, s: real, empLoc: seq<real>, empScale: seq<real>, m: Normal)
    requires !cfg.clamp
    ensures Hook(NewProjectionSet(cfg, s, empLoc, empScale), m) == Ok(m)
  {
  }

  /** In two dimensions (true mean `[1, 1]`, identity covariance) the hook as written raises on every call. */
  lemma HookRaisesInTwoDimensions(cfg: Config, s: real, m: Normal)
    requires cfg.clamp
    ensures Hook(NewProjectionSet(cfg, s, [1.0, 1.0], [1.0, 0.0, 0.0, 1.0]), m) == Err(NotScalar)
  {
    HookRaisesAboveOneDimension(NewProjectionSet(cfg, s, [1.0, 1.0], [1.0, 0.0, 0.0, 1.0]), m);
  }

  /**
   * The entry-wise hook also floors the off-diagonal covariance entries: for the identity covariance
   * `[1, 0, 0, 1]` and a positive radius, both zero off-diagonal entries are moved to a positive value.
   */
  lemma HookEntrywiseMovesOffDiagonal(cfg: Config, s: real, empLoc: seq<real>, m: Normal)
    requires cfg.clamp && cfg.alpha > 0.0 && Radius(cfg, s) > 0.0
    requires |m.loc| == |empLoc| && m.cov == [1.0, 0.0, 0.0, 1.0]
    ensures var p := NewProjectionSet(cfg, s, empLoc, [1.0, 0.0, 0.0, 1.0]);
            && Fits(p, m)
            && HookEntrywise(p, m).cov[1] > 0.0 && HookEntrywise(p, m).cov[2] > 0.0
  {
    var p := NewProjectionSet(cfg, s, empLoc, [1.0, 0.0, 0.0, 1.0]);
    ScaleLowerAboveFloor(cfg, s, empLoc, [1.0, 0.0, 0.0, 1.0]);
    assert p.scale.upper[1] == Radius(cfg, s) && p.scale.upper[2] == Radius(cfg, s);
  }

  /**
   * The entry-wise hook, in any dimension: the location within `emp_loc ± radius` entry by entry,
   * and every covariance entry within its own scale interval, hence strictly positive.
   */
  lemma HookEntrywiseInBounds(cfg: Config, s: real, empLoc: seq<real>, empScale: seq<real>, m: Normal)
    requires cfg.clamp && cfg.alpha > 0.0 && Radius(cfg, s) >= 0.0
    requires |m.loc| == |empLoc| && |m.cov| == |empScale|
    ensures var p := NewProjectionSet(cfg, s, empLoc, empScale);
            && Fits(p, m)
            && p.loc.Contains(HookEntrywise(p, m).loc)
            && (p.scale.NonEmpty() ==>
                  && p.scale.Contains(HookEntrywise(p, m).cov)
                  && forall k :: 0 <= k < |m.cov| ==> 0.0 < HookEntrywise(p, m).cov[k])
  {
    var p := NewProjectionSet(cfg, s, empLoc, empScale);
    ScaleLowerAboveFloor(cfg, s, empLoc, empScale);
    assert p.loc.NonEmpty();
  }
}
