/**
 * Projection set of truncated regression with a known noise variance
 * (`TruncatedRegressionProjectionSet`): each weight coordinate within `emp_weight ± radius` and the
 * bias within `emp_bias ± radius`, where `radius` is the raw multiplier from the configuration.
 * The set also computes `radius · (4·log(2/alpha) + 7)`, but no bound reads that value.
 */
module KnownVariance {
  import opened Outcomes
  import opened Intervals

  /** The settings the projection set reads: radius multiplier, bias switch, clamp switch. */
  datatype Config = Config(radius: real, bias: bool, clamp: bool)

  /** A linear layer: weight coordinates and an optional bias. */
  datatype Linear = Linear(weight: seq<real>, bias: Option<real>)

  /** The bounds; `Disabled` when built with `clamp` off, no bias interval when `bias` is off. */
  datatype ProjectionSet = Disabled | Enabled(weight: Box, bias: Option<Interval>)

  /** `TruncatedRegressionProjectionSet(emp_lin_reg)`, with the empirical weight flattened. */
  function NewProjectionSet(cfg: Config, emp: Linear): (p: ProjectionSet)
    requires cfg.bias ==> emp.bias.Some?
    ensures p.Enabled? <==> cfg.clamp
    ensures p.Enabled? ==> p.weight.Shaped(|emp.weight|) && (p.bias.Some? <==> cfg.bias)
  {
    if cfg.clamp then
      Enabled(BoxAround(emp.weight, cfg.radius),
              if cfg.bias then Some(Around(emp.bias.value, cfg.radius)) else None)
    else
      Disabled
  }

  /** The weight bounds are `emp_weight[i] ± radius` with the raw multiplier, and so are the bias bounds when `bias` is on. */
  lemma BoundsAroundEmpirical(cfg: Config, emp: Linear)
    requires cfg.clamp && (cfg.bias ==> emp.bias.Some?)
    ensures var p := NewProjectionSet(cfg, emp);
            && (forall i :: 0 <= i < |emp.weight| ==>
                  p.weight.lower[i] == emp.weight[i] - cfg.radius && p.weight.upper[i] == emp.weight[i] + cfg.radius)
            && (cfg.bias ==> p.bias == Some(Interval(emp.bias.value - cfg.radius, emp.bias.value + cfg.radius)))
            && (!cfg.bias ==> p.bias.None?)
  {
  }

  /** The shapes a layer must have for the hook of `p`. */
  predicate Fits(p: ProjectionSet, m: Linear)
  {
    p.Enabled? ==> p.weight.Shaped(|m.weight|) && (p.bias.Some? ==> m.bias.Some?)
  }

  /** The hook clamping weight coordinate `i` into interval `i`, and the bias into its interval when there is one. */
  function Hook(p: ProjectionSet, m: Linear): (r: Linear)
    requires Fits(p, m)
    ensures p.Disabled? ==> r == m
    ensures |r.weight| == |m.weight| && r.bias.Some? == m.bias.Some?
    ensures p.Enabled? && p.weight.NonEmpty() ==> p.weight.Contains(r.weight)
    ensures p.Enabled? && p.weight.Contains(m.weight) ==> r.weight == m.weight
    ensures p.Enabled? && p.bias.None? ==> r.bias == m.bias
    ensures p.Enabled? && p.bias.Some? && p.bias.value.NonEmpty() ==> p.bias.value.Contains(r.bias.value)
  {
    match p
    case Disabled => m
    case Enabled(weightBounds, biasBounds) =>
      Linear(ClampEach(m.weight, weightBounds),
             if biasBounds.Some? then Some(Clamp(m.bias.value, biasBounds.value.lower, biasBounds.value.upper))
             else m.bias)
  }

  /**
   * With clamping on and a non-negative radius, after the hook each weight coordinate lies in
   * `emp_weight[i] ± radius`, the bias in `emp_bias ± radius` when `bias` is on, and is untouched otherwise.
   */
  lemma HookInBounds(cfg: Config, emp: Linear, m: Linear)
    requires cfg.clamp && cfg.radius >= 0.0 && (cfg.bias ==> emp.bias.Some?)
    requires |m.weight| == |emp.weight| && (cfg.bias ==> m.bias.Some?)
    ensures var p := NewProjectionSet(cfg, emp);
            && Fits(p, m)
            && (forall i :: 0 <= i < |m.weight| ==>
                  Within(Hook(p, m).weight[i], emp.weight[i] - cfg.radius, emp.weight[i] + cfg.radius))
            && (cfg.bias ==> Within(Hook(p, m).bias.value, emp.bias.value - cfg.radius, emp.bias.value + cfg.radius))
            && (!cfg.bias ==> Hook(p, m).bias == m.bias)
  {
    var p := NewProjectionSet(cfg, emp);
    assert p.weight.NonEmpty();
  }

  /** Applying the hook twice gives the same layer as applying it once. */
  lemma HookIdempotent(p: ProjectionSet, m: Linear)
    requires Fits(p, m)
    ensures Hook(p, Hook(p, m)) == Hook(p, m)
  {
    if p.Enabled? {
      ClampEachIdempotent(m.weight, p.weight);
      if p.bias.Some? {
        ClampIdempotent(m.bias.value, p.bias.value.lower, p.bias.value.upper);
      }
    }
  }

  /** With clamping off, the hook changes nothing. */
  lemma HookDisabledKeeps(cfg: Config, emp: Linear, m: Linear)
    requires !cfg.clamp && (cfg.bias ==> emp.bias.Some?)
    ensures Hook(NewProjectionSet(cfg, emp), m) == m
  {
  }

  /** The layer as `nn.Linear` holds it: one weight row per output (a single row here). */
  datatype LinearRows = LinearRows(weight: seq<seq<real>>, bias: Option<real>)

  /** The shapes a row-layout layer must have for the hook as written: no more rows than intervals. */
  predicate FitsRows(p: ProjectionSet, m: LinearRows)
  {
    p.Enabled? ==>
      |m.weight| <= |p.weight.lower| && |m.weight| <= |p.weight.upper| && (p.bias.Some? ==> m.bias.Some?)
  }

  /**
   * The hook as written: it walks the ROWS of the weight, clamping every entry of row `i` into
   * interval `i`. When the weight is a single 1×d row (a d×1 `dataset.w`, transposed), every
   * coordinate is clamped into the interval of coordinate 0.
   */
  function HookRows(p: ProjectionSet, m: LinearRows): (r: LinearRows)
    requires FitsRows(p, m)
    ensures p.Disabled? ==> r == m
    ensures |r.weight| == |m.weight| && forall i :: 0 <= i < |m.weight| ==> |r.weight[i]| == |m.weight[i]|
    ensures p.Enabled? ==> forall i, j :: 0 <= i < |m.weight| && 0 <= j < |m.weight[i]| && p.weight.lower[i] <= p.weight.upper[i] ==>
              Within(r.weight[i][j], p.weight.lower[i], p.weight.upper[i])
    ensures p.Enabled? && p.bias.None? ==> r.bias == m.bias
  {
    match p
    case Disabled => m
    case Enabled(weightBounds, biasBounds) =>
      LinearRows(seq(|m.weight|, i requires 0 <= i < |m.weight| => ClampAll(m.weight[i], weightBounds.lower[i], weightBounds.upper[i])),
                 if biasBounds.Some? then Some(Clamp(m.bias.value, biasBounds.value.lower, biasBounds.value.upper))
                 else m.bias)
  }

  /** The hook as written, applied to its own output, changes nothing. */
  lemma HookRowsIdempotent(p: ProjectionSet, m: LinearRows)
    requires FitsRows(p, m)
    ensures FitsRows(p, HookRows(p, m))
    ensures HookRows(p, HookRows(p, m)) == HookRows(p, m)
  {
    if p.Enabled? {
      var once := HookRows(p, m);
      forall i | 0 <= i < |m.weight|
        ensures HookRows(p, once).weight[i] == once.weight[i]
      {
        ClampAllIdempotent(m.weight[i], p.weight.lower[i], p.weight.upper[i]);
      }
      if p.bias.Some? {
        ClampIdempotent(m.bias.value, p.bias.value.lower, p.bias.value.upper);
      }
    }
  }

  /** With clamping off, the hook as written changes nothing. */
  lemma HookRowsDisabledKeeps(cfg: Config, emp: Linear, m: LinearRows)
    requires !cfg.clamp && (cfg.bias ==> emp.bias.Some?)
    ensures HookRows(NewProjectionSet(cfg, emp), m) == m
  {
  }

  /**
   * With clamping on and a non-negative radius, the hook as written puts every coordinate of the
   * single weight row into `emp_weight[0] ± radius`, and the bias into `emp_bias ± radius` when `bias` is on.
   */
  lemma HookRowsInBounds(cfg: Config, emp: Linear, m: LinearRows)
    requires cfg.clamp && cfg.radius >= 0.0 && (cfg.bias ==> emp.bias.Some?)
    requires |m.weight| == 1 && 1 <= |emp.weight| && (cfg.bias ==> m.bias.Some?)
    ensures var p := NewProjectionSet(cfg, emp);
            && FitsRows(p, m)
            && (forall j :: 0 <= j < |m.weight[0]| ==>
                  Within(HookRows(p, m).weight[0][j], emp.weight[0] - cfg.radius, emp.weight[0] + cfg.radius))
            && (cfg.bias ==> Within(HookRows(p, m).bias.value, emp.bias.value - cfg.radius, emp.bias.value + cfg.radius))
  {
    var p := NewProjectionSet(cfg, emp);
    assert p.weight.lower[0] <= p.weight.upper[0];
  }

  /**
   * Two features, empirical weight `[0, 10]`, radius 1: the estimate `[[0, 10]]` already lies in the
   * region, yet the hook as written moves its second coordinate to 1, outside `10 ± 1`; the
   * coordinate-wise hook leaves it where it is.
   */
  lemma HookRowsLeavesRegion()
    ensures var p := NewProjectionSet(Config(1.0, false, true), Linear([0.0, 10.0], None));
            && p.weight.Contains([0.0, 10.0])
            && HookRows(p, LinearRows([[0.0, 10.0]], None)).weight == [[0.0, 1.0]]
            && !Within(1.0, p.weight.lower[1], p.weight.upper[1])
            && Hook(p, Linear([0.0, 10.0], None)).weight == [0.0, 10.0]
  {
    var p := NewProjectionSet(Config(1.0, false, true), Linear([0.0, 10.0], None));
    assert p.weight.lower == [-1.0, 9.0] && p.weight.upper == [1.0, 11.0];
    assert HookRows(p, LinearRows([[0.0, 10.0]], None)).weight[0] == [0.0, 1.0];
  }

  /** With a single feature the two hooks agree. */
  lemma HookRowsAgreesInOneDimension(p: ProjectionSet, w: real, b: Option<real>)
    requires Fits(p, Linear([w], b))
    ensures FitsRows(p, LinearRows([[w]], b))
    ensures HookRows(p, LinearRows([[w]], b)) == LinearRows([Hook(p, Linear([w], b)).weight], Hook(p, Linear([w], b)).bias)
  {
    if p.Enabled? {
      assert HookRows(p, LinearRows([[w]], b)).weight[0] == Hook(p, Linear([w], b)).weight;
    }
  }
}
