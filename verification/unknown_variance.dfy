/**
 * Truncated regression with an unknown noise variance. The layer `LinearUnknownVariance` stores
 * `v = weight·λ`, `bias·λ` and `λ = 1/variance`; its projection set
 * (`TruncatedUnknownVarianceProjectionSet`) clamps the variance into
 * `[emp_var/radius, emp_var/alpha²]` and the recovered weight and bias into
 * `emp ± radius·(12 + 4·log(2/alpha))`, then stores them again multiplied by the new `λ`.
 */
module UnknownVariance {
  import opened Outcomes
  import opened Intervals
  import opened Tensors

  /** The settings the projection set reads: survival-probability bound, radius multiplier, bias and clamp switches. */
  datatype Config = Config(alpha: real, radius: real, bias: bool, clamp: bool)

  /** The parameters of `LinearUnknownVariance`: `v`, `lambda_` and the (possibly empty) `bias`. */
  datatype Model = Model(v: seq<real>, lambda: real, bias: Option<real>)

  /** The bounds; `Disabled` when built with `clamp` off, no bias interval when `bias` is off. */
  datatype ProjectionSet = Disabled | Enabled(weight: Box, variance: Interval, bias: Option<Interval>)

  /** `x.inverse()` of a scalar: `1/x`, raising when `x` is zero (singular). */
  function Inverse(x: real): (r: Result<real>)
    ensures r.Ok? <==> x != 0.0
    ensures r.Ok? ==> r.value * x == 1.0 && r.value != 0.0
  {
    if x == 0.0 then Err(Singular) else Ok(1.0 / x)
  }

  /** Inverting twice gives back the number. */
  lemma InverseInverse(c: real)
    requires c != 0.0
    ensures 1.0 / c != 0.0 && 1.0 / (1.0 / c) == c
  {
  }

  /** Multiplying by `c` and then by `1/c` gives back the number. */
  lemma MulInverse(b: real, c: real)
    requires c != 0.0
    ensures (b * c) * (1.0 / c) == b
  {
    calc {
      (b * c) * (1.0 / c);
      b * (c * (1.0 / c));
      b;
    }
  }

  /** The noise variance a layer stands for, `1/λ`. */
  function Variance(m: Model): real
    requires m.lambda != 0.0
  {
    1.0 / m.lambda
  }

  /** The weight a layer stands for, `v·(1/λ)`. */
  function Weight(m: Model): seq<real>
    requires m.lambda != 0.0
  {
    Scale(m.v, 1.0 / m.lambda)
  }

  /** The bias a layer stands for, `bias·(1/λ)`, when it has one. */
  function BiasValue(m: Model): Option<real>
    requires m.lambda != 0.0
  {
    if m.bias.Some? then Some(m.bias.value * (1.0 / m.lambda)) else None
  }

  /** The stored form of a weight, bias and variance: `v = weight·λ`, `bias·λ`, `λ = 1/variance`. */
  function Encode(weight: seq<real>, bias: Option<real>, variance: real): (m: Model)
    requires variance != 0.0
    ensures m.lambda != 0.0
  {
    var lambda := 1.0 / variance;
    Model(Scale(weight, lambda), lambda, if bias.Some? then Some(bias.value * lambda) else None)
  }

  /** Decoding the stored form gives back exactly the weight, bias and variance that were stored. */
  lemma EncodeRoundTrip(weight: seq<real>, bias: Option<real>, variance: real)
    requires variance != 0.0
    ensures var m := Encode(weight, bias, variance);
            Variance(m) == variance && Weight(m) == weight && BiasValue(m) == bias
  {
    var lambda := 1.0 / variance;
    assert 1.0 / lambda == variance;
    ScaleInverse(weight, lambda);
    var m := Encode(weight, bias, variance);
    assert m.lambda == lambda;
    if bias.Some? {
      calc {
        BiasValue(m).value;
        (bias.value * lambda) * (1.0 / lambda);
        bias.value * (lambda * (1.0 / lambda));
        bias.value;
      }
    }
  }

  /**
   * The parameter radius `radius · (12 + 4·log(2/alpha))`. The logarithm is not computed here:
   * `logTwoOverAlpha` stands for the value of `log(2/alpha)`.
   */
  function ParamRadius(cfg: Config, logTwoOverAlpha: real): (pr: real)
    ensures cfg.radius >= 0.0 && logTwoOverAlpha >= 0.0 ==> pr >= 12.0 * cfg.radius
  {
    cfg.radius * (12.0 + 4.0 * logTwoOverAlpha)
  }

  /**
   * `TruncatedUnknownVarianceProjectionSet(emp_lin_reg)`: inverting the empirical `λ` raises when it
   * is zero; otherwise the bounds are centred on the empirical weight, variance and bias it stands for.
   */
  function NewProjectionSet(cfg: Config, logTwoOverAlpha: real, emp: Model): (r: Result<ProjectionSet>)
    requires cfg.clamp ==> cfg.radius != 0.0 && cfg.alpha != 0.0
    requires cfg.bias ==> emp.bias.Some?
    ensures r.Ok? <==> emp.lambda != 0.0
    ensures r.Err? ==> r.error == Singular
    ensures r.Ok? ==> (r.value.Enabled? <==> cfg.clamp)
    ensures r.Ok? && r.value.Enabled? ==>
              && r.value.weight == BoxAround(Weight(emp), ParamRadius(cfg, logTwoOverAlpha))
              && (r.value.bias.Some? <==> cfg.bias)
              && (r.value.bias.Some? ==> r.value.bias.value == Around(BiasValue(emp).value, ParamRadius(cfg, logTwoOverAlpha)))
              && r.value.variance.lower == Variance(emp) / cfg.radius
              && r.value.variance.upper == Variance(emp) / (cfg.alpha * cfg.alpha)
  {
    var empVar :- Inverse(emp.lambda);
    var empWeight := Scale(emp.v, empVar);
    var paramRadius := ParamRadius(cfg, logTwoOverAlpha);
    if cfg.clamp then
      Ok(Enabled(BoxAround(empWeight, paramRadius),
                 Interval(empVar / cfg.radius, empVar / (cfg.alpha * cfg.alpha)),
                 if cfg.bias then Some(Around(emp.bias.value * empVar, paramRadius)) else None))
    else
      Ok(Disabled)
  }

  /** Inside the variance interval the lower end is `emp_var/radius` and the upper `emp_var/alpha²`; for a positive radius and variance it is non-empty exactly when `alpha² <= radius`. */
  lemma VarianceBoundsNonEmptyIff(cfg: Config, l: real, emp: Model)
    requires cfg.clamp && cfg.radius > 0.0 && cfg.alpha != 0.0 && (cfg.bias ==> emp.bias.Some?)
    requires emp.lambda > 0.0
    ensures var p := NewProjectionSet(cfg, l, emp).value;
            && 0.0 < p.variance.lower && 0.0 < p.variance.upper
            && (p.variance.NonEmpty() <==> cfg.alpha * cfg.alpha <= cfg.radius)
  {
    var p := NewProjectionSet(cfg, l, emp).value;
    var e := Variance(emp);
    var a2 := cfg.alpha * cfg.alpha;
    assert a2 > 0.0;
    assert e > 0.0;
    assert p.variance.lower == e / cfg.radius;
    assert p.variance.upper == e / a2;
    DivideOrder(e, cfg.radius, a2);
  }

  /** Dividing a positive number by the larger of two positive divisors gives the smaller quotient. */
  lemma DivideOrder(e: real, x: real, y: real)
    requires e > 0.0 && x > 0.0 && y > 0.0
    ensures e / x <= e / y <==> y <= x
  {
    assert e / x == (e * y) / (x * y) && e / y == (e * x) / (x * y);
    assert x * y > 0.0;
    assert e / x <= e / y <==> e * y <= e * x;
  }

  /**
   * The bias step of the hook: with bias bounds, the stored bias times the old variance, clamped,
   * times the new `λ`; without them the bias as it is.
   */
  function ClampStored(bounds: Option<Interval>, bias: Option<real>, variance: real, lambda: real): Option<real>
    requires bounds.Some? ==> bias.Some?
  {
    if bounds.Some? then Some(Clamp(bias.value * variance, bounds.value.lower, bounds.value.upper) * lambda)
    else bias
  }

  /** The shapes a layer must have for the hook of `p`. */
  predicate Fits(p: ProjectionSet, m: Model)
  {
    p.Enabled? ==> p.weight.Shaped(|m.v|) && (p.bias.Some? ==> m.bias.Some?)
  }

  /**
   * The post-step hook. It inverts `λ` first, raising when it is zero; with clamping on it clamps the
   * variance and inverts it back into the new `λ` (raising when the clamped variance is zero), clamps
   * the weight `v·var` coordinate by coordinate and the bias `bias·var`, and stores both multiplied
   * by the new `λ`.
   */
  function Hook(p: ProjectionSet, m: Model): (r: Result<Model>)
    requires Fits(p, m)
    ensures m.lambda == 0.0 ==> r == Err(Singular)
    ensures p.Disabled? && m.lambda != 0.0 ==> r == Ok(m)
    ensures r.Err? ==> r.error == Singular
    ensures r.Ok? ==> r.value.lambda != 0.0 && |r.value.v| == |m.v| && r.value.bias.Some? == m.bias.Some?
    ensures r.Ok? && p.Enabled? && p.bias.None? ==> r.value.bias == m.bias
  {
    var variance :- Inverse(m.lambda);
    var weight := Scale(m.v, variance);
    match p
    case Disabled => Ok(m)
    case Enabled(weightBounds, varianceBounds, biasBounds) =>
      var lambda :- Inverse(Clamp(variance, varianceBounds.lower, varianceBounds.upper));
      var v := Scale(ClampEach(weight, weightBounds), lambda);
      var bias := ClampStored(biasBounds, m.bias, variance, lambda);
      Ok(Model(v, lambda, bias))
  }

  /** The hook's result on an enabled set, written out in terms of the clamped variance `c`. */
  lemma HookEnabledValue(p: ProjectionSet, m: Model, c: real)
    requires Fits(p, m) && p.Enabled? && m.lambda != 0.0
    requires c == Clamp(1.0 / m.lambda, p.variance.lower, p.variance.upper)
    ensures c == 0.0 ==> Hook(p, m) == Err(Singular)
    ensures c != 0.0 ==>
              && Hook(p, m).Ok?
              && Hook(p, m).value.lambda == 1.0 / c
              && Hook(p, m).value.v == Scale(ClampEach(Weight(m), p.weight), 1.0 / c)
              && Hook(p, m).value.bias == ClampStored(p.bias, m.bias, 1.0 / m.lambda, 1.0 / c)
  {
    assert Inverse(m.lambda) == Ok(1.0 / m.lambda);
    if c != 0.0 {
      assert Inverse(c) == Ok(1.0 / c);
      var r := Hook(p, m);
      assert r.value.lambda == 1.0 / c;
      assert r.value.v == Scale(ClampEach(Weight(m), p.weight), 1.0 / c);
      assert r.value.bias == ClampStored(p.bias, m.bias, 1.0 / m.lambda, 1.0 / c);
    }
  }

  /** After the hook the variance `1/λ` is the clamped variance. */
  lemma HookRecoversVariance(p: ProjectionSet, m: Model)
    requires Fits(p, m) && p.Enabled? && Hook(p, m).Ok?
    ensures Variance(Hook(p, m).value) == Clamp(Variance(m), p.variance.lower, p.variance.upper)
  {
    var c := Clamp(1.0 / m.lambda, p.variance.lower, p.variance.upper);
    HookEnabledValue(p, m, c);
    InverseInverse(c);
  }

  /** After the hook `v/λ` is exactly the clamped weight. */
  lemma HookRecoversWeight(p: ProjectionSet, m: Model)
    requires Fits(p, m) && p.Enabled? && Hook(p, m).Ok?
    ensures Weight(Hook(p, m).value) == ClampEach(Weight(m), p.weight)
  {
    var c := Clamp(1.0 / m.lambda, p.variance.lower, p.variance.upper);
    HookEnabledValue(p, m, c);
    InverseInverse(c);
    ScaleInverse(ClampEach(Weight(m), p.weight), 1.0 / c);
  }

  /** A layer whose bias was stored by the hook's bias step reads back the clamped bias. */
  lemma ClampStoredRecovers(bounds: Interval, m: Model, m1: Model, c: real)
    requires m.lambda != 0.0 && m.bias.Some? && c != 0.0
    requires m1.lambda == 1.0 / c
    requires m1.bias == ClampStored(Some(bounds), m.bias, 1.0 / m.lambda, 1.0 / c)
    ensures m1.lambda != 0.0 && BiasValue(m1).Some?
    ensures BiasValue(m1).value == Clamp(BiasValue(m).value, bounds.lower, bounds.upper)
  {
    var b := Clamp(m.bias.value * (1.0 / m.lambda), bounds.lower, bounds.upper);
    InverseInverse(c);
    MulInverse(b, 1.0 / c);
  }

  /** After the hook, with bias bounds, `bias/λ` is exactly the clamped bias. */
  lemma HookRecoversBias(p: ProjectionSet, m: Model)
    requires Fits(p, m) && p.Enabled? && p.bias.Some? && Hook(p, m).Ok?
    ensures BiasValue(Hook(p, m).value).Some?
    ensures BiasValue(Hook(p, m).value).value == Clamp(BiasValue(m).value, p.bias.value.lower, p.bias.value.upper)
  {
    var c := Clamp(1.0 / m.lambda, p.variance.lower, p.variance.upper);
    HookEnabledValue(p, m, c);
    ClampStoredRecovers(p.bias.value, m, Hook(p, m).value, c);
  }

  /**
   * What the hook does to the values the layer stands for: the new variance `1/λ` is the clamped
   * variance, and `v/λ` and `bias/λ` give back exactly the clamped weight and bias.
   */
  lemma HookRecovers(p: ProjectionSet, m: Model)
    requires Fits(p, m) && p.Enabled? && Hook(p, m).Ok?
    ensures var m1 := Hook(p, m).value;
            && Variance(m1) == Clamp(Variance(m), p.variance.lower, p.variance.upper)
            && Weight(m1) == ClampEach(Weight(m), p.weight)
            && (p.bias.Some? ==>
                  BiasValue(m1).Some? && BiasValue(m1).value == Clamp(BiasValue(m).value, p.bias.value.lower, p.bias.value.upper))
  {
    HookRecoversVariance(p, m);
    HookRecoversWeight(p, m);
    if p.bias.Some? {
      HookRecoversBias(p, m);
    }
  }

  /**
   * With clamping on, after the hook the variance `1/λ` lies in `[emp_var/radius, emp_var/alpha²]`
   * when that interval is non-empty.
   */
  lemma HookVarianceInBounds(cfg: Config, l: real, emp: Model, m: Model)
    requires cfg.clamp && cfg.radius != 0.0 && cfg.alpha != 0.0 && (cfg.bias ==> emp.bias.Some?)
    requires NewProjectionSet(cfg, l, emp).Ok?
    requires Fits(NewProjectionSet(cfg, l, emp).value, m)
    requires Hook(NewProjectionSet(cfg, l, emp).value, m).Ok?
    ensures var lo := Variance(emp) / cfg.radius;
            var hi := Variance(emp) / (cfg.alpha * cfg.alpha);
            lo <= hi ==> Within(Variance(Hook(NewProjectionSet(cfg, l, emp).value, m).value), lo, hi)
  {
    var p := NewProjectionSet(cfg, l, emp).value;
    HookRecoversVariance(p, m);
    assert p.variance == Interval(Variance(emp) / cfg.radius, Variance(emp) / (cfg.alpha * cfg.alpha));
  }

  /**
   * With clamping on and a non-negative parameter radius, after the hook every coordinate of `v/λ`
   * lies in `emp_weight ± param_radius`.
   */
  lemma HookWeightInBounds(cfg: Config, l: real, emp: Model, m: Model)
    requires cfg.clamp && cfg.radius != 0.0 && cfg.alpha != 0.0 && (cfg.bias ==> emp.bias.Some?)
    requires NewProjectionSet(cfg, l, emp).Ok?
    requires Fits(NewProjectionSet(cfg, l, emp).value, m)
    requires Hook(NewProjectionSet(cfg, l, emp).value, m).Ok?
    ensures var m1 := Hook(NewProjectionSet(cfg, l, emp).value, m).value;
            var pr := ParamRadius(cfg, l);
            pr >= 0.0 ==> forall i :: 0 <= i < |m.v| ==>
              Within(Weight(m1)[i], Weight(emp)[i] - pr, Weight(emp)[i] + pr)
  {
    var p := NewProjectionSet(cfg, l, emp).value;
    HookRecoversWeight(p, m);
    if ParamRadius(cfg, l) >= 0.0 {
      assert p.weight.NonEmpty();
    }
  }

  /**
   * With clamping on, the bias switch on and a non-negative parameter radius, after the hook `bias/λ`
   * lies in `emp_bias ± param_radius`.
   */
  lemma HookBiasInBounds(cfg: Config, l: real, emp: Model, m: Model)
    requires cfg.clamp && cfg.radius != 0.0 && cfg.alpha != 0.0 && (cfg.bias ==> emp.bias.Some?)
    requires NewProjectionSet(cfg, l, emp).Ok?
    requires Fits(NewProjectionSet(cfg, l, emp).value, m)
    requires Hook(NewProjectionSet(cfg, l, emp).value, m).Ok?
    ensures var m1 := Hook(NewProjectionSet(cfg, l, emp).value, m).value;
            var pr := ParamRadius(cfg, l);
            pr >= 0.0 && cfg.bias ==> Within(BiasValue(m1).value, BiasValue(emp).value - pr, BiasValue(emp).value + pr)
  {
    var p := NewProjectionSet(cfg, l, emp).value;
    if cfg.bias {
      HookRecoversBias(p, m);
    }
  }

  /** On an enabled set the hook's output is a fixed point of the hook's variance step. */
  lemma HookKeepsLambda(p: ProjectionSet, m: Model)
    requires Fits(p, m) && p.Enabled? && Hook(p, m).Ok?
    ensures Fits(p, Hook(p, m).value)
    ensures Hook(p, Hook(p, m).value).Ok? && Hook(p, Hook(p, m).value).value.lambda == Hook(p, m).value.lambda
  {
    var m1 := Hook(p, m).value;
    HookRecoversVariance(p, m);
    var c := Variance(m1);
    ClampIdempotent(Variance(m), p.variance.lower, p.variance.upper);
    HookEnabledValue(p, m1, c);
    InverseInverse(m1.lambda);
  }

  /** On an enabled set the hook's output is a fixed point of the hook's weight step. */
  lemma HookKeepsWeight(p: ProjectionSet, m: Model)
    requires Fits(p, m) && p.Enabled? && Hook(p, m).Ok?
    ensures Fits(p, Hook(p, m).value) && Hook(p, Hook(p, m).value).Ok?
    ensures Hook(p, Hook(p, m).value).value.v == Hook(p, m).value.v
  {
    var m1 := Hook(p, m).value;
    HookRecoversVariance(p, m);
    HookRecoversWeight(p, m);
    var c := Variance(m1);
    ClampIdempotent(Variance(m), p.variance.lower, p.variance.upper);
    HookEnabledValue(p, m1, c);
    ClampEachIdempotent(Weight(m), p.weight);
    InverseInverse(m1.lambda);
    ScaleInverse(m1.v, c);
  }

  /** A layer whose bias already reads back inside the bounds keeps its stored bias under the bias step. */
  lemma ClampStoredKeeps(bounds: Interval, m1: Model)
    requires m1.lambda != 0.0 && m1.bias.Some?
    requires Clamp(BiasValue(m1).value, bounds.lower, bounds.upper) == BiasValue(m1).value
    ensures ClampStored(Some(bounds), m1.bias, Variance(m1), 1.0 / Variance(m1)) == m1.bias
  {
    var v := Variance(m1);
    var x := ClampStored(Some(bounds), m1.bias, v, 1.0 / v);
    assert BiasValue(m1).value == m1.bias.value * v;
    MulInverse(m1.bias.value, v);
    calc {
      x.value;
      Clamp(m1.bias.value * v, bounds.lower, bounds.upper) * (1.0 / v);
      (m1.bias.value * v) * (1.0 / v);
      m1.bias.value;
    }
  }

  /** On an enabled set the hook's output is a fixed point of the hook's bias step. */
  lemma HookKeepsBias(p: ProjectionSet, m: Model)
    requires Fits(p, m) && p.Enabled? && Hook(p, m).Ok?
    ensures Fits(p, Hook(p, m).value) && Hook(p, Hook(p, m).value).Ok?
    ensures Hook(p, Hook(p, m).value).value.bias == Hook(p, m).value.bias
  {
    var m1 := Hook(p, m).value;
    HookRecoversVariance(p, m);
    var c := Variance(m1);
    ClampIdempotent(Variance(m), p.variance.lower, p.variance.upper);
    HookEnabledValue(p, m1, c);
    if p.bias.Some? {
      HookRecoversBias(p, m);
      ClampIdempotent(BiasValue(m).value, p.bias.value.lower, p.bias.value.upper);
      ClampStoredKeeps(p.bias.value, m1);
    }
  }

  /** Applying the hook to its own output changes nothing. */
  lemma HookIdempotent(p: ProjectionSet, m: Model)
    requires Fits(p, m) && Hook(p, m).Ok?
    ensures Fits(p, Hook(p, m).value)
    ensures Hook(p, Hook(p, m).value) == Hook(p, m)
  {
    if p.Enabled? {
      HookKeepsLambda(p, m);
      HookKeepsWeight(p, m);
      HookKeepsBias(p, m);
    }
  }

  /**
   * A set built with clamping on, a positive radius and a non-singular empirical `λ` never makes the
   * hook raise on a non-singular layer: the clamped variance keeps the sign of `emp_var`.
   */
  lemma HookNeverSingular(cfg: Config, l: real, emp: Model, m: Model)
    requires cfg.clamp && cfg.radius > 0.0 && cfg.alpha != 0.0 && (cfg.bias ==> emp.bias.Some?)
    requires emp.lambda != 0.0 && m.lambda != 0.0
    requires Fits(NewProjectionSet(cfg, l, emp).value, m)
    ensures Hook(NewProjectionSet(cfg, l, emp).value, m).Ok?
  {
    var p := NewProjectionSet(cfg, l, emp).value;
    var e := Variance(emp);
    var a2 := cfg.alpha * cfg.alpha;
    assert a2 > 0.0;
    assert p.variance.lower == e / cfg.radius && p.variance.upper == e / a2;
    var c := Clamp(Variance(m), p.variance.lower, p.variance.upper);
    if e > 0.0 {
      assert e / cfg.radius > 0.0 && e / a2 > 0.0;
    } else {
      assert e < 0.0;
      assert e / a2 < 0.0;
    }
    assert c != 0.0;
  }

  /** With clamping off, the hook leaves a non-singular layer unchanged. */
  lemma HookDisabledKeeps(cfg: Config, l: real, emp: Model, m: Model)
    requires !cfg.clamp && (cfg.bias ==> emp.bias.Some?)
    requires emp.lambda != 0.0 && m.lambda != 0.0
    ensures Hook(NewProjectionSet(cfg, l, emp).value, m) == Ok(m)
  {
  }

  /** Feature rows times a weight, plus the bias when there is one: the plain linear model. */
  function Predict(x: seq<seq<real>>, w: seq<real>, b: Option<real>): (y: seq<real>)
    requires forall i :: 0 <= i < |x| ==> |x[i]| == |w|
    ensures |y| == |x|
  {
    seq(|x|, i requires 0 <= i < |x| => if b.Some? then Dot(x[i], w) + b.value else Dot(x[i], w))
  }

  /** `LinearUnknownVariance.forward`: `x·(v·var) + bias·var` with `var = 1/λ`, the bias term only when the bias is non-empty. */
  function Forward(m: Model, x: seq<seq<real>>): (r: Result<seq<real>>)
    requires forall i :: 0 <= i < |x| ==> |x[i]| == |m.v|
    ensures r.Ok? <==> m.lambda != 0.0
    ensures r.Err? ==> r.error == Singular
    ensures r.Ok? ==> |r.value| == |x|
  {
    var variance :- Inverse(m.lambda);
    var w := Scale(m.v, variance);
    if m.bias.Some? then
      Ok(seq(|x|, i requires 0 <= i < |x| => Dot(x[i], w) + m.bias.value * variance))
    else
      Ok(seq(|x|, i requires 0 <= i < |x| => Dot(x[i], w)))
  }

  /** The forward pass is the plain linear model at the weight and bias the layer stands for. */
  lemma ForwardIsLinearModel(m: Model, x: seq<seq<real>>)
    requires forall i :: 0 <= i < |x| ==> |x[i]| == |m.v|
    requires m.lambda != 0.0
    ensures Forward(m, x).Ok? && Forward(m, x).value == Predict(x, Weight(m), BiasValue(m))
  {
    assert Inverse(m.lambda) == Ok(1.0 / m.lambda);
    var y := Forward(m, x).value;
    var z := Predict(x, Weight(m), BiasValue(m));
    forall i | 0 <= i < |x|
      ensures y[i] == z[i]
    {
    }
    assert y == z;
  }

  /** Each prediction is the score in stored coordinates, `x·v + bias`, divided by `λ`. */
  lemma ForwardDividesScore(m: Model, x: seq<seq<real>>, i: nat)
    requires forall i :: 0 <= i < |x| ==> |x[i]| == |m.v|
    requires m.lambda != 0.0 && i < |x|
    ensures Forward(m, x).value[i] == (Dot(x[i], m.v) + (if m.bias.Some? then m.bias.value else 0.0)) / m.lambda
  {
    DotScale(x[i], m.v, 1.0 / m.lambda);
    var b := if m.bias.Some? then m.bias.value else 0.0;
    calc {
      Forward(m, x).value[i];
      Dot(x[i], m.v) * (1.0 / m.lambda) + b * (1.0 / m.lambda);
      (Dot(x[i], m.v) + b) * (1.0 / m.lambda);
      (Dot(x[i], m.v) + b) / m.lambda;
    }
  }

  /** Storing a weight, bias and variance and running the forward pass gives the plain linear model's predictions. */
  lemma ForwardOfEncoded(weight: seq<real>, bias: Option<real>, variance: real, x: seq<seq<real>>)
    requires variance != 0.0
    requires forall i :: 0 <= i < |x| ==> |x[i]| == |weight|
    ensures Forward(Encode(weight, bias, variance), x).Ok?
    ensures Forward(Encode(weight, bias, variance), x).value == Predict(x, weight, bias)
  {
    EncodeRoundTrip(weight, bias, variance);
    ForwardIsLinearModel(Encode(weight, bias, variance), x);
  }
}
