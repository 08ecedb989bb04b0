/**
 * How the truncated linear regression estimator chooses between its known- and unknown-variance
 * branches: the training criterion in `__init__`, and the dataset flag, model, projection set and
 * parameter groups in `fit`. Every choice tests the Python truthiness of `var`.
 */
module RegressionSetup {
  import opened Outcomes

  /** The two training criteria. */
  datatype Criterion = TruncatedMSE | TruncatedUnknownVarianceMSE

  /** Which of the two branches a choice belongs to. */
  datatype Branch = KnownVariance | UnknownVariance

  /** Python truthiness of `var`, a float or `None`: false for `None` and for `0.0`. */
  predicate Truthy(v: Option<real>)
  {
    v.Some? && v.value != 0.0
  }

  /** `__init__`: the unknown-variance criterion exactly when `var` is falsy. */
  function ChooseCriterion(v: Option<real>): (c: Criterion)
    ensures c == TruncatedUnknownVarianceMSE <==> v == None || v == Some(0.0)
  {
    if !Truthy(v) then TruncatedUnknownVarianceMSE else TruncatedMSE
  }

  /** The learnable parameters of the unknown-variance model. */
  datatype Param = V | Bias | Lambda

  /** One optimiser parameter group; `lr` overrides the default learning rate when present. */
  datatype ParamGroup = ParamGroup(param: Param, lr: Option<real>)

  /** Everything `__init__` and `fit` decide from `var`. */
  datatype Plan = Plan(
    criterion: Criterion,
    unknownData: bool,
    model: Branch,
    projection: Branch,
    updateParams: Option<seq<ParamGroup>>)

  /**
   * The criterion (`__init__`), the dataset's `unknown` flag, the model and projection set, and
   * `update_params` (`fit`): `None` — every parameter at the default rate — with a known variance;
   * `v`, `bias`, and `lambda_` at `var_lr` with an unknown one.
   */
  function Setup(v: Option<real>, varLr: real): (p: Plan)
    ensures p.criterion == ChooseCriterion(v)
    ensures p.updateParams.Some? ==>
              forall i :: 0 <= i < |p.updateParams.value| && p.updateParams.value[i].lr.Some? ==>
                p.updateParams.value[i] == ParamGroup(Lambda, Some(varLr))
  {
    var criterion := ChooseCriterion(v);
    var unknownData := !Truthy(v);
    if Truthy(v) then
      Plan(criterion, unknownData, KnownVariance, KnownVariance, None)
    else
      Plan(criterion, unknownData, UnknownVariance, UnknownVariance,
           Some([ParamGroup(V, None), ParamGroup(Bias, None), ParamGroup(Lambda, Some(varLr))]))
  }

  /**
   * The separate tests of `var` agree: the unknown-variance criterion, the unknown-variance
   * dataset, model and projection set, and the parameter groups all come together, and only that
   * branch gives `lambda_` a group of its own at `var_lr`.
   */
  lemma SetupAgrees(v: Option<real>, varLr: real)
    ensures var p := Setup(v, varLr);
            var unknown := p.criterion == TruncatedUnknownVarianceMSE;
            && (p.unknownData <==> unknown)
            && (p.model == UnknownVariance <==> unknown)
            && (p.projection == UnknownVariance <==> unknown)
            && (p.updateParams.Some? <==> unknown)
            && (p.updateParams.Some? ==>
                  exists i :: 0 <= i < |p.updateParams.value| && p.updateParams.value[i] == ParamGroup(Lambda, Some(varLr)))
  {
    var p := Setup(v, varLr);
    if p.updateParams.Some? {
      assert p.updateParams.value[2] == ParamGroup(Lambda, Some(varLr));
    }
  }
}
