/**
 * The confidence-region projection shared by the two normal families (truncated normal with unknown
 * truncation set, censored normal): bounds around the empirical location and scale, and the post-step
 * hook that clamps the estimate into them. The families differ only in their radius and scale floor.
 */
module NormalProjection {
  import opened Outcomes
  import opened Intervals

  /** The settings a normal family's projection set reads: survival-probability bound, radius multiplier, clamp switch. */
  datatype Config = Config(alpha: real, radius: real, clamp: bool)

  /** The estimate under optimisation: location vector and covariance entries, row-major. */
  datatype Normal = Normal(loc: seq<real>, cov: seq<real>)

  /**
   * The bounds of a projection set. `Disabled` is a set built with `clamp` off: no bounds exist
   * and the hook leaves the estimate alone.
   */
  datatype ProjectionSet = Disabled | Enabled(loc: Box, scale: Box)

  /** Entry-wise `torch.max(floor, s)`. */
  function FloorAt(s: seq<real>, floor: real): (r: seq<real>)
    ensures |r| == |s|
    ensures forall k :: 0 <= k < |s| ==> floor <= r[k] && s[k] <= r[k]
    ensures forall k :: 0 <= k < |s| ==> r[k] == floor || r[k] == s[k]
  {
    seq(|s|, k requires 0 <= k < |s| => Max(floor, s[k]))
  }

  /**
   * The bounds of a normal family: location `empLoc ± radius`, scale entries from
   * `max(floor, empScale - radius)` to `empScale + radius`; none when `clamp` is off.
   */
  function Build(empLoc: seq<real>, empScale: seq<real>, radius: real, floor: real, clamp: bool): (p: ProjectionSet)
    ensures p.Enabled? <==> clamp
    ensures p.Enabled? ==> p.loc == BoxAround(empLoc, radius)
    ensures p.Enabled? ==> p.scale.Shaped(|empScale|)
    ensures p.Enabled? ==> forall k :: 0 <= k < |empScale| ==>
              && floor <= p.scale.lower[k]
              && empScale[k] - radius <= p.scale.lower[k]
              && (p.scale.lower[k] == floor || p.scale.lower[k] == empScale[k] - radius)
              && p.scale.upper[k] == empScale[k] + radius
  {
    if clamp then
      var around := BoxAround(empScale, radius);
      Enabled(BoxAround(empLoc, radius), Box(FloorAt(around.lower, floor), around.upper))
    else
      Disabled
  }

  /** For a non-negative radius, a scale interval is non-empty exactly when the floor is at most its upper end. */
  lemma ScaleNonEmptyIff(empLoc: seq<real>, empScale: seq<real>, radius: real, floor: real, k: nat)
    requires radius >= 0.0 && k < |empScale|
    ensures var p := Build(empLoc, empScale, radius, floor, true);
            p.scale.lower[k] <= p.scale.upper[k] <==> floor <= empScale[k] + radius
  {
  }

  /** `float(t)`: the value of a one-element tensor; any other tensor raises. */
  function AsScalar(t: seq<real>): (r: Result<real>)
    ensures r.Ok? <==> |t| == 1
    ensures r.Ok? ==> r.value == t[0]
  {
    if |t| == 1 then Ok(t[0]) else Err(NotScalar)
  }

  /**
   * The post-step hook as written: each bound tensor goes through `float(...)`, and the location
   * and every covariance entry are clamped into the resulting scalar interval.
   */
  function Hook(p: ProjectionSet, m: Normal): (r: Result<Normal>)
    ensures p.Disabled? ==> r == Ok(m)
    ensures p.Enabled? ==> (r.Ok? <==> p.loc.Shaped(1) && p.scale.Shaped(1))
    ensures r.Ok? ==> |r.value.loc| == |m.loc| && |r.value.cov| == |m.cov|
    ensures r.Ok? && p.Enabled? && p.loc.NonEmpty() ==>
              forall k :: 0 <= k < |m.loc| ==> Within(r.value.loc[k], p.loc.lower[0], p.loc.upper[0])
    ensures r.Ok? && p.Enabled? && p.scale.NonEmpty() ==>
              forall k :: 0 <= k < |m.cov| ==> Within(r.value.cov[k], p.scale.lower[0], p.scale.upper[0])
  {
    match p
    case Disabled => Ok(m)
    case Enabled(locBounds, scaleBounds) =>
      var locLo :- AsScalar(locBounds.lower);
      var locHi :- AsScalar(locBounds.upper);
      var scaleLo :- AsScalar(scaleBounds.lower);
      var scaleHi :- AsScalar(scaleBounds.upper);
      Ok(Normal(ClampAll(m.loc, locLo, locHi), ClampAll(m.cov, scaleLo, scaleHi)))
  }

  /** Running the hook on its own output changes nothing. */
  lemma HookIdempotent(p: ProjectionSet, m: Normal)
    requires Hook(p, m).Ok?
    ensures Hook(p, Hook(p, m).value) == Hook(p, m)
  {
    if p.Enabled? {
      ClampAllIdempotent(m.loc, p.loc.lower[0], p.loc.upper[0]);
      ClampAllIdempotent(m.cov, p.scale.lower[0], p.scale.upper[0]);
    }
  }

  /** A location with more than one entry makes the hook raise, whatever the estimate. */
  lemma HookRaisesAboveOneDimension(p: ProjectionSet, m: Normal)
    requires p.Enabled? && |p.loc.lower| > 1
    ensures Hook(p, m) == Err(NotScalar)
  {
  }

  /** The shapes an estimate must have for the entry-wise hook of `p`. */
  predicate Fits(p: ProjectionSet, m: Normal)
  {
    p.Enabled? ==> p.loc.Shaped(|m.loc|) && p.scale.Shaped(|m.cov|)
  }

  /** The hook as intended: each entry clamped into its own interval, in any dimension. */
  function HookEntrywise(p: ProjectionSet, m: Normal): (r: Normal)
    requires Fits(p, m)
    ensures p.Disabled? ==> r == m
    ensures |r.loc| == |m.loc| && |r.cov| == |m.cov|
    ensures p.Enabled? && p.loc.NonEmpty() ==> p.loc.Contains(r.loc)
    ensures p.Enabled? && p.scale.NonEmpty() ==> p.scale.Contains(r.cov)
    ensures p.Enabled? && p.loc.Contains(m.loc) ==> r.loc == m.loc
    ensures p.Enabled? && p.scale.Contains(m.cov) ==> r.cov == m.cov
  {
    match p
    case Disabled => m
    case Enabled(locBounds, scaleBounds) =>
      Normal(ClampEach(m.loc, locBounds), ClampEach(m.cov, scaleBounds))
  }

  lemma HookEntrywiseIdempotent(p: ProjectionSet, m: Normal)
    requires Fits(p, m)
    ensures HookEntrywise(p, HookEntrywise(p, m)) == HookEntrywise(p, m)
  {
    if p.Enabled? {
      ClampEachIdempotent(m.loc, p.loc);
      ClampEachIdempotent(m.cov, p.scale);
    }
  }

  /** Each entry of the projected estimate is at least as close to the candidate as any point of its interval. */
  lemma HookEntrywiseNearest(p: ProjectionSet, m: Normal, q: Normal)
    requires p.Enabled? && Fits(p, m)
    requires p.loc.NonEmpty() && p.scale.NonEmpty()
    requires p.loc.Contains(q.loc) && p.scale.Contains(q.cov)
    ensures forall k :: 0 <= k < |m.loc| ==> Abs(HookEntrywise(p, m).loc[k] - m.loc[k]) <= Abs(q.loc[k] - m.loc[k])
    ensures forall k :: 0 <= k < |m.cov| ==> Abs(HookEntrywise(p, m).cov[k] - m.cov[k]) <= Abs(q.cov[k] - m.cov[k])
  {
    ClampEachNearest(m.loc, p.loc, q.loc);
    ClampEachNearest(m.cov, p.scale, q.cov);
  }

  /** In one dimension the hook as written and the entry-wise hook agree. */
  lemma HookAgreesInOneDimension(p: ProjectionSet, m: Normal)
    requires |m.loc| == 1 && |m.cov| == 1 && Fits(p, m)
    ensures Hook(p, m) == Ok(HookEntrywise(p, m))
  {
    if p.Enabled? {
      var r := HookEntrywise(p, m);
      assert ClampAll(m.loc, p.loc.lower[0], p.loc.upper[0]) == r.loc;
      assert ClampAll(m.cov, p.scale.lower[0], p.scale.upper[0]) == r.cov;
    }
  }
}
