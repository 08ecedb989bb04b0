/** Clamping reals and real tensors into intervals, as `torch.clamp` does it. */
module Intervals {

  function Abs(x: real): real { if x < 0.0 then -x else x }

  /** Element-wise `torch.max` of two reals. */
  function Max(a: real, b: real): (m: real)
    ensures a <= m && b <= m
    ensures m == a || m == b
  {
    if a < b then b else a
  }

  predicate Within(x: real, lo: real, hi: real) { lo <= x <= hi }

  /** `torch.clamp(x, lo, hi)`: `min(max(x, lo), hi)`; when `lo > hi` every input is sent to `hi`. */
  function Clamp(x: real, lo: real, hi: real): (c: real)
    ensures c <= hi
    ensures lo <= hi ==> Within(c, lo, hi)
    ensures Within(x, lo, hi) ==> c == x
    ensures hi < lo ==> c == hi
  {
    var up := if x < lo then lo else x;
    if hi < up then hi else up
  }

  /** Clamping an already clamped value changes nothing, whether or not the interval is empty. */
  lemma ClampIdempotent(x: real, lo: real, hi: real)
    ensures Clamp(Clamp(x, lo, hi), lo, hi) == Clamp(x, lo, hi)
  {
  }

  /** Clamping is the projection onto a non-empty interval: no point of it is closer to `x`. */
  lemma ClampNearest(x: real, lo: real, hi: real, y: real)
    requires lo <= hi && Within(y, lo, hi)
    ensures Abs(Clamp(x, lo, hi) - x) <= Abs(y - x)
  {
  }

  /** One `Bounds(lower, upper)` pair of scalars. */
  datatype Interval = Interval(lower: real, upper: real) {
    predicate NonEmpty() { lower <= upper }
    predicate Contains(x: real) { Within(x, lower, upper) }
    predicate Includes(other: Interval) { lower <= other.lower && other.upper <= upper }
  }

  /** `Bounds(c - radius, c + radius)`. */
  function Around(c: real, radius: real): (i: Interval)
    ensures i.lower + i.upper == 2.0 * c
    ensures i.upper - i.lower == 2.0 * radius
    ensures radius >= 0.0 ==> i.Contains(c)
  {
    Interval(c - radius, c + radius)
  }

  /** `Bounds(lower, upper)` over tensors: one interval per entry. */
  datatype Box = Box(lower: seq<real>, upper: seq<real>) {
    predicate Shaped(n: nat) { |lower| == n && |upper| == n }

    predicate NonEmpty()
    {
      |lower| == |upper| && forall k :: 0 <= k < |lower| ==> lower[k] <= upper[k]
    }

    predicate Contains(s: seq<real>)
    {
      Shaped(|s|) && forall k :: 0 <= k < |s| ==> Within(s[k], lower[k], upper[k])
    }

    predicate Includes(other: Box)
    {
      Shaped(|other.lower|) && other.Shaped(|lower|)
      && forall k :: 0 <= k < |lower| ==> lower[k] <= other.lower[k] && other.upper[k] <= upper[k]
    }
  }

  /** `Bounds(c - radius, c + radius)` with a tensor centre `c` and a scalar radius. */
  function BoxAround(c: seq<real>, radius: real): (b: Box)
    ensures b.Shaped(|c|)
    ensures forall k :: 0 <= k < |c| ==> b.lower[k] + b.upper[k] == 2.0 * c[k]
    ensures forall k :: 0 <= k < |c| ==> b.upper[k] - b.lower[k] == 2.0 * radius
    ensures radius >= 0.0 ==> b.Contains(c)
  {
    Box(seq(|c|, k requires 0 <= k < |c| => c[k] - radius),
        seq(|c|, k requires 0 <= k < |c| => c[k] + radius))
  }

  /** A larger radius around the same tensor gives a box that includes the smaller one. */
  lemma BoxAroundMonotone(c: seq<real>, r1: real, r2: real)
    requires r1 <= r2
    ensures BoxAround(c, r2).Includes(BoxAround(c, r1))
  {
  }

  /** `torch.clamp(t, lo, hi)` with scalar bounds: every entry into the same interval. */
  function ClampAll(s: seq<real>, lo: real, hi: real): (r: seq<real>)
    ensures |r| == |s|
    ensures forall k :: 0 <= k < |s| ==> r[k] <= hi
    ensures lo <= hi ==> forall k :: 0 <= k < |s| ==> Within(r[k], lo, hi)
    ensures forall k :: 0 <= k < |s| && Within(s[k], lo, hi) ==> r[k] == s[k]
  {
    seq(|s|, k requires 0 <= k < |s| => Clamp(s[k], lo, hi))
  }

  lemma ClampAllIdempotent(s: seq<real>, lo: real, hi: real)
    ensures ClampAll(ClampAll(s, lo, hi), lo, hi) == ClampAll(s, lo, hi)
  {
    var once := ClampAll(s, lo, hi);
    forall k | 0 <= k < |s|
      ensures ClampAll(once, lo, hi)[k] == once[k]
    {
      ClampIdempotent(s[k], lo, hi);
    }
  }

  /** Entry `k` of `s` clamped into the `k`-th interval of `b`. */
  function ClampEach(s: seq<real>, b: Box): (r: seq<real>)
    requires b.Shaped(|s|)
    ensures |r| == |s|
    ensures forall k :: 0 <= k < |s| ==> r[k] <= b.upper[k]
    ensures b.NonEmpty() ==> b.Contains(r)
    ensures forall k :: 0 <= k < |s| && Within(s[k], b.lower[k], b.upper[k]) ==> r[k] == s[k]
  {
    seq(|s|, k requires 0 <= k < |s| => Clamp(s[k], b.lower[k], b.upper[k]))
  }

  lemma ClampEachIdempotent(s: seq<real>, b: Box)
    requires b.Shaped(|s|)
    ensures ClampEach(ClampEach(s, b), b) == ClampEach(s, b)
  {
    var once := ClampEach(s, b);
    forall k | 0 <= k < |s|
      ensures ClampEach(once, b)[k] == once[k]
    {
      ClampIdempotent(s[k], b.lower[k], b.upper[k]);
    }
  }

  /** Entry-wise clamping is the projection onto a non-empty box, coordinate by coordinate. */
  lemma ClampEachNearest(s: seq<real>, b: Box, t: seq<real>)
    requires b.Shaped(|s|) && b.NonEmpty() && b.Contains(t)
    ensures forall k :: 0 <= k < |s| ==> Abs(ClampEach(s, b)[k] - s[k]) <= Abs(t[k] - s[k])
  {
    forall k | 0 <= k < |s|
      ensures Abs(ClampEach(s, b)[k] - s[k]) <= Abs(t[k] - s[k])
    {
      ClampNearest(s[k], b.lower[k], b.upper[k], t[k]);
    }
  }
}
