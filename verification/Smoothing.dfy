/** Smoothing a per-step uncertainty along a trajectory, and the transforms that shape with it. */
module Smoothing {
  import opened Reals

  function Ones(n: nat): (r: seq<real>)
    ensures |r| == n && forall k :: 0 <= k < n ==> r[k] == 1.0
  {
    seq(n, _ => 1.0)
  }

  // The decays documented for the smoothing.
  predicate IsDecay(decay: real) {
    0.0 <= decay <= 1.0
  }

  lemma NonNegative(x: real, y: real)
    requires x >= 0.0 && y >= 0.0
    ensures x * y >= 0.0
  {
  }

  // The weights that the suffix from one step on carries: at least its own 1.
  lemma {:induction false} WeightAtLeastOne(n: nat, decay: real)
    requires n >= 1 && decay >= 0.0
    ensures Discounted(Ones(n), decay) >= 1.0
  {
    assert Ones(n)[1..] == Ones(n - 1);
    if n > 1 {
      WeightAtLeastOne(n - 1, decay);
      NonNegative(decay, Discounted(Ones(n - 1), decay));
    }
  }

  // The average of a step and its successors, each weighted by a power of the decay.
  function SmoothAt(values: seq<real>, decay: real): real
    requires values != [] && decay >= 0.0
  {
    WeightAtLeastOne(|values|, decay);
    DiscountedIsPowerSum(Ones(|values|), decay);
    PowerSum(values, decay) / PowerSum(Ones(|values|), decay)
  }

  function Smoothed(values: seq<real>, decay: real): (r: seq<real>)
    requires decay >= 0.0
    ensures |r| == |values| && forall t :: 0 <= t < |values| ==> r[t] == SmoothAt(values[t..], decay)
  {
    seq(|values|, t requires 0 <= t < |values| => SmoothAt(values[t..], decay))
  }

  lemma WeightDiscounted(n: nat, decay: real)
    requires n > 0
    ensures Discounted(Ones(n), decay) == Horner(1.0, decay, Discounted(Ones(n - 1), decay))
  {
    assert Ones(n)[1..] == Ones(n - 1);
  }

  lemma SmoothIsRatio(values: seq<real>, decay: real)
    requires values != [] && decay >= 0.0
    ensures Discounted(Ones(|values|), decay) >= 1.0
    ensures SmoothAt(values, decay) == Discounted(values, decay) / Discounted(Ones(|values|), decay)
  {
    WeightAtLeastOne(|values|, decay);
    DiscountedIsPowerSum(values, decay);
    DiscountedIsPowerSum(Ones(|values|), decay);
  }

  lemma QuotientTimes(x: real, w: real)
    requires w != 0.0
    ensures x / w * w == x
  {
  }

  lemma SmoothTimesWeight(values: seq<real>, decay: real)
    requires values != [] && decay >= 0.0
    ensures SmoothAt(values, decay) * PowerSum(Ones(|values|), decay) == PowerSum(values, decay)
  {
    hide PowerSum, Discounted;
    SmoothIsRatio(values, decay);
    DiscountedIsPowerSum(values, decay);
    DiscountedIsPowerSum(Ones(|values|), decay);
    QuotientTimes(Discounted(values, decay), Discounted(Ones(|values|), decay));
  }

  method DiscountedSmooth(values: seq<real>, decay: real) returns (r: seq<real>)
    requires IsDecay(decay)
    ensures |r| == |values|
    ensures forall t :: 0 <= t < |values| ==>
              r[t] * PowerSum(Ones(|values| - t), decay) == PowerSum(values[t..], decay)
    ensures r == Smoothed(values, decay)
  {
    hide Horner, Discounted, SmoothAt, Ones, PowerSum;
    NothingDiscounted(decay);
    assert values[|values|..] == Ones(0) == [];
    var smoothed := new real[|values|](_ => 0.0);
    var numerator, denominator := 0.0, 0.0;
    var t := |values|;
    while t > 0
      invariant 0 <= t <= |values|
      invariant numerator == Discounted(values[t..], decay)
      invariant denominator == Discounted(Ones(|values| - t), decay)
      invariant forall s :: t <= s < |values| ==> smoothed[s] == SmoothAt(values[s..], decay)
    {
      t := t - 1;
      SuffixDiscounted(values, t, decay);
      WeightDiscounted(|values| - t, decay);
      SmoothIsRatio(values[t..], decay);
      numerator := Horner(values[t], decay, numerator);
      denominator := Horner(1.0, decay, denominator);
      smoothed[t] := numerator / denominator;
    }
    r := smoothed[..];
    forall s | 0 <= s < |values|
      ensures r[s] * PowerSum(Ones(|values| - s), decay) == PowerSum(values[s..], decay)
    {
      SmoothTimesWeight(values[s..], decay);
    }
  }

  // x is a w-fold amount of something between lo and hi.
  predicate Within(x: real, w: real, lo: real, hi: real) {
    lo * w <= x <= hi * w
  }

  lemma NoneWithin(lo: real, hi: real)
    ensures Within(0.0, 0.0, lo, hi)
  {
  }

  lemma Scale(d: real, x: real, y: real)
    requires d >= 0.0 && x <= y
    ensures d * x <= d * y
  {
  }

  lemma Refactor(c: real, d: real, w: real)
    ensures c * (1.0 + d * w) == c + d * (c * w)
  {
  }

  lemma WithinStep(v: real, x: real, w: real, d: real, lo: real, hi: real)
    requires d >= 0.0 && lo <= v <= hi && Within(x, w, lo, hi)
    ensures Within(Horner(v, d, x), Horner(1.0, d, w), lo, hi)
  {
    Scale(d, lo * w, x);
    Scale(d, x, hi * w);
    Refactor(lo, d, w);
    Refactor(hi, d, w);
  }

  lemma {:induction false} DiscountedBetween(values: seq<real>, decay: real, lo: real, hi: real)
    requires decay >= 0.0 && forall k :: 0 <= k < |values| ==> lo <= values[k] <= hi
    ensures Within(Discounted(values, decay), Discounted(Ones(|values|), decay), lo, hi)
  {
    hide Within, Horner;
    if values == [] {
      NoneWithin(lo, hi);
    } else {
      assert Ones(|values|)[1..] == Ones(|values| - 1);
      DiscountedBetween(values[1..], decay, lo, hi);
      WithinStep(values[0], Discounted(values[1..], decay), Discounted(Ones(|values| - 1), decay), decay, lo, hi);
    }
  }

  lemma QuotientBetween(x: real, w: real, lo: real, hi: real)
    requires w > 0.0 && Within(x, w, lo, hi)
    ensures lo <= x / w <= hi
  {
  }

  // A smoothed value lies between the least and the greatest of the step and its successors.
  lemma SmoothedBetween(values: seq<real>, decay: real, t: nat, lo: real, hi: real)
    requires decay >= 0.0 && t < |values| && forall k :: t <= k < |values| ==> lo <= values[k] <= hi
    ensures lo <= Smoothed(values, decay)[t] <= hi
  {
    hide Within, Discounted, SmoothAt;
    SmoothIsRatio(values[t..], decay);
    DiscountedBetween(values[t..], decay, lo, hi);
    QuotientBetween(Discounted(values[t..], decay), Discounted(Ones(|values| - t), decay), lo, hi);
  }

  lemma NothingFollows(value: real, rest: real)
    ensures Horner(value, 0.0, rest) == value
  {
  }

  lemma UndecayedAt(values: seq<real>)
    requires values != []
    ensures SmoothAt(values, 0.0) == values[0]
  {
    hide Horner, SmoothAt;
    SmoothIsRatio(values, 0.0);
    NothingFollows(values[0], Discounted(values[1..], 0.0));
    NothingFollows(1.0, Discounted(Ones(|values|)[1..], 0.0));
    assert Discounted(values, 0.0) == values[0] && Discounted(Ones(|values|), 0.0) == 1.0;
  }

  // Decay 0 keeps every step's own value.
  lemma NoDecay(values: seq<real>)
    ensures Smoothed(values, 0.0) == values
  {
    hide SmoothAt;
    forall t | 0 <= t < |values|
      ensures SmoothAt(values[t..], 0.0) == values[t]
    {
      UndecayedAt(values[t..]);
    }
  }

  // ----- Transforms -----

  datatype Transform = Linear | Neg | Exponential

  predicate Additive(transform: Transform) {
    transform != Exponential
  }

  function NeutralTerm(transform: Transform): real {
    if Additive(transform) then 0.0 else 1.0
  }

  predicate ShapesFailures(transform: Transform) {
    Additive(transform)
  }

  function Weighted(value: real, stepWeight: real): real {
    value * stepWeight
  }

  lemma WeightedFacts(value: real, stepWeight: real)
    requires value >= 0.0 && stepWeight >= 0.0
    ensures Weighted(value, stepWeight) >= 0.0
    ensures value == 0.0 ==> Weighted(value, stepWeight) == 0.0
  {
  }

  function StepTransform(exp: real -> real, values: seq<real>, transform: Transform, stepWeight: real): (r: seq<real>)
    ensures |r| == |values|
  {
    seq(|values|, t requires 0 <= t < |values| =>
      var scaled := Weighted(values[t], stepWeight);
      match transform
      case Linear => scaled
      case Neg => -scaled
      case Exponential => exp(-scaled))
  }

  function EpisodeTransform(exp: real -> real, value: real, transform: Transform): real {
    match transform
    case Linear => value
    case Neg => -value
    case Exponential => exp(-value)
  }

  lemma StepIsWeightedEpisode(exp: real -> real, values: seq<real>, transform: Transform, stepWeight: real, t: nat)
    requires t < |values|
    ensures StepTransform(exp, values, transform, stepWeight)[t]
         == EpisodeTransform(exp, Weighted(values[t], stepWeight), transform)
  {
    hide Weighted;
    match transform
    case Linear =>
    case Neg =>
    case Exponential =>
  }

  // How a term enters a score.
  function ShapeOne(score: real, term: real, transform: Transform, scale: real): real {
    if Additive(transform) then score + scale * term else score * term
  }

  // The neutral term leaves every score alone.
  lemma NeutralShapes(score: real, transform: Transform, scale: real)
    ensures ShapeOne(score, NeutralTerm(transform), transform, scale) == score
  {
  }

  // An exponential: positive, 1 at 0 and below 1 where its argument is negative.
  ghost predicate IsExponential(exp: real -> real) {
    exp(0.0) == 1.0 && forall x :: exp(x) > 0.0 && (x < 0.0 ==> exp(x) < 1.0)
  }

  // Uncertainty raises a score under `linear`, lowers it under `neg`, and shrinks it towards zero
  // under `exp`; a certain episode or step keeps its score under the additive transforms.
  lemma ShapingDirection(exp: real -> real, score: real, value: real, scale: real)
    requires value >= 0.0 && scale >= 0.0 && IsExponential(exp)
    ensures ShapeOne(score, EpisodeTransform(exp, value, Linear), Linear, scale) >= score
    ensures ShapeOne(score, EpisodeTransform(exp, value, Neg), Neg, scale) <= score
    ensures value == 0.0 ==> forall t :: Additive(t) ==>
        ShapeOne(score, EpisodeTransform(exp, value, t), t, scale) == score
    ensures score >= 0.0 ==>
      0.0 <= ShapeOne(score, EpisodeTransform(exp, value, Exponential), Exponential, scale) <= score
  {
    NonNegative(scale, value);
    assert scale * (-value) == -(scale * value);
    if score >= 0.0 {
      NonNegative(score, exp(-value));
      NonNegative(score, 1.0 - exp(-value));
      assert score * (1.0 - exp(-value)) == score - score * exp(-value);
    }
  }

  lemma ProductSign(x: real, y: real)
    requires y >= 0.0
    ensures x * y > 0.0 <==> x > 0.0 && y > 0.0
  {
    if x <= 0.0 {
      NonNegative(-x, y);
      assert (-x) * y == -(x * y);
    }
  }

  // When an uncertain episode is scored strictly below one with the same score and no uncertainty:
  // never under `linear`, which raises it in just the cases where `neg` lowers it; under `exp` for
  // a positive score only.
  lemma PenaltyExactly(exp: real -> real, score: real, value: real, scale: real)
    requires value >= 0.0 && scale >= 0.0 && IsExponential(exp)
    ensures ShapeOne(score, EpisodeTransform(exp, value, Linear), Linear, scale) > score <==> scale * value > 0.0
    ensures !(ShapeOne(score, EpisodeTransform(exp, value, Linear), Linear, scale) < score)
    ensures ShapeOne(score, EpisodeTransform(exp, value, Neg), Neg, scale) < score <==> scale * value > 0.0
    ensures ShapeOne(score, EpisodeTransform(exp, value, Exponential), Exponential, scale) < score
            <==> score > 0.0 && value > 0.0
  {
    NonNegative(scale, value);
    assert scale * (-value) == -(scale * value);
    var shrink := 1.0 - exp(-value);
    assert value == 0.0 ==> shrink == 0.0;
    assert value > 0.0 ==> shrink > 0.0;
    assert score * exp(-value) == score - score * shrink;
    ProductSign(score, shrink);
  }

  // The terms of a step are those of an episode with its weighted uncertainty, so they shape a
  // step's score the same way.
  lemma StepShapingDirection(exp: real -> real, score: real, values: seq<real>, stepWeight: real, scale: real, t: nat)
    requires t < |values| && values[t] >= 0.0 && stepWeight >= 0.0 && scale >= 0.0 && IsExponential(exp)
    ensures ShapeOne(score, StepTransform(exp, values, Linear, stepWeight)[t], Linear, scale) >= score
    ensures ShapeOne(score, StepTransform(exp, values, Neg, stepWeight)[t], Neg, scale) <= score
    ensures values[t] == 0.0 ==> forall f :: Additive(f) ==>
      ShapeOne(score, StepTransform(exp, values, f, stepWeight)[t], f, scale) == score
    ensures score >= 0.0 ==>
      0.0 <= ShapeOne(score, StepTransform(exp, values, Exponential, stepWeight)[t], Exponential, scale) <= score
  {
    hide *;
    NonNegative(values[t], stepWeight);
    var weighted := Weighted(values[t], stepWeight);
    WeightedFacts(values[t], stepWeight);
    forall f: Transform
      ensures StepTransform(exp, values, f, stepWeight)[t] == EpisodeTransform(exp, weighted, f)
    {
      StepIsWeightedEpisode(exp, values, f, stepWeight, t);
    }
    ShapingDirection(exp, score, weighted, scale);
  }
}
