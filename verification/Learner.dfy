/** Learning from estimates and actual results (src/estimation/learner.rs), with reals for floats. */
module Learner {
  import opened Wrappers

  function Abs(x: real): real {
    if x < 0.0 then -x else x
  }

  function Min(x: real, y: real): real {
    if x < y then x else y
  }

  /** An adjustment factor with its running error rate; one such pair for cost and one for time. */
  datatype Track = Track(factor: real, errorRate: real)

  datatype Model = Model(cost: Track, time: Track, sampleCount: nat)

  /** A measured ratio of actual to estimated and the alpha in force when it was recorded. */
  datatype Sample = Sample(ratio: real, alpha: real)

  const NEUTRAL := Track(1.0, 0.0)
  const FRESH := Model(NEUTRAL, NEUTRAL, 0)

  /** The exponential moving average: y comes in with weight a. */
  function Mix(x: real, y: real, a: real): real {
    x * (1.0 - a) + y * a
  }

  function Smoothed(t: Track, s: Sample): Track {
    Track(Mix(t.factor, s.ratio, s.alpha), Mix(t.errorRate, Abs(s.ratio - 1.0), s.alpha))
  }

  function Ratio(actual: real, estimated: real): real {
    if estimated != 0.0 then actual / estimated else 1.0
  }

  datatype LearnerData = LearnerData(models: map<string, Model>, alpha: real, minSamples: nat)

  function ModelOf(l: LearnerData, category: string): Model {
    if category in l.models then l.models[category] else FRESH
  }

  function Recorded(l: LearnerData, category: string, cost: real, time: real): LearnerData {
    var m := ModelOf(l, category);
    l.(models := l.models[category := Model(
      Smoothed(m.cost, Sample(cost, l.alpha)), Smoothed(m.time, Sample(time, l.alpha)), m.sampleCount + 1)])
  }

  function Clamped(alpha: real): real {
    if alpha < 0.01 then 0.01 else if alpha > 0.5 then 0.5 else alpha
  }

  function Adjusted(l: LearnerData, category: string, cost: real, time: real): (real, real) {
    if category in l.models && l.models[category].sampleCount >= l.minSamples
    then (cost * l.models[category].cost.factor, time * l.models[category].time.factor)
    else (cost, time)
  }

  function ConfidenceOf(l: LearnerData, category: string): real {
    if category !in l.models then 0.2
    else
      var m := l.models[category];
      if m.sampleCount < l.minSamples then 0.3
      else
        var sampleFactor := Min(m.sampleCount as real / 100.0, 1.0);
        var errorFactor := 1.0 - Min((m.cost.errorRate + m.time.errorRate) / 2.0, 1.0);
        0.5 + sampleFactor * 0.3 + errorFactor * 0.2
  }

  class EstimationLearner {
    var models: map<string, Model>
    var alpha: real
    var minSamples: nat

    function View(): LearnerData
      reads this
    {
      LearnerData(models, alpha, minSamples)
    }

    constructor ()
      ensures View() == LearnerData(map[], 0.1, 5)
    {
      models, alpha, minSamples := map[], 0.1, 5;
    }

    method Record(category: string, estimatedCost: real, actualCost: real, estimatedTime: real, actualTime: real)
      modifies this
      ensures View() == Recorded(
        old(View()), category, Ratio(actualCost, estimatedCost), Ratio(actualTime, estimatedTime))
    {
      hide Mix;
      var m := if category in models then models[category] else FRESH;
      var costRatio := Ratio(actualCost, estimatedCost);
      var timeRatio := Ratio(actualTime, estimatedTime);
      var costFactor := Mix(m.cost.factor, costRatio, alpha);
      var timeFactor := Mix(m.time.factor, timeRatio, alpha);
      var costErrorRate := Mix(m.cost.errorRate, Abs(costRatio - 1.0), alpha);
      var timeErrorRate := Mix(m.time.errorRate, Abs(timeRatio - 1.0), alpha);
      models := models[category :=
        Model(Track(costFactor, costErrorRate), Track(timeFactor, timeErrorRate), m.sampleCount + 1)];
    }

    method SetAlpha(a: real)
      modifies this
      ensures View() == old(View()).(alpha := Clamped(a))
    {
      alpha := Clamped(a);
    }

    method SetMinSamples(min: nat)
      modifies this
      ensures View() == old(View()).(minSamples := min)
    {
      minSamples := min;
    }

    method Clear()
      modifies this
      ensures View() == old(View()).(models := map[])
    {
      models := map[];
    }
  }

  // ---------------------------------------------------------------------
  // One factor over a run of samples
  // ---------------------------------------------------------------------

  function TrackOf(samples: seq<Sample>): Track {
    if samples == [] then NEUTRAL else Smoothed(TrackOf(samples[..|samples| - 1]), samples[|samples| - 1])
  }

  /** The alphas are weights strictly between 0 and 1. */
  ghost predicate Weighted(samples: seq<Sample>) {
    forall i :: 0 <= i < |samples| ==> 0.0 < samples[i].alpha < 1.0
  }

  /** The weighted excess of ratios above one, and the weighted shortfall of ratios below one. */
  function Above(samples: seq<Sample>): real {
    if samples == [] then 0.0
    else
      var s := samples[|samples| - 1];
      Mix(Above(samples[..|samples| - 1]), if s.ratio > 1.0 then s.ratio - 1.0 else 0.0, s.alpha)
  }

  function Below(samples: seq<Sample>): real {
    if samples == [] then 0.0
    else
      var s := samples[|samples| - 1];
      Mix(Below(samples[..|samples| - 1]), if s.ratio < 1.0 then 1.0 - s.ratio else 0.0, s.alpha)
  }

  lemma MixOfSame(x: real, a: real)
    ensures Mix(x, x, a) == x
  {
    assert x * (1.0 - a) == x - x * a;
  }

  /** Mixing is linear. */
  lemma MixOfDifferences(x: real, y: real, u: real, v: real, a: real)
    ensures Mix(x, y, a) - Mix(u, v, a) == Mix(x - u, y - v, a)
  {
    assert (x - u) * (1.0 - a) == x * (1.0 - a) - u * (1.0 - a);
    assert (y - v) * a == y * a - v * a;
  }

  lemma MixOfSums(x: real, y: real, u: real, v: real, a: real)
    ensures Mix(x, y, a) + Mix(u, v, a) == Mix(x + u, y + v, a)
  {
    assert (x + u) * (1.0 - a) == x * (1.0 - a) + u * (1.0 - a);
    assert (y + v) * a == y * a + v * a;
  }

  /** The factor is off by the difference of the two, the error rate is their sum. */
  lemma {:induction false} TrackInParts(samples: seq<Sample>)
    ensures TrackOf(samples).factor - 1.0 == Above(samples) - Below(samples)
    ensures TrackOf(samples).errorRate == Above(samples) + Below(samples)
  {
    hide Mix;
    if samples != [] {
      var before, s := samples[..|samples| - 1], samples[|samples| - 1];
      TrackInParts(before);
      var up, down := if s.ratio > 1.0 then s.ratio - 1.0 else 0.0, if s.ratio < 1.0 then 1.0 - s.ratio else 0.0;
      MixOfSame(1.0, s.alpha);
      MixOfDifferences(TrackOf(before).factor, s.ratio, 1.0, 1.0, s.alpha);
      MixOfDifferences(Above(before), up, Below(before), down, s.alpha);
      MixOfSums(Above(before), up, Below(before), down, s.alpha);
    }
  }

  lemma ProductIsZeroIff(x: real, a: real)
    requires x >= 0.0 && a > 0.0
    ensures x * a >= 0.0 && (x * a == 0.0 <==> x == 0.0)
  {
  }

  lemma WeightedSum(x: real, y: real, a: real)
    requires x >= 0.0 && y >= 0.0 && 0.0 < a < 1.0
    ensures Mix(x, y, a) >= 0.0
    ensures Mix(x, y, a) == 0.0 <==> x == 0.0 && y == 0.0
  {
    ProductIsZeroIff(x, 1.0 - a);
    ProductIsZeroIff(y, a);
  }

  lemma {:induction false} AboveIsZeroIff(samples: seq<Sample>)
    requires Weighted(samples)
    ensures Above(samples) >= 0.0
    ensures Above(samples) == 0.0 <==> forall i :: 0 <= i < |samples| ==> samples[i].ratio <= 1.0
  {
    hide Mix;
    if samples != [] {
      var before, s := samples[..|samples| - 1], samples[|samples| - 1];
      AboveIsZeroIff(before);
      WeightedSum(Above(before), if s.ratio > 1.0 then s.ratio - 1.0 else 0.0, s.alpha);
      assert forall i :: 0 <= i < |before| ==> before[i] == samples[i];
    }
  }

  lemma {:induction false} BelowIsZeroIff(samples: seq<Sample>)
    requires Weighted(samples)
    ensures Below(samples) >= 0.0
    ensures Below(samples) == 0.0 <==> forall i :: 0 <= i < |samples| ==> samples[i].ratio >= 1.0
  {
    hide Mix;
    if samples != [] {
      var before, s := samples[..|samples| - 1], samples[|samples| - 1];
      BelowIsZeroIff(before);
      WeightedSum(Below(before), if s.ratio < 1.0 then 1.0 - s.ratio else 0.0, s.alpha);
      assert forall i :: 0 <= i < |before| ==> before[i] == samples[i];
    }
  }

  /**
   The factor is never further from one than the error rate says, and it is exactly as far when the
   estimates were never too high or never too low.
   */
  lemma FactorWithinError(samples: seq<Sample>)
    requires Weighted(samples)
    ensures Abs(TrackOf(samples).factor - 1.0) <= TrackOf(samples).errorRate
    ensures Abs(TrackOf(samples).factor - 1.0) == TrackOf(samples).errorRate <==>
            || (forall i :: 0 <= i < |samples| ==> samples[i].ratio <= 1.0)
            || (forall i :: 0 <= i < |samples| ==> samples[i].ratio >= 1.0)
  {
    TrackInParts(samples);
    AboveIsZeroIff(samples);
    BelowIsZeroIff(samples);
  }

  lemma Between(x: real, y: real, a: real, lo: real, hi: real)
    requires lo <= x <= hi && lo <= y <= hi && 0.0 < a < 1.0
    ensures lo <= Mix(x, y, a) <= hi
  {
    hide Mix;
    MixOfSame(lo, a);
    MixOfSame(hi, a);
    MixOfDifferences(x, y, lo, lo, a);
    MixOfDifferences(hi, hi, x, y, a);
    WeightedSum(x - lo, y - lo, a);
    WeightedSum(hi - x, hi - y, a);
  }

  /** The factor stays between any bounds that hold one and all ratios. */
  lemma {:induction false} FactorInHull(samples: seq<Sample>, lo: real, hi: real)
    requires Weighted(samples) && lo <= 1.0 <= hi
    requires forall i :: 0 <= i < |samples| ==> lo <= samples[i].ratio <= hi
    ensures lo <= TrackOf(samples).factor <= hi
  {
    hide Mix;
    if samples != [] {
      var before, s := samples[..|samples| - 1], samples[|samples| - 1];
      FactorInHull(before, lo, hi);
      Between(TrackOf(before).factor, s.ratio, s.alpha, lo, hi);
    }
  }

  lemma {:induction false} FactorStaysPositive(samples: seq<Sample>)
    requires Weighted(samples) && forall i :: 0 <= i < |samples| ==> samples[i].ratio >= 0.0
    ensures TrackOf(samples).factor > 0.0
  {
    hide Mix;
    if samples != [] {
      var before, s := samples[..|samples| - 1], samples[|samples| - 1];
      FactorStaysPositive(before);
      WeightedSum(TrackOf(before).factor, s.ratio, s.alpha);
    }
  }

  function Power(x: real, n: nat): real {
    if n == 0 then 1.0 else Power(x, n - 1) * x
  }

  /** What is left of a distance d after n steps that each take off the part a. */
  function Remaining(a: real, n: nat, d: real): real {
    Power(1.0 - a, n) * d
  }

  lemma MixTowards(x: real, y: real, a: real, d: real, n: nat)
    requires x - y == Remaining(a, n, d)
    ensures Mix(x, y, a) - y == Remaining(a, n + 1, d)
  {
    var p := Power(1.0 - a, n);
    assert Mix(x, y, a) - y == (x - y) * (1.0 - a);
    assert p * d * (1.0 - a) == p * (1.0 - a) * d;
  }

  lemma NothingTaken(a: real, d: real)
    ensures Remaining(a, 0, d) == d
  {
    assert Power(1.0 - a, 0) == 1.0;
  }

  /** With one ratio over and over, the factor closes in on it by 1 - alpha at a time. */
  lemma {:induction false} FactorConverges(samples: seq<Sample>, r: real, a: real)
    requires forall i :: 0 <= i < |samples| ==> samples[i] == Sample(r, a)
    ensures TrackOf(samples).factor - r == Remaining(a, |samples|, 1.0 - r)
    ensures TrackOf(samples).errorRate - Abs(r - 1.0) == Remaining(a, |samples|, -Abs(r - 1.0))
  {
    hide Mix, Power, Remaining;
    if samples == [] {
      NothingTaken(a, 1.0 - r);
      NothingTaken(a, -Abs(r - 1.0));
    } else {
      var n, before := |samples| - 1, samples[..|samples| - 1];
      FactorConverges(before, r, a);
      MixTowards(TrackOf(before).factor, r, a, 1.0 - r, n);
      MixTowards(TrackOf(before).errorRate, Abs(r - 1.0), a, -Abs(r - 1.0), n);
    }
  }

  // ---------------------------------------------------------------------
  // The learner over a run of calls
  // ---------------------------------------------------------------------

  datatype Call =
    | Record(category: string, estimatedCost: real, actualCost: real, estimatedTime: real, actualTime: real)
    | SetAlpha(alpha: real)
    | SetMinSamples(min: nat)
    | Clear

  function Step(l: LearnerData, call: Call): LearnerData {
    match call
    case Record(c, ec, ac, et, at) => Recorded(l, c, Ratio(ac, ec), Ratio(at, et))
    case SetAlpha(a) => l.(alpha := Clamped(a))
    case SetMinSamples(min) => l.(minSamples := min)
    case Clear => l.(models := map[])
  }

  function Run(calls: seq<Call>): LearnerData {
    if calls == [] then LearnerData(map[], 0.1, 5) else Step(Run(calls[..|calls| - 1]), calls[|calls| - 1])
  }

  /** The cost samples of a category since the last Clear. */
  function CostSamples(calls: seq<Call>, category: string): seq<Sample> {
    if calls == [] then []
    else
      var before, call := calls[..|calls| - 1], calls[|calls| - 1];
      if call.Clear? then []
      else if call.Record? && call.category == category
      then CostSamples(before, category) + [Sample(Ratio(call.actualCost, call.estimatedCost), Run(before).alpha)]
      else CostSamples(before, category)
  }

  function TimeSamples(calls: seq<Call>, category: string): seq<Sample> {
    if calls == [] then []
    else
      var before, call := calls[..|calls| - 1], calls[|calls| - 1];
      if call.Clear? then []
      else if call.Record? && call.category == category
      then TimeSamples(before, category) + [Sample(Ratio(call.actualTime, call.estimatedTime), Run(before).alpha)]
      else TimeSamples(before, category)
  }

  lemma {:induction false} AlphaStaysClamped(calls: seq<Call>)
    ensures 0.01 <= Run(calls).alpha <= 0.5
  {
    if calls != [] {
      AlphaStaysClamped(calls[..|calls| - 1]);
    }
  }

  lemma TrackOfNone()
    ensures TrackOf([]) == NEUTRAL
  {
  }

  lemma TrackSnoc(samples: seq<Sample>, s: Sample)
    ensures TrackOf(samples + [s]) == Smoothed(TrackOf(samples), s)
  {
    assert (samples + [s])[..|samples|] == samples;
  }

  /** Each category learns from its own samples alone. */
  lemma {:induction false} CategoriesAreSeparate(calls: seq<Call>, category: string)
    ensures var m := ModelOf(Run(calls), category);
      && m.cost == TrackOf(CostSamples(calls, category)) && m.time == TrackOf(TimeSamples(calls, category))
      && m.sampleCount == |CostSamples(calls, category)| == |TimeSamples(calls, category)|
      && Weighted(CostSamples(calls, category)) && Weighted(TimeSamples(calls, category))
  {
    hide Smoothed, Mix, Ratio, Clamped, TrackOf;
    TrackOfNone();
    if calls != [] {
      var before, call := calls[..|calls| - 1], calls[|calls| - 1];
      CategoriesAreSeparate(before, category);
      AlphaStaysClamped(before);
      if call.Record? && call.category == category {
        var alpha := Run(before).alpha;
        TrackSnoc(CostSamples(before, category), Sample(Ratio(call.actualCost, call.estimatedCost), alpha));
        TrackSnoc(TimeSamples(before, category), Sample(Ratio(call.actualTime, call.estimatedTime), alpha));
      }
    }
  }

  /** In every reachable learner, each factor is within its error rate of one. */
  lemma FactorsWithinErrors(calls: seq<Call>, category: string)
    ensures var m := ModelOf(Run(calls), category);
      && Abs(m.cost.factor - 1.0) <= m.cost.errorRate
      && Abs(m.time.factor - 1.0) <= m.time.errorRate
  {
    hide Mix, Run, TrackOf, CostSamples, TimeSamples, Weighted;
    CategoriesAreSeparate(calls, category);
    FactorWithinError(CostSamples(calls, category));
    FactorWithinError(TimeSamples(calls, category));
  }

  lemma ConfidenceInRange(calls: seq<Call>, category: string)
    ensures 0.2 <= ConfidenceOf(Run(calls), category) <= 1.0
  {
    hide Run;
    FactorsWithinErrors(calls, category);
  }

  /** Recorded durations are not negative. */
  ghost predicate RealTimes(calls: seq<Call>) {
    forall i :: 0 <= i < |calls| && calls[i].Record? ==> calls[i].estimatedTime >= 0.0 && calls[i].actualTime >= 0.0
  }

  lemma {:induction false} TimeRatiosAreReal(calls: seq<Call>, category: string)
    requires RealTimes(calls)
    ensures forall i :: 0 <= i < |TimeSamples(calls, category)| ==> TimeSamples(calls, category)[i].ratio >= 0.0
  {
    if calls != [] {
      TimeRatiosAreReal(calls[..|calls| - 1], category);
    }
  }

  /** An adjusted duration is never negative, which is what the conversion back to a duration needs. */
  lemma AdjustedTimeIsReal(calls: seq<Call>, category: string, cost: real, time: real)
    requires RealTimes(calls) && time >= 0.0
    ensures Adjusted(Run(calls), category, cost, time).1 >= 0.0
  {
    hide Run, Mix;
    CategoriesAreSeparate(calls, category);
    TimeRatiosAreReal(calls, category);
    FactorStaysPositive(TimeSamples(calls, category));
    ProductIsZeroIff(time, ModelOf(Run(calls), category).time.factor);
  }

  // ---------------------------------------------------------------------
  // What the learner answers
  // ---------------------------------------------------------------------

  /** The least number of samples in force: the last one set, or five. */
  function LastMinimum(calls: seq<Call>): nat {
    if calls == [] then 5
    else
      var last := calls[|calls| - 1];
      if last.SetMinSamples? then last.min else LastMinimum(calls[..|calls| - 1])
  }

  lemma {:induction false} MinimumIsLast(calls: seq<Call>)
    ensures Run(calls).minSamples == LastMinimum(calls)
  {
    if calls != [] {
      MinimumIsLast(calls[..|calls| - 1]);
    }
  }

  /** A category without a model has no samples. */
  lemma {:induction false} ModelIffSampled(calls: seq<Call>, category: string)
    ensures category in Run(calls).models <==> CostSamples(calls, category) != []
  {
    hide Smoothed;
    if calls != [] {
      ModelIffSampled(calls[..|calls| - 1], category);
    }
  }

  lemma TimesOne(x: real, y: real)
    requires y == 1.0
    ensures x * y == x
  {
  }

  /**
   Estimates are multiplied by the factors that the category's own samples give, once there are enough of
   them, and handed back as they are before.
   */
  lemma AdjustedBySamples(calls: seq<Call>, category: string, cost: real, time: real)
    ensures var adjusted := Adjusted(Run(calls), category, cost, time);
      if |CostSamples(calls, category)| >= LastMinimum(calls)
      then adjusted.0 == cost * TrackOf(CostSamples(calls, category)).factor
           && adjusted.1 == time * TrackOf(TimeSamples(calls, category)).factor
      else adjusted == (cost, time)
  {
    hide Run, TrackOf, CostSamples, TimeSamples, Weighted, LastMinimum;
    CategoriesAreSeparate(calls, category);
    MinimumIsLast(calls);
    ModelIffSampled(calls, category);
    var costs, times := TrackOf(CostSamples(calls, category)), TrackOf(TimeSamples(calls, category));
    if category !in Run(calls).models {
      assert costs.factor == 1.0 && times.factor == 1.0;
      TimesOne(cost, costs.factor);
      TimesOne(time, times.factor);
    } else {
      assert ModelOf(Run(calls), category) == Run(calls).models[category];
      var m := Run(calls).models[category];
      assert m.cost == costs && m.time == times;
    }
  }

  /**
   Without samples the confidence is 0.2, with too few it is 0.3, and with enough at least 0.5; it is complete
   exactly with a hundred samples or more that were all estimated right.
   */
  lemma ConfidenceBySamples(calls: seq<Call>, category: string)
    ensures var n := |CostSamples(calls, category)|; var c := ConfidenceOf(Run(calls), category);
      && (n == 0 ==> c == 0.2)
      && (0 < n < LastMinimum(calls) ==> c == 0.3)
      && (n > 0 && n >= LastMinimum(calls) ==> c >= 0.5)
      && (n > 0 && n >= LastMinimum(calls) ==>
            (c == 1.0 <==>
              && n >= 100
              && TrackOf(CostSamples(calls, category)).errorRate == 0.0
              && TrackOf(TimeSamples(calls, category)).errorRate == 0.0))
  {
    hide Run, TrackOf, CostSamples, TimeSamples;
    CategoriesAreSeparate(calls, category);
    FactorsWithinErrors(calls, category);
    MinimumIsLast(calls);
    ModelIffSampled(calls, category);
  }

  /** More samples with the same errors never lower the confidence, and smaller errors never do. */
  lemma ConfidenceIsMonotone(l: LearnerData, better: LearnerData, category: string)
    requires category in l.models && category in better.models && l.minSamples == better.minSamples
    requires l.models[category].sampleCount <= better.models[category].sampleCount
    requires 0.0 <= better.models[category].cost.errorRate <= l.models[category].cost.errorRate
    requires 0.0 <= better.models[category].time.errorRate <= l.models[category].time.errorRate
    ensures ConfidenceOf(l, category) <= ConfidenceOf(better, category)
  {
  }

  /** A ratio brings the estimate to what was measured; without an estimate it is neutral. */
  lemma RatioMeasures(actual: real, estimated: real)
    ensures if estimated == 0.0 then Ratio(actual, estimated) == 1.0
            else Ratio(actual, estimated) * estimated == actual
  {
  }

  /** An alpha within the bounds is taken as it is, one outside gives the nearest bound. */
  lemma AlphaIsTaken(calls: seq<Call>, a: real)
    ensures var alpha := Run(calls + [SetAlpha(a)]).alpha;
      && (0.01 <= a <= 0.5 ==> alpha == a)
      && (a < 0.01 ==> alpha == 0.01)
      && (a > 0.5 ==> alpha == 0.5)
  {
    assert (calls + [SetAlpha(a)])[..|calls|] == calls;
  }
}
