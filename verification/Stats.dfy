/**
 * The verdict of the activity bench (scripts/activity-bench/stats.ts) in exact reals: paired bootstrap
 * intervals, the smallest change that counts, and the rule that decides. The generator may pick anything.
 */
module Stats {
  import opened Reals
  import opened Wrappers

  /** One case's paired differences, head minus base, and its weight. */
  datatype PairedCase = PairedCase(weight: real, diffs: seq<real>)

  datatype Interval = Interval(low: real, high: real)

  datatype Estimate = Estimate(delta: real, ci90: Interval)

  datatype Decision = Better | Worse | Inconclusive

  const ITERATIONS := 10000

  /** The sum of the values, each times its weight. */
  function Weigh(values: seq<real>, weights: seq<real>): real
    requires |values| == |weights|
  {
    if values == [] then 0.0
    else
      var n := |values| - 1;
      Weigh(values[..n], weights[..n]) + values[n] * weights[n]
  }

  function WeightedMean(values: seq<real>, weights: seq<real>): real
    requires |values| == |weights|
  {
    if Sum(weights) > 0.0 then Weigh(values, weights) / Sum(weights) else 0.0
  }

  /** `Math.round(value * 100) / 100`: halves go up. */
  function Round(value: real): real {
    (value * 100.0 + 0.5).Floor as real / 100.0
  }

  // ---- Means lie between what they are means of ----

  predicate Within(values: seq<real>, low: real, high: real) {
    forall i :: 0 <= i < |values| ==> low <= values[i] <= high
  }

  predicate Positive(weights: seq<real>) {
    forall i :: 0 <= i < |weights| ==> weights[i] > 0.0
  }

  lemma QuotientWithin(s: real, n: real, low: real, high: real)
    requires n > 0.0 && low * n <= s <= high * n
    ensures low <= s / n <= high
  {
    var q := s / n;
    assert q * n == s;
    if q < low {
      Times(q, low, n);
    } else if q > high {
      Times(high, q, n);
    }
  }

  lemma Times(a: real, b: real, n: real)
    requires a < b && n > 0.0
    ensures a * n < b * n
  {
    assert (b - a) * n > 0.0;
  }

  lemma TimesAtMost(a: real, b: real, n: real)
    requires a <= b && n > 0.0
    ensures a * n <= b * n
  {
    assert (b - a) * n >= 0.0;
  }

  lemma {:induction false} SumWithin(values: seq<real>, low: real, high: real)
    requires Within(values, low, high)
    ensures low * (|values| as real) <= Sum(values) <= high * (|values| as real)
  {
    if values != [] {
      var n := |values| - 1;
      SumWithin(values[..n], low, high);
      assert (n + 1) as real == n as real + 1.0;
      assert low * (n as real + 1.0) == low * (n as real) + low;
      assert high * (n as real + 1.0) == high * (n as real) + high;
    }
  }

  lemma MeanWithin(values: seq<real>, low: real, high: real)
    requires Within(values, low, high) && values != []
    ensures low <= Mean(values) <= high
  {
    SumWithin(values, low, high);
    QuotientWithin(Sum(values), |values| as real, low, high);
  }

  lemma {:induction false} WeighWithin(values: seq<real>, weights: seq<real>, low: real, high: real)
    requires |values| == |weights| && Within(values, low, high) && Positive(weights)
    ensures low * Sum(weights) <= Weigh(values, weights) <= high * Sum(weights)
    ensures weights != [] ==> Sum(weights) > 0.0
  {
    if values != [] {
      var n := |values| - 1;
      var v, w, rest := values[n], weights[n], Sum(weights[..n]);
      WeighWithin(values[..n], weights[..n], low, high);
      assert rest >= 0.0 by {
        if n == 0 {
          assert weights[..n] == [];
        }
      }
      TimesAtMost(low, v, w);
      TimesAtMost(v, high, w);
      assert low * (rest + w) == low * rest + low * w;
      assert high * (rest + w) == high * rest + high * w;
    }
  }

  /** With positive weights a weighted mean lies between the values. */
  lemma WeightedMeanWithin(values: seq<real>, weights: seq<real>, low: real, high: real)
    requires |values| == |weights| && Within(values, low, high) && Positive(weights) && values != []
    ensures low <= WeightedMean(values, weights) <= high
  {
    WeighWithin(values, weights, low, high);
    QuotientWithin(Weigh(values, weights), Sum(weights), low, high);
  }

  /** How far the values lie from `centre`, each times its weight. */
  function Deviations(values: seq<real>, weights: seq<real>, centre: real): real
    requires |values| == |weights|
  {
    if values == [] then 0.0
    else
      var n := |values| - 1;
      Deviations(values[..n], weights[..n], centre) + (values[n] - centre) * weights[n]
  }

  lemma {:induction false} DeviationsAre(values: seq<real>, weights: seq<real>, centre: real)
    requires |values| == |weights|
    ensures Deviations(values, weights, centre) == Weigh(values, weights) - centre * Sum(weights)
  {
    if values != [] {
      var n := |values| - 1;
      DeviationsAre(values[..n], weights[..n], centre);
      assert (values[n] - centre) * weights[n] == values[n] * weights[n] - centre * weights[n];
      assert centre * (Sum(weights[..n]) + weights[n]) == centre * Sum(weights[..n]) + centre * weights[n];
    }
  }

  /** A weighted mean is where the weighted deviations balance, and nowhere else. */
  lemma WeightedMeanBalances(values: seq<real>, weights: seq<real>, centre: real)
    requires |values| == |weights| && Positive(weights) && values != []
    ensures Deviations(values, weights, centre) == 0.0 <==> centre == WeightedMean(values, weights)
  {
    DeviationsAre(values, weights, centre);
    WeightsArePositive(weights);
    QuotientIs(Weigh(values, weights), Sum(weights), centre);
  }

  lemma {:induction false} WeightsArePositive(weights: seq<real>)
    requires Positive(weights) && weights != []
    ensures Sum(weights) > 0.0
  {
    if |weights| > 1 {
      WeightsArePositive(weights[..|weights| - 1]);
    } else {
      assert weights[..0] == [];
    }
  }

  lemma QuotientIs(s: real, n: real, q: real)
    requires n > 0.0
    ensures s - q * n == 0.0 <==> q == s / n
  {
    var r := s / n;
    assert r * n == s;
    if q < r {
      Times(q, r, n);
    } else if r < q {
      Times(r, q, n);
    }
  }

  lemma RoundKeepsOrder(a: real, b: real)
    requires a <= b
    ensures Round(a) <= Round(b)
  {
    assert (a * 100.0 + 0.5).Floor <= (b * 100.0 + 0.5).Floor;
  }

  lemma RoundsWithin(a: real, low: real, high: real)
    requires low <= a <= high
    ensures Round(low) <= Round(a) <= Round(high)
  {
    RoundKeepsOrder(low, a);
    RoundKeepsOrder(a, high);
  }

  /** A rounded value is a whole number of hundredths, and no further off than half of one. */
  lemma RoundIsNear(value: real) returns (n: int)
    ensures Round(value) == n as real / 100.0 && value - 0.005 < Round(value) <= value + 0.005
  {
    n := (value * 100.0 + 0.5).Floor;
  }

  // ---- Sorting the samples ----

  predicate Ascending(values: seq<real>) {
    forall i, k :: 0 <= i < k < |values| ==> values[i] <= values[k]
  }

  function Insert(value: real, sorted: seq<real>): (r: seq<real>)
    requires Ascending(sorted)
    ensures Ascending(r) && multiset(r) == multiset(sorted) + multiset{value} && |r| == |sorted| + 1
    ensures forall low, high :: Within(sorted, low, high) && low <= value <= high ==> Within(r, low, high)
  {
    if sorted == [] || value <= sorted[0] then [value] + sorted
    else
      var rest := Insert(value, sorted[1..]);
      InsertAfter(value, sorted, rest);
      [sorted[0]] + rest
  }

  lemma InsertAfter(value: real, sorted: seq<real>, rest: seq<real>)
    requires sorted != [] && Ascending(sorted) && sorted[0] < value && Ascending(rest)
    requires multiset(rest) == multiset(sorted[1..]) + multiset{value}
    requires forall low, high :: Within(sorted[1..], low, high) && low <= value <= high ==> Within(rest, low, high)
    ensures Ascending([sorted[0]] + rest)
    ensures multiset([sorted[0]] + rest) == multiset(sorted) + multiset{value}
    ensures forall low, high :: Within(sorted, low, high) && low <= value <= high ==> Within([sorted[0]] + rest, low, high)
  {
    assert sorted == [sorted[0]] + sorted[1..];
    forall k | 0 <= k < |rest|
      ensures sorted[0] <= rest[k]
    {
      assert rest[k] in multiset(rest);
      if rest[k] != value {
        assert rest[k] in multiset(sorted[1..]);
        assert rest[k] in sorted[1..];
      }
    }
    forall low, high | Within(sorted, low, high) && low <= value <= high
      ensures Within([sorted[0]] + rest, low, high)
    {
      assert Within(sorted[1..], low, high);
    }
  }

  function Sort(values: seq<real>): (r: seq<real>)
    ensures Ascending(r) && multiset(r) == multiset(values) && |r| == |values|
    ensures forall low, high :: Within(values, low, high) ==> Within(r, low, high)
  {
    if values == [] then []
    else
      var n := |values| - 1;
      assert values == values[..n] + [values[n]];
      assert forall low, high :: Within(values, low, high) ==> Within(values[..n], low, high);
      Insert(values[n], Sort(values[..n]))
  }

  // ---- The bootstrap ----

  /** The cases with a paired difference at all. */
  function Usable(cases: seq<PairedCase>): (r: seq<PairedCase>)
    ensures forall i :: 0 <= i < |r| ==> r[i] in cases && r[i].diffs != []
    ensures forall i :: 0 <= i < |cases| && cases[i].diffs != [] ==> cases[i] in r
  {
    if cases == [] then []
    else
      var n := |cases| - 1;
      var front := Usable(cases[..n]);
      assert cases == cases[..n] + [cases[n]];
      if cases[n].diffs != [] then front + [cases[n]] else front
  }

  /** Every paired difference lies in the hull. */
  predicate InHull(cases: seq<PairedCase>, low: real, high: real) {
    forall i :: 0 <= i < |cases| ==> Within(cases[i].diffs, low, high)
  }

  predicate Weighted(cases: seq<PairedCase>) {
    forall i :: 0 <= i < |cases| ==> cases[i].weight > 0.0
  }

  function Means(cases: seq<PairedCase>): (r: seq<real>)
    ensures |r| == |cases| && forall i :: 0 <= i < |cases| ==> r[i] == Mean(cases[i].diffs)
  {
    seq(|cases|, i requires 0 <= i < |cases| => Mean(cases[i].diffs))
  }

  function Weights(cases: seq<PairedCase>): (r: seq<real>)
    ensures |r| == |cases| && forall i :: 0 <= i < |cases| ==> r[i] == cases[i].weight
  {
    seq(|cases|, i requires 0 <= i < |cases| => cases[i].weight)
  }

  lemma MeansWithin(cases: seq<PairedCase>, low: real, high: real)
    requires InHull(cases, low, high) && forall i :: 0 <= i < |cases| ==> cases[i].diffs != []
    ensures Within(Means(cases), low, high)
  {
    forall i | 0 <= i < |cases|
      ensures low <= Mean(cases[i].diffs) <= high
    {
      MeanWithin(cases[i].diffs, low, high);
    }
  }

  /** The generator's next index: any of them. */
  method Pick(n: nat) returns (i: nat)
    requires n > 0
    ensures i < n
  {
    i :| 0 <= i < n;
  }

  /** As many of the case's differences as it has, any of them any number of times. */
  ghost predicate IsDrawn(item: PairedCase, picked: seq<real>) {
    item.diffs != [] && |picked| == |item.diffs| && forall k :: 0 <= k < |picked| ==> picked[k] in item.diffs
  }

  /** As many cases as there are, any of them any number of times, and for each the mean of what was drawn of it. */
  ghost predicate AreDrawn(usable: seq<PairedCase>, values: seq<real>, weights: seq<real>) {
    && |values| == |weights| == |usable|
    && forall k :: 0 <= k < |values| ==> IsDraw(usable, values[k], weights[k])
  }

  ghost predicate IsDraw(usable: seq<PairedCase>, value: real, weight: real) {
    exists i, picked :: 0 <= i < |usable| && IsDrawn(usable[i], picked) && value == Mean(picked) && weight == usable[i].weight
  }

  /** A bootstrap sample: the weighted mean of such a draw. */
  ghost predicate IsSample(usable: seq<PairedCase>, sample: real) {
    exists values, weights :: AreDrawn(usable, values, weights) && sample == WeightedMean(values, weights)
  }

  /** One resampled case: the mean of as many of its differences, picked again. */
  method Resample(item: PairedCase, ghost low: real, ghost high: real) returns (value: real, ghost picked: seq<real>)
    requires item.diffs != [] && Within(item.diffs, low, high)
    ensures low <= value <= high
    ensures IsDrawn(item, picked) && value == Mean(picked)
  {
    var n := |item.diffs|;
    var sum := 0.0;
    picked := [];
    for d := 0 to n
      invariant |picked| == d && sum == Sum(picked) && Within(picked, low, high)
      invariant forall k :: 0 <= k < d ==> picked[k] in item.diffs
    {
      var i := Pick(n);
      sum := sum + item.diffs[i];
      picked := picked + [item.diffs[i]];
      assert picked[..d] + [item.diffs[i]] == picked;
    }
    MeanWithin(picked, low, high);
    value := sum / (n as real);
  }

  method Sample(usable: seq<PairedCase>, ghost low: real, ghost high: real) returns (sample: real)
    requires usable != [] && InHull(usable, low, high) && Weighted(usable)
    requires forall i :: 0 <= i < |usable| ==> usable[i].diffs != []
    ensures low <= sample <= high && IsSample(usable, sample)
  {
    hide Mean, WeightedMean;
    var values, weights: seq<real> := [], [];
    for c := 0 to |usable|
      invariant |values| == |weights| == c && Within(values, low, high) && Positive(weights)
      invariant forall k :: 0 <= k < c ==> IsDraw(usable, values[k], weights[k])
    {
      var i := Pick(|usable|);
      var value, picked := Resample(usable[i], low, high);
      assert IsDraw(usable, value, usable[i].weight);
      values := values + [value];
      weights := weights + [usable[i].weight];
    }
    WeightedMeanWithin(values, weights, low, high);
    assert AreDrawn(usable, values, weights);
    sample := WeightedMean(values, weights);
  }

  /**
   * What an estimate of the cases is, whatever is picked: their weighted mean, and an ordered
   * interval, all in the rounded hull of the paired differences; nothing without any difference.
   */
  ghost predicate Estimates(cases: seq<PairedCase>, low: real, high: real, r: Estimate) {
    && r.ci90.low <= r.ci90.high
    && (Usable(cases) == [] ==> r == Estimate(0.0, Interval(0.0, 0.0)))
    && (Usable(cases) != [] ==>
          && r.delta == Round(WeightedMean(Means(Usable(cases)), Weights(Usable(cases))))
          && Round(low) <= r.delta <= Round(high)
          && Round(low) <= r.ci90.low && r.ci90.high <= Round(high))
  }

  method PairedBootstrap(cases: seq<PairedCase>, ghost low: real, ghost high: real)
      returns (r: Estimate, ghost drawn: seq<real>)
    requires Weighted(cases) && InHull(cases, low, high)
    ensures Estimates(cases, low, high, r)
    ensures Usable(cases) != [] ==>
              && |drawn| == ITERATIONS && (forall i :: 0 <= i < ITERATIONS ==> IsSample(Usable(cases), drawn[i]))
              && r.ci90 == Interval(Round(Sort(drawn)[500]), Round(Sort(drawn)[9500]))
  {
    hide WeightedMean, Round, Mean, IsSample;
    var usable := Usable(cases);
    if |usable| == 0 {
      return Estimate(0.0, Interval(0.0, 0.0)), [];
    }
    UsableKeeps(cases, low, high);
    MeansWithin(usable, low, high);
    WeightedMeanWithin(Means(usable), Weights(usable), low, high);
    var delta := WeightedMean(Means(usable), Weights(usable));
    RoundsWithin(delta, low, high);
    var samples := new real[ITERATIONS];
    for i := 0 to ITERATIONS
      invariant Within(samples[..i], low, high)
      invariant forall k :: 0 <= k < i ==> IsSample(usable, samples[k])
    {
      var sample := Sample(usable, low, high);
      samples[i] := sample;
      assert samples[..i + 1] == samples[..i] + [sample];
    }
    assert samples[..ITERATIONS] == samples[..];
    drawn := samples[..];
    var sorted := Sort(samples[..]);
    RoundsWithin(sorted[500], low, high);
    RoundsWithin(sorted[9500], low, high);
    RoundKeepsOrder(sorted[500], sorted[9500]);
    r := Estimate(Round(delta), Interval(Round(At(sorted, 0.05)), Round(At(sorted, 0.95))));
  }

  /** The sample at a quantile. */
  function At(sorted: seq<real>, q: real): (r: real)
    requires |sorted| == ITERATIONS && 0.0 <= q <= 1.0
    ensures q == 0.05 ==> r == sorted[500]
    ensures q == 0.95 ==> r == sorted[9500]
  {
    var i := (q * (ITERATIONS as real)).Floor;
    sorted[if i < ITERATIONS - 1 then i else ITERATIONS - 1]
  }

  lemma UsableKeeps(cases: seq<PairedCase>, low: real, high: real)
    requires Weighted(cases) && InHull(cases, low, high)
    ensures Weighted(Usable(cases)) && InHull(Usable(cases), low, high) && Positive(Weights(Usable(cases)))
  {
    var usable := Usable(cases);
    forall i | 0 <= i < |usable|
      ensures usable[i].weight > 0.0 && Within(usable[i].diffs, low, high)
    {
      assert usable[i] in cases;
    }
  }

  // ---- The smallest change that counts ----

  function Variance(values: seq<real>): real {
    if |values| < 2 then 0.0 else Squares(values, Mean(values)) / ((|values| - 1) as real)
  }

  function Squares(values: seq<real>, centre: real): real {
    if values == [] then 0.0
    else
      var n := |values| - 1;
      Squares(values[..n], centre) + (values[n] - centre) * (values[n] - centre)
  }

  function MostTrials(cases: seq<PairedCase>): (n: nat)
    ensures n >= 1 && forall i :: 0 <= i < |cases| ==> |cases[i].diffs| <= n
  {
    if cases == [] then 1
    else
      var front := MostTrials(cases[..|cases| - 1]);
      var last := |cases[|cases| - 1].diffs|;
      if last > front then last else front
  }

  /** How far the mean difference may stray; `root` is the square root. */
  function ErrorOf(cases: seq<PairedCase>, noise: real, root: real -> real): real {
    var means := Means(Usable(cases));
    if |means| >= 2 then root(Variance(means) / (|means| as real)) else noise * root(2.0 / (MostTrials(cases) as real))
  }

  function MinDetectable(cases: seq<PairedCase>, noise: real, root: real -> real): (r: real)
    ensures r >= 2.0
  {
    var error := ErrorOf(cases, noise, root);
    RoundKeepsOrder(2.0, if 2.0 * error > 2.0 then 2.0 * error else 2.0);
    assert Round(2.0) == 2.0;
    Round(if 2.0 * error > 2.0 then 2.0 * error else 2.0)
  }

  ghost predicate IsRoot(root: real -> real) {
    forall x: real :: x >= 0.0 ==> root(x) >= 0.0 && root(x) * root(x) == x
  }

  /**
   * The standard error of the mean difference: its square, over n cases, is their squared deviations
   * by n (n - 1); with one case, twice the squared noise by the number of trials.
   */
  ghost predicate IsStandardError(cases: seq<PairedCase>, noise: real, error: real) {
    var means := Means(Usable(cases));
    && error >= 0.0
    && if |means| >= 2 then
         error * error * (|means| as real) * ((|means| - 1) as real) == Squares(means, Mean(means))
       else
         error * error * (MostTrials(cases) as real) == 2.0 * (noise * noise)
  }

  lemma {:induction false} SquaresPositive(values: seq<real>, centre: real)
    ensures Squares(values, centre) >= 0.0
  {
    if values != [] {
      SquaresPositive(values[..|values| - 1], centre);
      var d := values[|values| - 1] - centre;
      assert d * d >= 0.0;
    }
  }

  lemma RootOfQuotient(root: real -> real, s: real, n: real, m: real)
    requires IsRoot(root) && s >= 0.0 && n > 0.0 && m > 0.0
    ensures var e := root(s / m / n); e >= 0.0 && e * e * n * m == s
  {
    var v := s / m;
    assert v * m == s && v >= 0.0;
    var q := v / n;
    assert q * n == v && q >= 0.0;
    assert root(q) * root(q) == q;
  }

  lemma EqualTimes(a: real, b: real, c: real)
    requires a == b
    ensures a * c == b * c && c * a == c * b
  {
  }

  lemma TimesRegroup(a: real, b: real, c: real)
    ensures (a * b) * c == a * (b * c)
  {
  }

  lemma SquareOfProduct(a: real, r: real)
    ensures (a * r) * (a * r) == (a * a) * (r * r)
  {
  }

  lemma NoiseByTrials(error: real, noise: real, r: real, q: real, t: real)
    requires error == noise * r && r * r == q && q * t == 2.0
    ensures error * error * t == 2.0 * (noise * noise)
  {
    var squared := noise * noise;
    assert error * error == squared * q by {
      SquareOfProduct(noise, r);
      EqualTimes(r * r, q, squared);
    }
    EqualTimes(error * error, squared * q, t);
    TimesRegroup(squared, q, t);
    EqualTimes(q * t, 2.0, squared);
  }

  lemma RootOfNoise(root: real -> real, noise: real, t: real, error: real)
    requires IsRoot(root) && noise >= 0.0 && t > 0.0 && error == noise * root(2.0 / t)
    ensures error >= 0.0 && error * error * t == 2.0 * (noise * noise)
  {
    var q := 2.0 / t;
    assert q * t == 2.0 && q >= 0.0;
    assert root(q) * root(q) == q && root(q) >= 0.0;
    NoiseByTrials(error, noise, root(q), q, t);
  }

  /** The smallest change that counts is twice the standard error, or two points where that is more. */
  lemma MinDetectableIs(cases: seq<PairedCase>, noise: real, root: real -> real)
    requires IsRoot(root) && noise >= 0.0
    ensures IsStandardError(cases, noise, ErrorOf(cases, noise, root))
    ensures var error := ErrorOf(cases, noise, root);
            MinDetectable(cases, noise, root) == Round(if error > 1.0 then 2.0 * error else 2.0)
  {
    if |Means(Usable(cases))| >= 2 {
      ErrorOfMany(cases, noise, root);
    } else {
      RootOfNoise(root, noise, MostTrials(cases) as real, ErrorOf(cases, noise, root));
    }
    hide Squares, Mean, Round, IsRoot, Variance, Means, Usable, MostTrials;
  }

  lemma ErrorOfMany(cases: seq<PairedCase>, noise: real, root: real -> real)
    requires IsRoot(root) && |Means(Usable(cases))| >= 2
    ensures IsStandardError(cases, noise, ErrorOf(cases, noise, root))
  {
    var means := Means(Usable(cases));
    SquaresPositive(means, Mean(means));
    hide Squares, Mean, Round, IsRoot, Means, Usable, MostTrials;
    RootOfQuotient(root, Squares(means, Mean(means)), |means| as real, (|means| - 1) as real);
  }

  // ---- The verdict ----

  predicate Below(ci90: Interval) {
    ci90.high < 0.0
  }

  function Decide(dev: Estimate, heldOut: Estimate, nonRegression: Option<Interval>, minDetectable: real,
                  worse: nat): Decision {
    if Below(dev.ci90) || Below(heldOut.ci90) || (nonRegression.Some? && Below(nonRegression.value)) then Worse
    else if dev.ci90.low > 0.0 && dev.delta > minDetectable && heldOut.delta >= -minDetectable && worse == 0 then Better
    else Inconclusive
  }

  /** What a comparison is made from: the paired cases of each kind, the noise, the guardrails that got worse. */
  datatype Comparison = Comparison(
    dev: seq<PairedCase>,
    heldOut: seq<PairedCase>,
    claude: Option<seq<PairedCase>>,
    noise: real,
    worse: nat)

  /** The hulls of the paired differences of each kind. */
  datatype Hulls = Hulls(dev: Interval, heldOut: Interval, claude: Interval)

  ghost predicate AllWithin(c: Comparison, hulls: Hulls) {
    && InHull(c.dev, hulls.dev.low, hulls.dev.high) && InHull(c.heldOut, hulls.heldOut.low, hulls.heldOut.high)
    && (c.claude.Some? ==> InHull(c.claude.value, hulls.claude.low, hulls.claude.high))
  }

  predicate AllWeighted(c: Comparison) {
    Weighted(c.dev) && Weighted(c.heldOut) && (c.claude.Some? ==> Weighted(c.claude.value))
  }

  /** There are differences, and they all round to less than nothing. */
  ghost predicate Falls(cases: seq<PairedCase>, hull: Interval) {
    Usable(cases) != [] && Round(hull.high) < 0.0
  }

  ghost predicate NeverFalls(cases: seq<PairedCase>, hull: Interval) {
    Usable(cases) == [] || Round(hull.low) >= 0.0
  }

  /** Every rise on the dev cases counts, no other case falls, and no guardrail got worse. */
  ghost predicate OnlyRises(c: Comparison, hulls: Hulls, smallest: real) {
    && Usable(c.dev) != [] && Round(hulls.dev.low) > smallest
    && NeverFalls(c.heldOut, hulls.heldOut) && (c.claude.Some? ==> NeverFalls(c.claude.value, hulls.claude))
    && c.worse == 0
  }

  /**
   * The verdict of the comparison, whatever the generator picks, exactly by the estimates it drew;
   * and what the differences alone settle: worse when those of a kind all fall, better when those
   * on the dev cases all rise by more than what counts, the others do not fall, and no guardrail
   * got worse.
   */
  method Verdict(c: Comparison, root: real -> real, ghost hulls: Hulls)
      returns (d: Decision, ghost dev: Estimate, ghost heldOut: Estimate, ghost claude: Option<Estimate>)
    requires AllWeighted(c) && AllWithin(c, hulls)
    ensures Estimates(c.dev, hulls.dev.low, hulls.dev.high, dev)
    ensures Estimates(c.heldOut, hulls.heldOut.low, hulls.heldOut.high, heldOut)
    ensures claude.Some? <==> c.claude.Some?
    ensures claude.Some? ==> Estimates(c.claude.value, hulls.claude.low, hulls.claude.high, claude.value)
    ensures d == Worse <==>
              dev.ci90.high < 0.0 || heldOut.ci90.high < 0.0 || (claude.Some? && claude.value.ci90.high < 0.0)
    ensures d == Better <==>
              && heldOut.ci90.high >= 0.0 && (claude.Some? ==> claude.value.ci90.high >= 0.0)
              && dev.ci90.low > 0.0 && dev.delta > MinDetectable(c.dev, c.noise, root)
              && heldOut.delta >= -MinDetectable(c.dev, c.noise, root) && c.worse == 0
    ensures Falls(c.dev, hulls.dev) || Falls(c.heldOut, hulls.heldOut) ==> d == Worse
    ensures c.claude.Some? && Falls(c.claude.value, hulls.claude) ==> d == Worse
    ensures OnlyRises(c, hulls, MinDetectable(c.dev, c.noise, root)) ==> d == Better
    ensures hulls.dev.low >= 0.0 && hulls.heldOut.low >= 0.0 && hulls.claude.low >= 0.0 ==> d != Worse
    ensures hulls.dev.high <= 2.0 ==> d != Better
  {
    hide Usable, InHull, Weighted, Round, MinDetectable, Means, WeightedMean, Weights, Estimates, Falls, NeverFalls;
    var devEstimate, _ := PairedBootstrap(c.dev, hulls.dev.low, hulls.dev.high);
    var heldOutEstimate, _ := PairedBootstrap(c.heldOut, hulls.heldOut.low, hulls.heldOut.high);
    dev, heldOut, claude := devEstimate, heldOutEstimate, None;
    var nonRegression := None;
    if c.claude.Some? {
      var estimate, _ := PairedBootstrap(c.claude.value, hulls.claude.low, hulls.claude.high);
      claude := Some(estimate);
      nonRegression := Some(estimate.ci90);
    }
    var smallest := MinDetectable(c.dev, c.noise, root);
    assert smallest >= 2.0;
    SettlesDev(c.dev, hulls.dev, dev);
    SettlesOther(c.heldOut, hulls.heldOut, heldOut);
    if claude.Some? {
      SettlesOther(c.claude.value, hulls.claude, claude.value);
    }
    d := Decide(devEstimate, heldOutEstimate, nonRegression, smallest, c.worse);
  }

  /** A guardrail got worse when its whole interval lies above nothing. */
  method Worsened(cases: seq<PairedCase>, ghost low: real, ghost high: real) returns (worse: bool, ghost estimate: Estimate)
    requires Weighted(cases) && InHull(cases, low, high)
    ensures Estimates(cases, low, high, estimate) && (worse <==> estimate.ci90.low > 0.0)
    ensures Usable(cases) != [] && Round(low) > 0.0 ==> worse
    ensures high <= 0.0 || Usable(cases) == [] ==> !worse
  {
    hide Usable, InHull, Weighted, Round, Means, WeightedMean, Weights;
    var drawn, _ := PairedBootstrap(cases, low, high);
    estimate := drawn;
    RoundsOfWhole(low, high);
    worse := drawn.ci90.low > 0.0;
  }

  /** What the hull of the dev differences settles of their estimate. */
  lemma SettlesDev(cases: seq<PairedCase>, hull: Interval, e: Estimate)
    requires Estimates(cases, hull.low, hull.high, e)
    ensures Falls(cases, hull) ==> e.ci90.high < 0.0
    ensures hull.low >= 0.0 ==> e.ci90.high >= 0.0
    ensures hull.high <= 2.0 ==> e.delta <= 2.0
    ensures e.ci90.low <= e.ci90.high
    ensures Usable(cases) != [] ==> e.ci90.low >= Round(hull.low) && e.ci90.high >= Round(hull.low) && e.delta >= Round(hull.low)
  {
    hide Usable, Round, Means, WeightedMean, Weights;
    RoundsOfWhole(hull.low, hull.high);
  }

  lemma SettlesOther(cases: seq<PairedCase>, hull: Interval, e: Estimate)
    requires Estimates(cases, hull.low, hull.high, e)
    ensures Falls(cases, hull) ==> e.ci90.high < 0.0
    ensures NeverFalls(cases, hull) ==> e.ci90.high >= 0.0 && e.delta >= 0.0
    ensures hull.low >= 0.0 ==> e.ci90.high >= 0.0
  {
    hide Usable, Round, Means, WeightedMean, Weights;
    RoundsOfWhole(hull.low, hull.high);
  }

  lemma RoundsOfWhole(low: real, high: real)
    ensures low >= 0.0 ==> Round(low) >= 0.0
    ensures high <= 2.0 ==> Round(high) <= 2.0
    ensures high <= 0.0 ==> Round(high) <= 0.0
  {
    assert Round(0.0) == 0.0 && Round(2.0) == 2.0;
    if high <= 0.0 {
      RoundKeepsOrder(high, 0.0);
    }
    if low >= 0.0 {
      RoundKeepsOrder(0.0, low);
    }
    if high <= 2.0 {
      RoundKeepsOrder(high, 2.0);
    }
  }
}
