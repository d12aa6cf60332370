/** Benchmark regression classification: median and median absolute deviation over exact reals. */
module Budgets {

  // ── statistics.median ──────────────────────────────────────────────────

  ghost predicate Sorted(q: seq<real>) {
    forall i, j :: 0 <= i < j < |q| ==> q[i] <= q[j]
  }

  function Insert(x: real, q: seq<real>): seq<real> {
    if q == [] || x <= q[0] then [x] + q else [q[0]] + Insert(x, q[1..])
  }

  function Sort(q: seq<real>): seq<real> {
    if q == [] then [] else Insert(q[0], Sort(q[1..]))
  }

  function Median(q: seq<real>): real
    requires q != []
  {
    SortIsSorted(q);
    Middle(Sort(q))
  }

  function Middle(s: seq<real>): real
    requires s != []
  {
    var n := |s|;
    if n % 2 == 1 then s[n / 2] else (s[n / 2 - 1] + s[n / 2]) / 2.0
  }

  lemma {:induction false} InsertElements(x: real, q: seq<real>)
    ensures |Insert(x, q)| == |q| + 1
    ensures forall i :: 0 <= i < |Insert(x, q)| ==> Insert(x, q)[i] == x || Insert(x, q)[i] in q
  {
    if q != [] && x > q[0] {
      InsertElements(x, q[1..]);
    }
  }

  lemma {:induction false} InsertSorts(x: real, q: seq<real>)
    requires Sorted(q)
    ensures Sorted(Insert(x, q))
  {
    if q != [] && x > q[0] {
      InsertSorts(x, q[1..]);
      InsertElements(x, q[1..]);
    }
  }

  lemma {:induction false} InsertPermutes(x: real, q: seq<real>)
    ensures multiset(Insert(x, q)) == multiset(q) + multiset{x}
  {
    if q != [] && x > q[0] {
      InsertPermutes(x, q[1..]);
      assert q == [q[0]] + q[1..];
    }
  }

  lemma {:induction false} SortIsSorted(q: seq<real>)
    ensures Sorted(Sort(q)) && multiset(Sort(q)) == multiset(q) && |Sort(q)| == |q|
  {
    if q != [] {
      SortIsSorted(q[1..]);
      InsertSorts(q[0], Sort(q[1..]));
      InsertPermutes(q[0], Sort(q[1..]));
      InsertElements(q[0], Sort(q[1..]));
      assert q == [q[0]] + q[1..];
    }
  }

  lemma FirstIsLeast(a: seq<real>, x: real)
    requires Sorted(a) && x in multiset(a)
    ensures a != [] && a[0] <= x
  {
    assert x in a;
  }

  lemma TailMultiset(a: seq<real>)
    requires a != []
    ensures multiset(a[1..]) == multiset(a) - multiset{a[0]}
    ensures a[0] in multiset(a)
  {
    assert a == [a[0]] + a[1..];
  }

  lemma SortedTail(a: seq<real>)
    requires a != [] && Sorted(a)
    ensures Sorted(a[1..])
  {
  }

  lemma SameHeadAndTail(a: seq<real>, b: seq<real>)
    requires a != [] && b != [] && Sorted(a) && Sorted(b) && multiset(a) == multiset(b)
    ensures a[0] == b[0] && multiset(a[1..]) == multiset(b[1..])
  {
    TailMultiset(a);
    TailMultiset(b);
    FirstIsLeast(a, b[0]);
    FirstIsLeast(b, a[0]);
  }

  /** A multiset has one sorted arrangement. */
  lemma {:induction false} SortedUnique(a: seq<real>, b: seq<real>)
    requires |a| == |b| && Sorted(a) && Sorted(b) && multiset(a) == multiset(b)
    ensures a == b
  {
    if a != [] {
      SameHeadAndTail(a, b);
      SortedTail(a);
      SortedTail(b);
      SortedUnique(a[1..], b[1..]);
      assert a == [a[0]] + a[1..] && b == [b[0]] + b[1..];
    }
  }

  // ── Negation ───────────────────────────────────────────────────────────

  function Negated(q: seq<real>): (r: seq<real>)
    ensures |r| == |q| && forall i :: 0 <= i < |q| ==> r[i] == -q[i]
  {
    seq(|q|, i requires 0 <= i < |q| => -q[i])
  }

  function Reversed(q: seq<real>): (r: seq<real>)
    ensures |r| == |q| && forall i :: 0 <= i < |q| ==> r[i] == q[|q| - 1 - i]
  {
    seq(|q|, i requires 0 <= i < |q| => q[|q| - 1 - i])
  }

  function Count(q: seq<real>, x: real): nat {
    if q == [] then 0 else (if q[0] == x then 1 else 0) + Count(q[1..], x)
  }

  lemma {:induction false} CountIsMultiplicity(q: seq<real>, x: real)
    ensures Count(q, x) == multiset(q)[x]
  {
    if q != [] {
      CountIsMultiplicity(q[1..], x);
      assert q == [q[0]] + q[1..];
      assert multiset(q) == multiset{q[0]} + multiset(q[1..]);
    }
  }

  ghost predicate SameCounts(a: seq<real>, b: seq<real>) {
    forall x :: Count(a, x) == Count(b, x)
  }

  lemma SameCountsIffPermutation(a: seq<real>, b: seq<real>)
    ensures SameCounts(a, b) <==> multiset(a) == multiset(b)
  {
    forall x
      ensures Count(a, x) == multiset(a)[x] && Count(b, x) == multiset(b)[x]
    {
      CountIsMultiplicity(a, x);
      CountIsMultiplicity(b, x);
    }
    if SameCounts(a, b) {
      assert forall x :: multiset(a)[x] == multiset(b)[x];
    }
  }

  lemma {:induction false} CountNegated(q: seq<real>, x: real)
    ensures Count(Negated(q), x) == Count(q, -x)
  {
    if q != [] {
      CountNegated(q[1..], x);
      assert Negated(q)[1..] == Negated(q[1..]);
    }
  }

  lemma {:induction false} ReversedMultiset(q: seq<real>)
    ensures multiset(Reversed(q)) == multiset(q)
  {
    if q != [] {
      ReversedMultiset(q[1..]);
      assert q == [q[0]] + q[1..];
      assert Reversed(q) == Reversed(q[1..]) + [q[0]];
    }
  }

  /** Negating the samples reverses the sorted order. */
  lemma SortNegated(q: seq<real>)
    ensures Sort(Negated(q)) == Reversed(Negated(Sort(q)))
  {
    var s := Sort(q);
    SortIsSorted(q);
    SortIsSorted(Negated(q));
    ReversedMultiset(Negated(s));
    SameCountsIffPermutation(q, s);
    forall x
      ensures Count(Negated(q), x) == Count(Negated(s), x)
    {
      CountNegated(q, x);
      CountNegated(s, x);
    }
    SameCountsIffPermutation(Negated(q), Negated(s));
    SortedUnique(Sort(Negated(q)), Reversed(Negated(s)));
  }

  lemma MiddleMirrored(s: seq<real>)
    requires s != []
    ensures Middle(Reversed(Negated(s))) == -Middle(s)
  {
    var n := |s|;
    assert Reversed(Negated(s))[n / 2] == -s[n - 1 - n / 2];
    if n % 2 == 0 {
      assert Reversed(Negated(s))[n / 2 - 1] == -s[n / 2];
    }
  }

  lemma MedianNegated(q: seq<real>)
    requires q != []
    ensures Median(Negated(q)) == -Median(q)
  {
    SortNegated(q);
    SortIsSorted(q);
    MiddleMirrored(Sort(q));
  }

  lemma MedianOfPermutation(a: seq<real>, b: seq<real>)
    requires a != [] && multiset(a) == multiset(b)
    ensures b != [] && Median(a) == Median(b)
  {
    SortIsSorted(a);
    SortIsSorted(b);
    assert |a| == |multiset(a)| == |multiset(b)| == |b|;
    SortedUnique(Sort(a), Sort(b));
  }

  // ── Median absolute deviation ──────────────────────────────────────────

  function Abs(x: real): real { if x < 0.0 then -x else x }

  function MaxR(a: real, b: real): real { if a <= b then b else a }

  function Deviations(q: seq<real>, centre: real): (r: seq<real>)
    ensures |r| == |q| && forall i :: 0 <= i < |q| ==> r[i] == Abs(q[i] - centre)
  {
    seq(|q|, i requires 0 <= i < |q| => Abs(q[i] - centre))
  }

  function Mad(q: seq<real>): real
    requires q != []
  {
    Median(Deviations(q, Median(q)))
  }

  lemma MadNegated(q: seq<real>)
    requires q != []
    ensures Mad(Negated(q)) == Mad(q)
  {
    MedianNegated(q);
    assert Deviations(Negated(q), -Median(q)) == Deviations(q, Median(q));
  }

  /** How often a deviation occurs, read off the samples themselves. */
  lemma {:induction false} CountDeviations(q: seq<real>, centre: real, x: real)
    ensures Count(Deviations(q, centre), x)
         == (if x < 0.0 then 0
             else if x == 0.0 then Count(q, centre)
             else Count(q, centre + x) + Count(q, centre - x))
  {
    if q != [] {
      CountDeviations(q[1..], centre, x);
      assert Deviations(q, centre)[1..] == Deviations(q[1..], centre);
    }
  }

  lemma DeviationsOfPermutation(a: seq<real>, b: seq<real>, centre: real)
    requires multiset(a) == multiset(b)
    ensures multiset(Deviations(a, centre)) == multiset(Deviations(b, centre))
  {
    SameCountsIffPermutation(a, b);
    forall x
      ensures Count(Deviations(a, centre), x) == Count(Deviations(b, centre), x)
    {
      CountDeviations(a, centre, x);
      CountDeviations(b, centre, x);
    }
    SameCountsIffPermutation(Deviations(a, centre), Deviations(b, centre));
  }

  lemma MadOfPermutation(a: seq<real>, b: seq<real>)
    requires a != [] && multiset(a) == multiset(b)
    ensures b != [] && Mad(a) == Mad(b)
  {
    MedianOfPermutation(a, b);
    DeviationsOfPermutation(a, b, Median(a));
    MedianOfPermutation(Deviations(a, Median(a)), Deviations(b, Median(a)));
  }

  // ── One metric ─────────────────────────────────────────────────────────

  datatype Direction = LowerIsBetter | HigherIsBetter

  datatype Class = Noise | Improvement | ActionableRegression

  /** A metric's samples, its baseline and its budget. */
  datatype Metric = Metric(
    direction: Direction, values: seq<real>, baseline: real, baselineMad: real, bound: real,
    noiseFloor: real, noisePct: real)

  datatype Tier = Tier(regressionPct: real, absoluteAllowance: real)

  function Percent(x: real, pct: real): real { x * pct / 100.0 }

  function NoiseBand(noiseFloor: real, noisePct: real, baseline: real, baselineMad: real, currentMad: real): real {
    MaxR(MaxR(noiseFloor, 3.0 * baselineMad), MaxR(3.0 * currentMad, Percent(Abs(baseline), noisePct)))
  }

  function RelativeAllowance(baseline: real, tier: Tier): real {
    if Abs(baseline) > 0.000000000001 then Percent(Abs(baseline), tier.regressionPct) else tier.absoluteAllowance
  }

  /** The decision itself, once the statistics and the two allowances are known. */
  function Decide(direction: Direction, current: real, baseline: real, bound: real, band: real, allowance: real): Class {
    var delta := current - baseline;
    var lower := direction == LowerIsBetter;
    var worsening := if lower then delta > 0.0 else delta < 0.0;
    var improving := if lower then delta < 0.0 else delta > 0.0;
    var absoluteFail := if lower then current > bound else current < bound;
    var regression := worsening && Abs(delta) > MaxR(band, allowance);
    if absoluteFail || regression then ActionableRegression
    else if improving && Abs(delta) > band then Improvement
    else Noise
  }

  function Band(m: Metric): real
    requires m.values != []
  {
    NoiseBand(m.noiseFloor, m.noisePct, m.baseline, m.baselineMad, Mad(m.values))
  }

  function Classify(m: Metric, tier: Tier): Class
    requires m.values != []
  {
    Decide(m.direction, Median(m.values), m.baseline, m.bound, Band(m), RelativeAllowance(m.baseline, tier))
  }

  function Other(d: Direction): Direction { if d == LowerIsBetter then HigherIsBetter else LowerIsBetter }

  lemma DecideMirrored(d: Direction, current: real, baseline: real, bound: real, band: real, allowance: real)
    ensures Decide(Other(d), -current, -baseline, -bound, band, allowance)
         == Decide(d, current, baseline, bound, band, allowance)
  {
  }

  function Mirrored(m: Metric): Metric {
    m.(direction := Other(m.direction), values := Negated(m.values), baseline := -m.baseline, bound := -m.bound)
  }

  lemma AllowancesMirrored(noiseFloor: real, noisePct: real, baseline: real, baselineMad: real, mad: real, tier: Tier)
    ensures NoiseBand(noiseFloor, noisePct, -baseline, baselineMad, mad)
         == NoiseBand(noiseFloor, noisePct, baseline, baselineMad, mad)
    ensures RelativeAllowance(-baseline, tier) == RelativeAllowance(baseline, tier)
  {
    assert Abs(-baseline) == Abs(baseline);
  }

  /** Classifying in one direction is classifying the negated measurements in the other. */
  lemma ClassifyMirrored(m: Metric, tier: Tier)
    requires m.values != []
    ensures Classify(Mirrored(m), tier) == Classify(m, tier)
  {
    MedianNegated(m.values);
    MadNegated(m.values);
    AllowancesMirrored(m.noiseFloor, m.noisePct, m.baseline, m.baselineMad, Mad(m.values), tier);
    var k := Mirrored(m);
    assert k.values == Negated(m.values) && k.baseline == -m.baseline && k.bound == -m.bound;
    assert Band(k) == Band(m);
    assert Classify(k, tier)
        == Decide(Other(m.direction), -Median(m.values), -m.baseline, -m.bound, Band(m),
                RelativeAllowance(m.baseline, tier));
    DecideMirrored(m.direction, Median(m.values), m.baseline, m.bound, Band(m), RelativeAllowance(m.baseline, tier));
  }

  /** The order in which the runs are supplied does not matter. */
  lemma ClassifyOrderIndependent(m: Metric, values: seq<real>, tier: Tier)
    requires m.values != [] && multiset(m.values) == multiset(values)
    ensures values != [] && Classify(m.(values := values), tier) == Classify(m, tier)
  {
    MedianOfPermutation(m.values, values);
    MadOfPermutation(m.values, values);
  }

  /** The median is the middle of the samples in order, or the mean of the two middle ones. */
  lemma MedianExactly(q: seq<real>, s: seq<real>)
    requires q != [] && Sorted(s) && multiset(s) == multiset(q)
    ensures |s| == |q|
    ensures Median(q) == if |s| % 2 == 1 then s[|s| / 2] else (s[|s| / 2 - 1] + s[|s| / 2]) / 2.0
  {
    SortIsSorted(q);
    assert |s| == |multiset(s)| == |multiset(q)| == |q|;
    SortedUnique(Sort(q), s);
  }

  /** The median absolute deviation is the median of the distances from the median. */
  lemma MadExactly(q: seq<real>, distances: seq<real>)
    requires q != [] && |distances| == |q|
    requires forall i :: 0 <= i < |q| ==>
               distances[i] == if q[i] < Median(q) then Median(q) - q[i] else q[i] - Median(q)
    ensures Mad(q) == Median(distances)
  {
    assert distances == Deviations(q, Median(q));
  }

  /** By how much the metric is worse than its baseline. */
  function Worsening(m: Metric): real
    requires m.values != []
  {
    if m.direction == LowerIsBetter then Median(m.values) - m.baseline else m.baseline - Median(m.values)
  }

  /** The difference is beyond all noise: the fixed floor, three deviations of the baseline and of the samples, and
      the given share of the baseline. */
  predicate BeyondNoise(m: Metric, d: real)
    requires m.values != []
  {
    && d > 0.0 && d > m.noiseFloor && d > 3.0 * m.baselineMad && d > 3.0 * Mad(m.values)
    && 100.0 * d > (if m.baseline < 0.0 then -m.baseline else m.baseline) * m.noisePct
  }

  /** The difference is beyond what the tier allows. */
  predicate BeyondAllowance(m: Metric, tier: Tier, d: real) {
    if m.baseline > 0.000000000001 then 100.0 * d > m.baseline * tier.regressionPct
    else if m.baseline < -0.000000000001 then 100.0 * d > -m.baseline * tier.regressionPct
    else d > tier.absoluteAllowance
  }

  predicate BoundBroken(m: Metric)
    requires m.values != []
  {
    if m.direction == LowerIsBetter then Median(m.values) > m.bound else Median(m.values) < m.bound
  }

  lemma BeyondBand(m: Metric, d: real)
    requires m.values != []
    ensures d > 0.0 && d > Band(m) <==> BeyondNoise(m, d)
  {
    hide Mad, Percent;
    PercentExactly(Abs(m.baseline), m.noisePct, d);
  }

  lemma PercentExactly(x: real, pct: real, d: real)
    ensures d > Percent(x, pct) <==> 100.0 * d > x * pct
  {
    var p := x * pct;
    assert 100.0 * (p / 100.0) == p;
  }

  /** A metric is an actionable regression exactly if it breaks its bound, or has become worse by more than all noise
      and more than its tier allows; otherwise it is an improvement exactly if it has become better by more than
      all noise. */
  lemma ClassifyExactly(m: Metric, tier: Tier)
    requires m.values != []
    ensures Classify(m, tier) == ActionableRegression
       <==> BoundBroken(m) || (BeyondNoise(m, Worsening(m)) && BeyondAllowance(m, tier, Worsening(m)))
    ensures Classify(m, tier) == Improvement
       <==> Classify(m, tier) != ActionableRegression && BeyondNoise(m, -Worsening(m))
  {
    hide Median, Mad, Band, BeyondNoise, Percent;
    PercentExactly(Abs(m.baseline), tier.regressionPct, Worsening(m));
    BeyondBand(m, Worsening(m));
    BeyondBand(m, -Worsening(m));
  }

  // ── All metrics of a profile ───────────────────────────────────────────

  /** The overall verdict, stated without any order: actionable if some metric is, else an
      improvement if some metric is, else noise. */
  function Worst(classes: seq<Class>): Class {
    if ActionableRegression in classes then ActionableRegression
    else if Improvement in classes then Improvement
    else Noise
  }

  /** How the running verdict absorbs one more classification. */
  function Absorb(overall: Class, c: Class): Class {
    if c == ActionableRegression || (c == Improvement && overall == Noise) then c else overall
  }

  lemma WorstSnoc(classes: seq<Class>, c: Class)
    ensures Worst(classes + [c]) == Absorb(Worst(classes), c)
  {
    assert forall x :: x in classes + [c] <==> x in classes || x == c;
  }

  function ClassifyAll(metrics: seq<Metric>, tier: Tier): seq<Class>
    requires forall i :: 0 <= i < |metrics| ==> metrics[i].values != []
  {
    seq(|metrics|, i requires 0 <= i < |metrics| => Classify(metrics[i], tier))
  }

  method RepeatedCheck(metrics: seq<Metric>, tier: Tier) returns (classes: seq<Class>, overall: Class)
    requires forall i :: 0 <= i < |metrics| ==> metrics[i].values != []
    ensures classes == ClassifyAll(metrics, tier)
    ensures overall == Worst(classes)
  {
    classes, overall := [], Noise;
    for i := 0 to |metrics|
      invariant classes == ClassifyAll(metrics[..i], tier)
      invariant overall == Worst(classes)
    {
      var c := Classify(metrics[i], tier);
      WorstSnoc(classes, c);
      assert ClassifyAll(metrics[..i + 1], tier) == ClassifyAll(metrics[..i], tier) + [c];
      classes := classes + [c];
      if c == ActionableRegression {
        overall := c;
      } else if c == Improvement && overall == Noise {
        overall := c;
      }
    }
    assert metrics[..|metrics|] == metrics;
  }

  /** Whatever the order of the metrics: actionable iff some metric is, else an improvement iff some
      metric is. */
  lemma OverallOrderIndependent(metrics: seq<Metric>, tier: Tier)
    requires forall i :: 0 <= i < |metrics| ==> metrics[i].values != []
    ensures var overall := Worst(ClassifyAll(metrics, tier));
            var regressed := exists i :: 0 <= i < |metrics| && Classify(metrics[i], tier) == ActionableRegression;
            var improved := exists i :: 0 <= i < |metrics| && Classify(metrics[i], tier) == Improvement;
            overall == (if regressed then ActionableRegression else if improved then Improvement else Noise)
  {
    var classes := ClassifyAll(metrics, tier);
    assert forall i :: 0 <= i < |metrics| ==> classes[i] == Classify(metrics[i], tier);
    assert forall c :: c in classes ==> exists i :: 0 <= i < |metrics| && Classify(metrics[i], tier) == c;
  }
}
