/** The FAIR Monte Carlo engine of src/utils/fairEngine.ts.

    Randomness only enters through `sampleTriangular`, which is replaced by a sampler: the
    `k`-th draw of the random stream, for distribution `d`, is `tri(d, k)`. Every operation that
    samples takes the position of the next draw and returns the position after its own draws, so
    the trial loop, the counting, the summing and the statistics are deterministic. */
module FairEngine {
  import opened Types
  import Seqs

  /** `tri(d, k)`: what `sampleTriangular(d.min, d.mostLikely, d.max)` returns as draw `k`. */
  type Sampler = (Distribution, nat) -> real

  datatype SimulationResult = SimulationResult(
    mean: real, min: real, max: real, p10: real, p90: real, iterations: nat)

  const DefaultIterations: nat := 1000

  /** `sampleValue`: the default for `undefined`, the number itself for a scalar; only a
      distribution consumes a draw. Returns the value and the position of the next draw. */
  function SampleValue(value: Factor, default: real, tri: Sampler, n: nat): (res: (real, nat))
    ensures res.1 == if value.Dist? then n + 1 else n
    ensures value.Absent? ==> res.0 == default
    ensures value.Scalar? ==> res.0 == value.v
    ensures value.Dist? ==> res.0 == tri(value.d, n)
  {
    match value
    case Absent => (default, n)
    case Scalar(v) => (v, n)
    case Dist(d) => (tri(d, n), n + 1)
  }

  /** `Math.round`: the nearest integer, halves rounded up. */
  function Round(x: real): (r: int)
    ensures r as real - 0.5 <= x < r as real + 0.5
  {
    (x + 0.5).Floor
  }

  /** The attempt loop after `count` attempts whose draws start at `n`: the number of loss
      events so far and the position of the next draw. */
  function Attempts(f: FAIRFactors, tri: Sampler, n: nat, count: nat): (res: (nat, nat))
    ensures res.0 <= count
  {
    if count == 0 then (0, n)
    else
      var (events, m) := Attempts(f, tri, n, count - 1);
      var (tCap, m1) := SampleValue(f.threatCapability, 50.0, tri, m);
      var (rs, m2) := SampleValue(f.resistanceStrength, 50.0, tri, m1);
      (events + (if tCap > rs then 1 else 0), m2)
  }

  /** The loss loop after `count` loss events whose draws start at `n`: the running
      `totalLoss` and the position of the next draw. */
  function Losses(f: FAIRFactors, tri: Sampler, n: nat, count: nat): (res: (real, nat))
  {
    if count == 0 then (0.0, n)
    else
      var (total, m) := Losses(f, tri, n, count - 1);
      var (primary, m1) := SampleValue(f.primaryLoss, 0.0, tri, m);
      var (secondary, m2) := SampleValue(f.secondaryLoss, 0.0, tri, m1);
      (total + (primary + secondary), m2)
  }

  /** One iteration of the trial loop, drawing from `n`: a non-positive frequency records 0
      and draws nothing more; otherwise round(tef) attempts, then one loss per loss event. */
  function Trial(f: FAIRFactors, tri: Sampler, n: nat): (res: (real, nat))
  {
    var (tef, n1) := SampleValue(f.attemptCheckFrequency, 0.0, tri, n);
    if tef <= 0.0 then (0.0, n1)
    else
      var (events, n2) := Attempts(f, tri, n1, Round(tef));
      Losses(f, tri, n2, events)
  }

  /** `annualLosses` after `count` trials, unsorted, and the position of the next draw. */
  function Trials(f: FAIRFactors, tri: Sampler, count: nat): (res: (seq<real>, nat))
    ensures |res.0| == count
  {
    if count == 0 then ([], 0)
    else
      var (losses, m) := Trials(f, tri, count - 1);
      var (loss, m1) := Trial(f, tri, m);
      (losses + [loss], m1)
  }

  /** `reduce((a, b) => a + b, 0)`: a left fold. */
  function Sum(s: seq<real>): real {
    if s == [] then 0.0 else Sum(s[..|s| - 1]) + s[|s| - 1]
  }

  /** The comparator `(a, b) => a - b` orders numbers by themselves. */
  function Identity(x: real): real { x }

  /** `Math.floor(n * q)`, the nearest-rank index of quantile `q`. */
  function RankIndex(n: nat, q: real): (r: nat)
    requires n >= 1 && 0.0 <= q < 1.0
    ensures r < n
    ensures r as real <= n as real * q < r as real + 1.0
  {
    (n as real * q).Floor
  }

  /** The statistics epilogue, on the already sorted losses. */
  function Statistics(sorted: seq<real>, iterations: nat): SimulationResult
    requires iterations >= 1 && |sorted| == iterations
  {
    SimulationResult(
      Sum(sorted) / iterations as real,
      sorted[0],
      sorted[iterations - 1],
      sorted[RankIndex(iterations, 0.1)],
      sorted[RankIndex(iterations, 0.9)],
      iterations)
  }

  /** What `calculateALE` returns, with the draws starting at position 0. */
  function Simulate(f: FAIRFactors, tri: Sampler, iterations: nat): SimulationResult
    requires iterations >= 1
  {
    Statistics(Seqs.SortBy(Trials(f, tri, iterations).0, Identity), iterations)
  }

  class FAIREngine {
    var iterations: nat

    constructor (iterations: nat := DefaultIterations)
      ensures this.iterations == iterations
    {
      this.iterations := iterations;
    }

    method CalculateALE(factors: FAIRFactors, tri: Sampler) returns (result: SimulationResult)
      requires iterations >= 1
      ensures result == Simulate(factors, tri, iterations)
    {
      var annualLosses: seq<real> := [];
      var draw: nat := 0;
      var i: nat := 0;
      while i < iterations
        invariant i <= iterations
        invariant (annualLosses, draw) == Trials(factors, tri, i)
      {
        var totalLoss := 0.0;
        var tef, afterTef := SampleValue(factors.attemptCheckFrequency, 0.0, tri, draw).0,
                             SampleValue(factors.attemptCheckFrequency, 0.0, tri, draw).1;
        draw := afterTef;
        if tef <= 0.0 {
          annualLosses := annualLosses + [0.0];
        } else {
          var numAttempts: nat := Round(tef);
          var lossEvents: nat := 0;
          var j: nat := 0;
          while j < numAttempts
            invariant j <= numAttempts
            invariant (lossEvents, draw) == Attempts(factors, tri, afterTef, j)
          {
            var tCap := SampleValue(factors.threatCapability, 50.0, tri, draw);
            var rs := SampleValue(factors.resistanceStrength, 50.0, tri, tCap.1);
            draw := rs.1;
            if tCap.0 > rs.0 {
              lossEvents := lossEvents + 1;
            }
            j := j + 1;
          }
          var afterAttempts := draw;
          var k: nat := 0;
          while k < lossEvents
            invariant k <= lossEvents
            invariant (totalLoss, draw) == Losses(factors, tri, afterAttempts, k)
          {
            var primary := SampleValue(factors.primaryLoss, 0.0, tri, draw);
            var secondary := SampleValue(factors.secondaryLoss, 0.0, tri, primary.1);
            draw := secondary.1;
            totalLoss := totalLoss + (primary.0 + secondary.0);
            k := k + 1;
          }
          annualLosses := annualLosses + [totalLoss];
        }
        i := i + 1;
      }
      var sorted := Seqs.SortBy(annualLosses, Identity);
      result := Statistics(sorted, iterations);
    }
  }

  // --- Properties of one trial ---

  /** A draw of a factor that never yields a negative loss. */
  ghost predicate NonNegative(v: Factor, tri: Sampler) {
    match v
    case Absent => true
    case Scalar(x) => x >= 0.0
    case Dist(d) => forall k :: tri(d, k) >= 0.0
  }

  /** A sampled frequency that is not positive records a zero loss and draws nothing else. */
  lemma NoFrequencyNoDraws(f: FAIRFactors, tri: Sampler, n: nat)
    requires SampleValue(f.attemptCheckFrequency, 0.0, tri, n).0 <= 0.0
    ensures Trial(f, tri, n) == (0.0, if f.attemptCheckFrequency.Dist? then n + 1 else n)
  {
  }

  /** A trial makes at most round(tef) attempts, and never more loss events than attempts. */
  lemma {:induction false} LossEventsBounded(f: FAIRFactors, tri: Sampler, n: nat, count: nat)
    ensures Attempts(f, tri, n, count).0 <= count
    ensures Attempts(f, tri, n, count).1 >= n
  {
    if count > 0 {
      LossEventsBounded(f, tri, n, count - 1);
    }
  }

  /** With fixed capability and resistance where capability does not strictly exceed
      resistance, no attempt is a loss event and nothing is drawn. Absent capability and
      resistance both default to 50, so they fall under this case. */
  lemma {:induction false} NoBreachNoEvents(f: FAIRFactors, tri: Sampler, n: nat, count: nat)
    requires !f.threatCapability.Dist? && !f.resistanceStrength.Dist?
    requires SampleValue(f.threatCapability, 50.0, tri, 0).0 <= SampleValue(f.resistanceStrength, 50.0, tri, 0).0
    ensures Attempts(f, tri, n, count) == (0, n)
  {
    if count > 0 {
      NoBreachNoEvents(f, tri, n, count - 1);
    }
  }

  /** Hence such a trial loses nothing. */
  lemma NoBreachNoLoss(f: FAIRFactors, tri: Sampler, n: nat)
    requires !f.threatCapability.Dist? && !f.resistanceStrength.Dist?
    requires SampleValue(f.threatCapability, 50.0, tri, 0).0 <= SampleValue(f.resistanceStrength, 50.0, tri, 0).0
    ensures Trial(f, tri, n).0 == 0.0
  {
    var (tef, n1) := SampleValue(f.attemptCheckFrequency, 0.0, tri, n);
    if tef > 0.0 {
      NoBreachNoEvents(f, tri, n1, Round(tef));
    }
  }

  /** The running loss is a sum of non-negative terms when the loss draws are non-negative. */
  lemma {:induction false} LossesNonNegative(f: FAIRFactors, tri: Sampler, n: nat, count: nat)
    requires NonNegative(f.primaryLoss, tri) && NonNegative(f.secondaryLoss, tri)
    ensures Losses(f, tri, n, count).0 >= 0.0
  {
    if count > 0 {
      LossesNonNegative(f, tri, n, count - 1);
      var (_, m) := Losses(f, tri, n, count - 1);
      var (_, m1) := SampleValue(f.primaryLoss, 0.0, tri, m);
      assert SampleValue(f.primaryLoss, 0.0, tri, m).0 >= 0.0;
      assert SampleValue(f.secondaryLoss, 0.0, tri, m1).0 >= 0.0;
    }
  }

  lemma TrialNonNegative(f: FAIRFactors, tri: Sampler, n: nat)
    requires NonNegative(f.primaryLoss, tri) && NonNegative(f.secondaryLoss, tri)
    ensures Trial(f, tri, n).0 >= 0.0
  {
    var (tef, n1) := SampleValue(f.attemptCheckFrequency, 0.0, tri, n);
    if tef > 0.0 {
      var (events, n2) := Attempts(f, tri, n1, Round(tef));
      LossesNonNegative(f, tri, n2, events);
    }
  }

  // --- Fixed factors: every trial is the same ---

  /** A factor that is a number or absent: sampling it draws nothing. */
  function FixedValue(v: Factor, default: real): real {
    match v
    case Scalar(x) => x
    case _ => default
  }

  /** All five sampled factors are fixed. */
  predicate Fixed(f: FAIRFactors) {
    !f.attemptCheckFrequency.Dist? && !f.threatCapability.Dist? && !f.resistanceStrength.Dist?
    && !f.primaryLoss.Dist? && !f.secondaryLoss.Dist?
  }

  /** The loss of every trial under fixed factors. */
  function FixedLoss(f: FAIRFactors): real {
    var tef := FixedValue(f.attemptCheckFrequency, 0.0);
    if tef <= 0.0 then 0.0
    else if FixedValue(f.threatCapability, 50.0) > FixedValue(f.resistanceStrength, 50.0) then
      Round(tef) as real * (FixedValue(f.primaryLoss, 0.0) + FixedValue(f.secondaryLoss, 0.0))
    else 0.0
  }

  lemma {:induction false} FixedAttempts(f: FAIRFactors, tri: Sampler, n: nat, count: nat)
    requires Fixed(f)
    ensures Attempts(f, tri, n, count)
         == (if FixedValue(f.threatCapability, 50.0) > FixedValue(f.resistanceStrength, 50.0) then count else 0, n)
  {
    if count > 0 {
      FixedAttempts(f, tri, n, count - 1);
    }
  }

  lemma {:induction false} FixedLosses(f: FAIRFactors, tri: Sampler, n: nat, count: nat)
    requires Fixed(f)
    ensures Losses(f, tri, n, count).0
         == count as real * (FixedValue(f.primaryLoss, 0.0) + FixedValue(f.secondaryLoss, 0.0))
    ensures Losses(f, tri, n, count).1 == n
  {
    if count > 0 {
      FixedLosses(f, tri, n, count - 1);
      var x := FixedValue(f.primaryLoss, 0.0) + FixedValue(f.secondaryLoss, 0.0);
      assert (count - 1) as real * x + x == count as real * x;
    }
  }

  lemma FixedTrial(f: FAIRFactors, tri: Sampler, n: nat)
    requires Fixed(f)
    ensures Trial(f, tri, n).0 == FixedLoss(f) && Trial(f, tri, n).1 == n
  {
    var tef := FixedValue(f.attemptCheckFrequency, 0.0);
    assert SampleValue(f.attemptCheckFrequency, 0.0, tri, n) == (tef, n);
    if tef > 0.0 {
      FixedAttempts(f, tri, n, Round(tef));
      var events := Attempts(f, tri, n, Round(tef)).0;
      FixedLosses(f, tri, n, events);
      var x := FixedValue(f.primaryLoss, 0.0) + FixedValue(f.secondaryLoss, 0.0);
      assert events == 0 ==> events as real * x == 0.0;
    }
  }

  /** A property of every trial, from whatever position it draws, holds of every loss. */
  lemma {:induction false} TrialsAll(f: FAIRFactors, tri: Sampler, count: nat, p: real -> bool)
    requires forall n :: p(Trial(f, tri, n).0)
    ensures forall i :: 0 <= i < count ==> p(Trials(f, tri, count).0[i])
  {
    if count > 0 {
      TrialsAll(f, tri, count - 1, p);
      var (losses, m) := Trials(f, tri, count - 1);
      assert Trials(f, tri, count).0 == losses + [Trial(f, tri, m).0];
    }
  }

  // --- Statistics ---

  lemma {:induction false} SumBounds(s: seq<real>, lo: real, hi: real)
    requires forall i :: 0 <= i < |s| ==> lo <= s[i] <= hi
    ensures |s| as real * lo <= Sum(s) <= |s| as real * hi
  {
    if s != [] {
      SumBounds(s[..|s| - 1], lo, hi);
    }
  }

  /** On sorted losses: min <= p10 <= p90 <= max, and min <= mean <= max. */
  lemma StatisticsOrdered(sorted: seq<real>, n: nat)
    requires n >= 1 && |sorted| == n && Seqs.SortedBy(sorted, Identity)
    ensures var r := Statistics(sorted, n);
      r.min <= r.p10 <= r.p90 <= r.max && r.min <= r.mean <= r.max && r.iterations == n
  {
    RanksOrdered(n);
    SortedPair(sorted, 0, RankIndex(n, 0.1));
    SortedPair(sorted, RankIndex(n, 0.1), RankIndex(n, 0.9));
    SortedPair(sorted, RankIndex(n, 0.9), n - 1);
    forall i | 0 <= i < n ensures sorted[0] <= sorted[i] <= sorted[n - 1] {
      SortedPair(sorted, 0, i);
      SortedPair(sorted, i, n - 1);
    }
    MeanBounded(sorted, sorted[0], sorted[n - 1]);
  }

  lemma RanksOrdered(n: nat)
    requires n >= 1
    ensures RankIndex(n, 0.1) <= RankIndex(n, 0.9)
  {
  }

  lemma SortedPair(sorted: seq<real>, i: nat, j: nat)
    requires Seqs.SortedBy(sorted, Identity) && i <= j < |sorted|
    ensures sorted[i] <= sorted[j]
  {
    assert i == j || Identity(sorted[i]) <= Identity(sorted[j]);
  }

  /** The mean of losses between `lo` and `hi` lies between them. */
  lemma MeanBounded(s: seq<real>, lo: real, hi: real)
    requires |s| >= 1 && forall i :: 0 <= i < |s| ==> lo <= s[i] <= hi
    ensures lo <= Sum(s) / |s| as real <= hi
  {
    SumBounds(s, lo, hi);
    MeanBetween(Sum(s), |s| as real, lo, hi);
  }

  lemma MeanBetween(sum: real, n: real, lo: real, hi: real)
    requires n > 0.0 && n * lo <= sum <= n * hi
    ensures lo <= sum / n <= hi
  {
    assert sum / n * n == sum;
  }

  /** Sorting a sequence of equal losses leaves only that loss. */
  lemma SortConstant(s: seq<real>, c: real)
    requires forall i :: 0 <= i < |s| ==> s[i] == c
    ensures forall i :: 0 <= i < |s| ==> Seqs.SortBy(s, Identity)[i] == c
  {
    var sorted := Seqs.SortBy(s, Identity);
    forall i | 0 <= i < |s| ensures sorted[i] == c {
      assert sorted[i] in multiset(s);
    }
  }

  /** If every loss is `c`, every statistic is `c`. */
  lemma StatisticsConstant(s: seq<real>, n: nat, c: real)
    requires n >= 1 && |s| == n
    requires forall i :: 0 <= i < n ==> s[i] == c
    ensures Statistics(Seqs.SortBy(s, Identity), n) == SimulationResult(c, c, c, c, c, n)
  {
    var sorted := Seqs.SortBy(s, Identity);
    SortConstant(s, c);
    MeanConstant(sorted, c);
  }

  lemma MeanConstant(s: seq<real>, c: real)
    requires |s| >= 1 && forall i :: 0 <= i < |s| ==> s[i] == c
    ensures Sum(s) / |s| as real == c
  {
    SumBounds(s, c, c);
    MeanBetween(Sum(s), |s| as real, c, c);
  }

  // --- What calculateALE returns ---

  /** The losses come out sorted, so the statistics are ordered; `iterations` is echoed. */
  lemma SimulateOrdered(f: FAIRFactors, tri: Sampler, n: nat)
    requires n >= 1
    ensures var r := Simulate(f, tri, n);
      r.min <= r.p10 <= r.p90 <= r.max && r.min <= r.mean <= r.max && r.iterations == n
  {
    var losses := Trials(f, tri, n).0;
    Seqs.SortBySorted(losses, Identity);
    StatisticsOrdered(Seqs.SortBy(losses, Identity), n);
  }

  /** Non-negative losses give non-negative statistics. */
  lemma SimulateNonNegative(f: FAIRFactors, tri: Sampler, n: nat)
    requires n >= 1
    requires NonNegative(f.primaryLoss, tri) && NonNegative(f.secondaryLoss, tri)
    ensures var r := Simulate(f, tri, n);
      0.0 <= r.min && 0.0 <= r.p10 && 0.0 <= r.p90 && 0.0 <= r.max && 0.0 <= r.mean
  {
    var losses := Trials(f, tri, n).0;
    forall m: nat ensures Trial(f, tri, m).0 >= 0.0 {
      TrialNonNegative(f, tri, m);
    }
    TrialsAll(f, tri, n, x => x >= 0.0);
    var sorted := Seqs.SortBy(losses, Identity);
    assert sorted[0] in multiset(losses);
    SimulateOrdered(f, tri, n);
  }

  /** All trials the same: every statistic equals round(tef) * (primary + secondary) when
      capability strictly exceeds resistance, and 0 otherwise. */
  lemma SimulateFixed(f: FAIRFactors, tri: Sampler, n: nat)
    requires n >= 1 && Fixed(f)
    ensures var c := FixedLoss(f); Simulate(f, tri, n) == SimulationResult(c, c, c, c, c, n)
  {
    forall m: nat ensures Trial(f, tri, m).0 == FixedLoss(f) {
      FixedTrial(f, tri, m);
    }
    TrialsAll(f, tri, n, x => x == FixedLoss(f));
    StatisticsConstant(Trials(f, tri, n).0, n, FixedLoss(f));
  }

  /** A frequency fixed at 0 (or absent) gives all-zero statistics, whatever the other factors. */
  lemma SimulateNoFrequency(f: FAIRFactors, tri: Sampler, n: nat)
    requires n >= 1 && !f.attemptCheckFrequency.Dist?
    requires FixedValue(f.attemptCheckFrequency, 0.0) <= 0.0
    ensures Simulate(f, tri, n) == SimulationResult(0.0, 0.0, 0.0, 0.0, 0.0, n)
  {
    TrialsAll(f, tri, n, x => x == 0.0);
    StatisticsConstant(Trials(f, tri, n).0, n, 0.0);
  }

  /** Fixed capability not above fixed resistance: a zero mean, whatever the other factors. */
  lemma SimulateNoBreach(f: FAIRFactors, tri: Sampler, n: nat)
    requires n >= 1 && !f.threatCapability.Dist? && !f.resistanceStrength.Dist?
    requires FixedValue(f.threatCapability, 50.0) <= FixedValue(f.resistanceStrength, 50.0)
    ensures Simulate(f, tri, n) == SimulationResult(0.0, 0.0, 0.0, 0.0, 0.0, n)
  {
    forall m: nat ensures Trial(f, tri, m).0 == 0.0 {
      NoBreachNoLoss(f, tri, m);
    }
    TrialsAll(f, tri, n, x => x == 0.0);
    StatisticsConstant(Trials(f, tri, n).0, n, 0.0);
  }

  /** Five fixed attempts at 80 against 20 with a 10000 primary loss: every statistic is 50000. */
  lemma ScenarioFixedBreach(tri: Sampler)
    ensures var f := FAIRFactors(Scalar(5.0), Scalar(80.0), Scalar(20.0), None, Scalar(10000.0), Absent, None);
      Simulate(f, tri, DefaultIterations)
      == SimulationResult(50000.0, 50000.0, 50000.0, 50000.0, 50000.0, 1000)
  {
    var f := FAIRFactors(Scalar(5.0), Scalar(80.0), Scalar(20.0), None, Scalar(10000.0), Absent, None);
    assert Round(5.0) == 5;
    assert FixedLoss(f) == 50000.0;
    SimulateFixed(f, tri, DefaultIterations);
  }

  /** The mean need not lie between p10 and p90: eleven sorted losses, ten of them 0. */
  lemma MeanAboveP90()
    ensures var s := [0.0, 0.0, 0.0, 0.0, 0.0, 0.0, 0.0, 0.0, 0.0, 0.0, 1100.0];
      Seqs.SortedBy(s, Identity) && Statistics(s, 11).p90 == 0.0 && Statistics(s, 11).mean == 100.0
  {
    var s := [0.0, 0.0, 0.0, 0.0, 0.0, 0.0, 0.0, 0.0, 0.0, 0.0, 1100.0];
    assert RankIndex(11, 0.9) == 9;
    assert s[..10] == [0.0, 0.0, 0.0, 0.0, 0.0, 0.0, 0.0, 0.0, 0.0, 0.0];
    SumBounds(s[..10], 0.0, 0.0);
  }
}
