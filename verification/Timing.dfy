/** Paired timings (pkg/protocol/measurement.go): the locked policy, the summary
    of a run's trials, evidence checking, and confirmation of two measured runs. */
module Timing {
  import opened Wrappers
  import opened Ticks
  import opened Scores
  import opened Binomial
  import opened Sorting

  const MAX_NANOS: int := 86_400_000_000_000

  datatype Trial = Trial(baselineNanos: int, candidateNanos: int, baselineFirst: bool, qualityPassed: bool)

  /** The locked policy. `frozen` stands for the checks of baseline source, commands,
      digest and descriptive text; decimals are given parsed. */
  datatype Policy = Policy(estimator: string, order: string, warmups: int, repetitions: int, confidencePpm: int,
                           maxRelativeWidth: Option<Rat>, minimumSpeedup: Option<Rat>, baselineDigest: string,
                           frozen: bool)

  datatype Summary = Summary(medianRatio: string, lowerRatio: string, upperRatio: string, confidencePpm: int,
                             acceptedTrials: int, outcome: string, practicalGain: bool)

  datatype Evidence = Evidence(baselineDigest: string, warmups: seq<Trial>, trials: seq<Trial>, summary: Summary)

  /** ValidateMeasurementPolicy. */
  predicate ValidPolicy(p: Policy) { PolicyFieldsOk(p) && IntervalIndex(p.repetitions, p.confidencePpm) >= 1 }

  predicate PolicyFieldsOk(p: Policy) {
    && p.estimator == "paired-median-ratio" && p.order == "alternating" && p.frozen
    && 1 <= p.warmups <= 100 && 9 <= p.repetitions <= 255 && 900_000 <= p.confidencePpm <= 999_999
    && p.maxRelativeWidth.Some? && p.maxRelativeWidth.value.den > 0
    && 0 < p.maxRelativeWidth.value.num <= p.maxRelativeWidth.value.den
    && p.minimumSpeedup.Some? && p.minimumSpeedup.value.den > 0
    && p.minimumSpeedup.value.num > p.minimumSpeedup.value.den
  }

  /** A policy with sound fields is refused for too few trials exactly when even the
      full range of the trials would miss the confidence. */
  lemma EnoughTrials(p: Policy)
    requires PolicyFieldsOk(p)
    ensures ValidPolicy(p) <==> 2 * MILLION <= Pow2(p.repetitions) * (MILLION - p.confidencePpm)
  {
    var n := p.repetitions;
    ShiftIsProduct(MILLION - p.confidencePpm, n);
    FirstTail(n, p.confidencePpm);
    assert TailFits(n, p.confidencePpm, IntervalIndex(n, p.confidencePpm));
    if ValidPolicy(p) {
      SumMonotone(n, 1, IntervalIndex(n, p.confidencePpm));
    }
  }

  lemma FirstTail(n: nat, confidence: int)
    ensures Sum(n, 0, 1) == 1
    ensures TailFits(n, confidence, 1) <==> 2 * MILLION <= Shifted(MILLION - confidence, n)
  {
    FirstCoefficient(n);
    assert Sum(n, 0, 1) == Sum(n, 0, 0) + Choose(n, 0);
  }

  predicate InRange(t: Trial) { 0 < t.baselineNanos <= MAX_NANOS && 0 < t.candidateNanos <= MAX_NANOS }

  /** A trial at position i of its phase: quality, durations and locked order. */
  predicate TrialOk(t: Trial, i: nat) { t.qualityPassed && InRange(t) && t.baselineFirst == (i % 2 == 0) }

  predicate TrialsOk(ts: seq<Trial>) { forall i :: 0 <= i < |ts| ==> TrialOk(ts[i], i) }

  // -------------------------------------------------------------- the order

  /** Baseline time over candidate time. */
  type Speedup = r: Rat | r.den > 0 && r.num > 0 witness Rat(1, 1)

  predicate AtMost(a: Speedup, b: Speedup) { Le(a, b) }

  lemma LeTransitive(a: Rat, b: Rat, c: Rat)
    requires a.den > 0 && b.den > 0 && c.den > 0 && Le(a, b) && Le(b, c)
    ensures Le(a, c)
  {
    ProductMonotone(a.num * b.den, b.num * a.den, c.den);
    ProductMonotone(b.num * c.den, c.num * b.den, a.den);
    CancelFactor(a.num * c.den, c.num * a.den, b.den, (a.num * b.den) * c.den, (c.num * b.den) * a.den);
  }

  lemma AtMostTransitive(a: Speedup, b: Speedup, c: Speedup)
    requires AtMost(a, b) && AtMost(b, c)
    ensures AtMost(a, c)
  {
    LeTransitive(a, b, c);
  }

  lemma AtMostIsOrder()
    ensures TotalOrder(AtMost)
  {
    forall a: Speedup, b: Speedup, c: Speedup | AtMost(a, b) && AtMost(b, c)
      ensures AtMost(a, c)
    {
      AtMostTransitive(a, b, c);
    }
  }

  // ------------------------------------------------------------- the summary

  function RatioOf(t: Trial): Speedup
    requires InRange(t)
  {
    MakeRatBounds(t.baselineNanos, t.candidateNanos);
    MakeRat(t.baselineNanos, t.candidateNanos)
  }

  function Ratios(ts: seq<Trial>): (rs: seq<Speedup>)
    requires forall i :: 0 <= i < |ts| ==> InRange(ts[i])
    ensures |rs| == |ts|
  {
    if ts == [] then [] else Ratios(ts[..|ts| - 1]) + [RatioOf(ts[|ts| - 1])]
  }

  lemma {:induction false} RatioAt(ts: seq<Trial>, i: nat)
    requires (forall j :: 0 <= j < |ts| ==> InRange(ts[j])) && i < |ts|
    ensures Ratios(ts)[i] == RatioOf(ts[i])
  {
    if i < |ts| - 1 {
      RatioAt(ts[..|ts| - 1], i);
    }
  }

  /** The mean of two ratios, in lowest terms. */
  function Mean(a: Speedup, b: Speedup): Speedup {
    PositiveProduct(a.den, b.den);
    MeanNumerator(a.num, b.num, a.den, b.den);
    MakeRatBounds(a.num * b.den + b.num * a.den, 2 * (a.den * b.den));
    MakeRat(a.num * b.den + b.num * a.den, 2 * (a.den * b.den))
  }

  lemma MeanNumerator(p: int, q: int, a: int, b: int)
    requires a > 0 && b > 0 && p > 0 && q > 0
    ensures p * b + q * a > 0
  {
    PositiveProduct(p, b);
    PositiveProduct(q, a);
  }

  lemma MeanBetween(a: Speedup, b: Speedup)
    requires AtMost(a, b)
    ensures AtMost(a, Mean(a, b)) && AtMost(Mean(a, b), b) && Mean(a, b) == Mean(b, a)
  {
    PositiveProduct(a.den, b.den);
    var n, d := a.num * b.den + b.num * a.den, 2 * (a.den * b.den);
    var r := MakeRat(n, d);
    var g := MakeRatOk(n, d);
    MeanAbove(a.num, a.den, b.num, b.den, r.num, r.den, g);
    MeanBelow(a.num, a.den, b.num, b.den, r.num, r.den, g);
    assert b.den * a.den == a.den * b.den;
  }

  lemma MeanAbove(p: int, a: int, q: int, b: int, n: int, d: int, g: int)
    requires a > 0 && b > 0 && g > 0 && p * b <= q * a
    requires p * b + q * a == g * n && 2 * (a * b) == g * d
    ensures p * d <= n * a
  {
    ProductMonotone(2 * (p * b), p * b + q * a, a);
    assert p * (2 * (a * b)) == (2 * (p * b)) * a;
    CancelFactor(p * d, n * a, g, p * (g * d), (g * n) * a);
  }

  lemma MeanBelow(p: int, a: int, q: int, b: int, n: int, d: int, g: int)
    requires a > 0 && b > 0 && g > 0 && p * b <= q * a
    requires p * b + q * a == g * n && 2 * (a * b) == g * d
    ensures n * b <= q * d
  {
    ProductMonotone(p * b + q * a, 2 * (q * a), b);
    assert q * (2 * (a * b)) == (2 * (q * a)) * b;
    CancelFactor(n * b, q * d, g, (g * n) * b, q * (g * d));
  }

  function Median(s: seq<Speedup>): Speedup
    requires |s| >= 2
  {
    if |s| % 2 == 0 then Mean(s[|s| / 2], s[|s| / 2 - 1]) else s[|s| / 2]
  }

  /** The median lies between the k-th smallest and the k-th largest ratio. */
  lemma MedianBetween(s: seq<Speedup>, k: nat)
    requires |s| >= 2 && Ascending(s, AtMost) && 1 <= k <= (|s| + 1) / 2
    ensures AtMost(s[k - 1], Median(s)) && AtMost(Median(s), s[|s| - k])
  {
    var n := |s|;
    if n % 2 == 0 {
      var a, b := s[n / 2 - 1], s[n / 2];
      MeanBetween(a, b);
      AtMostTransitive(s[k - 1], a, Mean(a, b));
      AtMostTransitive(Mean(a, b), b, s[n - k]);
    }
  }

  /** (upper - lower) / median. */
  function RelativeWidth(lower: Speedup, upper: Speedup, median: Speedup): Rat {
    PositiveProduct(upper.den, lower.den);
    PositiveProduct(upper.den * lower.den, median.num);
    MakeRat((upper.num * lower.den - lower.num * upper.den) * median.den, upper.den * lower.den * median.num)
  }

  /** (upper - lower) / median <= w, without the divisions. */
  predicate Narrow(lower: Speedup, upper: Speedup, median: Speedup, w: Rat) {
    ((upper.num * lower.den - lower.num * upper.den) * median.den) * w.den
    <= w.num * (upper.den * lower.den * median.num)
  }

  lemma NarrowExact(lower: Speedup, upper: Speedup, median: Speedup, w: Rat)
    requires w.den > 0
    ensures Le(RelativeWidth(lower, upper, median), w) <==> Narrow(lower, upper, median, w)
  {
    PositiveProduct(upper.den, lower.den);
    PositiveProduct(upper.den * lower.den, median.num);
    var n := (upper.num * lower.den - lower.num * upper.den) * median.den;
    var d := upper.den * lower.den * median.num;
    var r := MakeRat(n, d);
    var g := MakeRatOk(n, d);
    CancelFactor(r.num * w.den, w.num * r.den, g, n * w.den, w.num * d);
  }

  /** The trials a summary is made of. */
  predicate Scheduled(ts: seq<Trial>, p: Policy) { ValidPolicy(p) && |ts| == p.repetitions && TrialsOk(ts) }

  function Index(p: Policy): (k: nat)
    requires ValidPolicy(p)
    ensures 1 <= k <= (p.repetitions + 1) / 2
  {
    IntervalIndex(p.repetitions, p.confidencePpm)
  }

  predicate RankOk(rs: seq<Speedup>, k: nat) { |rs| >= 2 && 1 <= k <= (|rs| + 1) / 2 }

  /** The confidence interval of a list of ratios: its k-th smallest to its k-th largest. */
  function Lower(rs: seq<Speedup>, k: nat): Speedup
    requires RankOk(rs, k)
  {
    Sorted(rs, AtMost)[k - 1]
  }

  function Upper(rs: seq<Speedup>, k: nat): Speedup
    requires RankOk(rs, k)
  {
    Sorted(rs, AtMost)[|rs| - k]
  }

  predicate InInterval(x: Speedup, rs: seq<Speedup>, k: nat)
    requires RankOk(rs, k)
  {
    AtMost(Lower(rs, k), x) && AtMost(x, Upper(rs, k))
  }

  /** The median lies in the interval, whatever the ratios are. */
  lemma MedianInInterval(rs: seq<Speedup>, k: nat)
    requires RankOk(rs, k)
    ensures InInterval(Median(Sorted(rs, AtMost)), rs, k)
    ensures AtMost(Lower(rs, k), Upper(rs, k))
  {
    AtMostIsOrder();
    SortedAscends(rs, AtMost);
    MedianBetween(Sorted(rs, AtMost), k);
  }

  /** The interval, read on the unsorted ratios: x lies in it exactly when at least
      k of them are at most x and at least k are at least x. */
  lemma IntervalCovers(rs: seq<Speedup>, k: nat, x: Speedup)
    requires RankOk(rs, k)
    ensures InInterval(x, rs, k) <==> Count(rs, x, AtMost, true) >= k && Count(rs, x, AtMost, false) >= k
  {
    AtMostIsOrder();
    RanksOnUnsorted(rs, x, AtMost, k);
  }

  predicate NoTie(rs: seq<Speedup>, x: Speedup) {
    forall i :: 0 <= i < |rs| ==> !(AtMost(rs[i], x) && AtMost(x, rs[i]))
  }

  lemma {:induction false} AboveCounts(rs: seq<Speedup>, x: Speedup)
    ensures Trues(Above(rs, x, AtMost)) + Count(rs, x, AtMost, true) == |rs|
    ensures Trues(Above(rs, x, AtMost)) <= Count(rs, x, AtMost, false)
    ensures NoTie(rs, x) ==> Trues(Above(rs, x, AtMost)) == Count(rs, x, AtMost, false)
  {
    if rs != [] {
      var n := |rs| - 1;
      AboveCounts(rs[..n], x);
      assert forall i :: 0 <= i < n ==> rs[..n][i] == rs[i];
      var p := Above(rs, x, AtMost);
      assert p[..n] == Above(rs[..n], x, AtMost);
      assert AtMost(rs[n], x) || AtMost(x, rs[n]);
    }
  }

  /** A sign pattern with at least k trials on either side. */
  predicate Central(pattern: seq<bool>, k: nat) { k <= Trues(pattern) <= |pattern| - k }

  /** The interval holds x on every central sign pattern, and on no other one unless a
      ratio ties with x: ties only widen the coverage. */
  lemma IntervalIsConservative(rs: seq<Speedup>, k: nat, x: Speedup)
    requires RankOk(rs, k)
    ensures Central(Above(rs, x, AtMost), k) ==> InInterval(x, rs, k)
    ensures NoTie(rs, x) && InInterval(x, rs, k) ==> Central(Above(rs, x, AtMost), k)
  {
    IntervalCovers(rs, k, x);
    AboveCounts(rs, x);
  }

  /** Valid exactly when the interval is narrow enough for its median, and a practical
      gain exactly when it is valid and its lower end reaches the minimum speedup. */
  function Report(lower: Speedup, upper: Speedup, median: Speedup, p: Policy): Summary
    requires PolicyFieldsOk(p)
  {
    var narrow := Narrow(lower, upper, median, p.maxRelativeWidth.value);
    Summary(RatText(median), RatText(lower), RatText(upper), p.confidencePpm, p.repetitions,
            if narrow then "valid" else "inconclusive", narrow && Le(p.minimumSpeedup.value, lower))
  }

  function SummaryAt(rs: seq<Speedup>, k: nat, p: Policy): Summary
    requires PolicyFieldsOk(p) && RankOk(rs, k)
  {
    Report(Lower(rs, k), Upper(rs, k), Median(Sorted(rs, AtMost)), p)
  }

  /** The summary of a policy's ratios. */
  function SummaryOf(rs: seq<Speedup>, p: Policy): Summary
    requires ValidPolicy(p) && |rs| == p.repetitions
  {
    SummaryAt(rs, Index(p), p)
  }

  /** The loop of SummarizeTimings: all ratios, or none if a trial failed, is out of
      range or out of order. */
  method CollectRatios(ts: seq<Trial>) returns (r: Option<seq<Speedup>>)
    ensures r.Some? <==> TrialsOk(ts)
    ensures r.Some? ==> r.value == Ratios(ts)
  {
    var ratios: seq<Speedup> := [];
    for i := 0 to |ts|
      invariant forall j :: 0 <= j < i ==> TrialOk(ts[j], j)
      invariant ratios == Ratios(ts[..i])
    {
      var t := ts[i];
      if !t.qualityPassed || !InRange(t) || t.baselineFirst != (i % 2 == 0) {
        assert !TrialOk(ts[i], i);
        return None;
      }
      assert ts[..i + 1][..i] == ts[..i];
      ratios := ratios + [RatioOf(t)];
    }
    assert ts[..|ts|] == ts;
    r := Some(ratios);
  }

  /** SummarizeTimings: refused exactly when the policy is invalid, a trial is missing
      or extra, or a trial failed, is out of range or out of order. */
  method SummarizeTimings(ts: seq<Trial>, p: Policy) returns (r: Option<Summary>)
    ensures r.Some? <==> Scheduled(ts, p)
    ensures r.Some? ==> r.value == SummaryOf(Ratios(ts), p)
  {
    if !ValidPolicy(p) || |ts| != p.repetitions {
      return None;
    }
    var ratios := CollectRatios(ts);
    if ratios.None? {
      return None;
    }
    var summary := SummarizeRatios(ratios.value, p);
    r := Some(summary);
  }

  /** The part of SummarizeTimings after the loop. */
  method SummarizeRatios(ratios: seq<Speedup>, p: Policy) returns (summary: Summary)
    requires ValidPolicy(p) && |ratios| == p.repetitions
    ensures summary == SummaryOf(ratios, p)
  {
    var k := LockedIndex(p);
    summary := SummarizeAt(ratios, k, p);
  }

  method SummarizeAt(ratios: seq<Speedup>, k: nat, p: Policy) returns (summary: Summary)
    requires PolicyFieldsOk(p) && RankOk(ratios, k)
    ensures summary == SummaryAt(ratios, k, p)
  {
    var s := Sorted(ratios, AtMost);
    summary := Summarize(s[k - 1], s[|s| - k], Median(s), p);
  }

  method LockedIndex(p: Policy) returns (k: nat)
    requires ValidPolicy(p)
    ensures k == Index(p)
  {
    k := MedianIntervalIndex(p.repetitions, p.confidencePpm);
    IndexUnique(p.repetitions, p.confidencePpm, k);
  }

  method Summarize(lower: Speedup, upper: Speedup, median: Speedup, p: Policy) returns (summary: Summary)
    requires PolicyFieldsOk(p)
    ensures summary == Report(lower, upper, median, p)
  {
    var width := RelativeWidth(lower, upper, median);
    NarrowExact(lower, upper, median, p.maxRelativeWidth.value);
    summary := Summary(RatText(median), RatText(lower), RatText(upper), p.confidencePpm, p.repetitions, "valid",
                       Le(p.minimumSpeedup.value, lower));
    if !Le(width, p.maxRelativeWidth.value) {
      summary := summary.(outcome := "inconclusive", practicalGain := false);
    }
  }

  // ---------------------------------------------------------------- evidence

  /** What ValidateTimingEvidence accepts. */
  predicate ValidEvidence(e: Evidence, p: Policy) {
    && ValidPolicy(p) && e.baselineDigest == p.baselineDigest
    && |e.warmups| == p.warmups && TrialsOk(e.warmups)
    && |e.trials| == p.repetitions && TrialsOk(e.trials)
    && e.summary == SummaryOf(Ratios(e.trials), p)
  }

  method ValidateTimingEvidence(e: Evidence, p: Policy) returns (r: Option<Summary>)
    ensures r.Some? <==> ValidEvidence(e, p)
    ensures r.Some? ==> r.value == e.summary
  {
    if e.baselineDigest != p.baselineDigest || |e.warmups| != p.warmups {
      return None;
    }
    for i := 0 to |e.warmups|
      invariant forall j :: 0 <= j < i ==> TrialOk(e.warmups[j], j)
    {
      var t := e.warmups[i];
      if !t.qualityPassed || !InRange(t) || t.baselineFirst != (i % 2 == 0) {
        assert !TrialOk(e.warmups[i], i);
        return None;
      }
    }
    var summary := SummarizeTimings(e.trials, p);
    if summary.None? || summary.value != e.summary {
      return None;
    }
    r := summary;
  }

  /** A ratio of the sorted list is a ratio of one of the trials, so its text parses back. */
  lemma SortedRatioParses(ts: seq<Trial>, r: Speedup)
    requires TrialsOk(ts) && r in Sorted(Ratios(ts), AtMost)
    ensures ParseRational(RatText(r)) == Some(r)
  {
    assert r in multiset(Sorted(Ratios(ts), AtMost));
    var i :| 0 <= i < |ts| && Ratios(ts)[i] == r;
    assert TrialOk(ts[i], i);
    RatioAt(ts, i);
    DurationRatioRoundTrip(ts[i].baselineNanos, ts[i].candidateNanos);
  }

  /** The bounds in a summary always parse back to the bounds. */
  lemma BoundsParse(ts: seq<Trial>, p: Policy)
    requires Scheduled(ts, p)
    ensures ParseRational(RatText(Lower(Ratios(ts), Index(p)))) == Some(Lower(Ratios(ts), Index(p)))
    ensures ParseRational(RatText(Upper(Ratios(ts), Index(p)))) == Some(Upper(Ratios(ts), Index(p)))
  {
    SortedRatioParses(ts, Lower(Ratios(ts), Index(p)));
    SortedRatioParses(ts, Upper(Ratios(ts), Index(p)));
  }

  // ------------------------------------------------------------ confirmation

  /** A performance contract: its timing policy, metric and hard gates. */
  datatype Contract = Contract(policy: Policy, metric: Metric, hardGates: set<string>)

  /** A checker's typed result. `wellFormed` stands for the version, kind, size,
      comparison series and measurement bounds; `measurements` are the declared ones, parsed. */
  datatype TypedResult = TypedResult(wellFormed: bool, score: string, primary: string, gates: map<string, bool>,
                                     measurements: map<string, Rat>, timing: Option<Evidence>)

  /** What a milestone asks of one measurement. */
  datatype Requirement = Requirement(measurement: string, operator: string, value: Rat)

  /** One predicate of MeetsPredicates. */
  predicate Satisfies(values: map<string, Rat>, r: Requirement) {
    r.measurement in values ==>
      var x, y := values[r.measurement], r.value;
      (r.operator == "eq" ==> Le(x, y) && Le(y, x)) && (r.operator == "ge" ==> Le(y, x))
      && (r.operator == "le" ==> Le(x, y))
  }

  datatype MeasuredRun = MeasuredRun(outcome: string, scoreTicks: string, gates: map<string, bool>,
                                     result: Option<TypedResult>)

  predicate ValidContract(c: Contract) {
    ValidPolicy(c.policy) && ValidMetric(c.metric) && c.metric.direction == MAXIMIZE
  }

  /** ValidateResult for a performance contract: the published ticks. */
  function ResultTicks(r: TypedResult, c: Contract): Option<string> {
    if !r.wellFormed || r.timing.None? || !ValidEvidence(r.timing.value, c.policy)
      || r.score != r.timing.value.summary.lowerRatio
       || r.gates.Keys != c.hardGates || r.score != r.primary || ParseRational(r.primary).None?
    then None
    else NormalizedScore(ParseRational(r.primary).value, c.metric)
  }

  /** ValidatorOutcome. */
  function Outcome(r: TypedResult): string {
    if exists g :: g in r.gates && !r.gates[g] then "hard_gate_failed"
    else if r.timing.Some? && r.timing.value.summary.outcome == "inconclusive" then "measurement_inconclusive"
    else "valid"
  }

  /** ValidateRunMeasurementEvidence. */
  predicate EvidenceMatches(run: MeasuredRun, c: Contract) {
    run.outcome !in {"valid", "hard_gate_failed", "measurement_inconclusive"}
    || (run.result.Some? && ResultTicks(run.result.value, c) == Some(run.scoreTicks)
        && run.gates == run.result.value.gates && Outcome(run.result.value) == run.outcome)
  }

  /** A run whose score may be confirmed: valid, with its evidence. */
  predicate Confirmable(run: MeasuredRun, c: Contract) { run.outcome == "valid" && EvidenceMatches(run, c) }

  function RunRatios(run: MeasuredRun, c: Contract): (rs: seq<Speedup>)
    requires Confirmable(run, c)
    ensures ValidPolicy(c.policy) && |rs| == c.policy.repetitions
  {
    Ratios(run.result.value.timing.value.trials)
  }

  /** ConfirmMeasuredRuns. Errors of the parsing calls are ignored here as in the source.
      There an error would leave no number and the comparison would panic; zero is the
      model's stand-in for that, and ConfirmMeasuredExact shows that no error occurs. */
  function ConfirmMeasuredRuns(a: MeasuredRun, b: MeasuredRun, c: Contract): Option<string> {
    if !Confirmable(a, c) || !Confirmable(b, c) then None
    else
      var x, y := a.result.value.timing.value.summary, b.result.value.timing.value.summary;
      var xl, xu := OrZero(ParseRational(x.lowerRatio)), OrZero(ParseRational(x.upperRatio));
      var yl, yu := OrZero(ParseRational(y.lowerRatio)), OrZero(ParseRational(y.upperRatio));
      if !Le(xl, yu) || !Le(yl, xu) then None else Some(FewerTicks(a.scoreTicks, b.scoreTicks))
  }

  function FewerTicks(a: string, b: string): string {
    var order := CompareTicks(a, b);
    if order.Some? && order.value < 0 then a else b
  }

  function OrZero(r: Option<Rat>): Rat { if r.Some? then r.value else Rat(0, 1) }

  ghost predicate IntervalsMeet(rs: seq<Speedup>, qs: seq<Speedup>, k: nat)
    requires RankOk(rs, k) && RankOk(qs, k)
  {
    exists x :: InInterval(x, rs, k) && InInterval(x, qs, k)
  }

  lemma SegmentsMeet(sl: Speedup, su: Speedup, tl: Speedup, tu: Speedup, x: Speedup)
    requires AtMost(sl, su) && AtMost(tl, tu)
    ensures AtMost(sl, x) && AtMost(x, su) && AtMost(tl, x) && AtMost(x, tu) ==> AtMost(sl, tu) && AtMost(tl, su)
    ensures AtMost(sl, tu) && AtMost(tl, su) ==>
            var y := if AtMost(sl, tl) then tl else sl; AtMost(sl, y) && AtMost(y, su) && AtMost(tl, y) && AtMost(y, tu)
  {
    if AtMost(sl, x) && AtMost(x, tu) {
      AtMostTransitive(sl, x, tu);
    }
    if AtMost(tl, x) && AtMost(x, su) {
      AtMostTransitive(tl, x, su);
    }
  }

  /** The code's overlap test says that some ratio lies in both intervals. */
  lemma IntervalsMeetIff(rs: seq<Speedup>, qs: seq<Speedup>, k: nat)
    requires RankOk(rs, k) && RankOk(qs, k)
    ensures IntervalsMeet(rs, qs, k) <==> AtMost(Lower(rs, k), Upper(qs, k)) && AtMost(Lower(qs, k), Upper(rs, k))
  {
    var sl, su, tl, tu := Lower(rs, k), Upper(rs, k), Lower(qs, k), Upper(qs, k);
    MedianInInterval(rs, k);
    MedianInInterval(qs, k);
    if IntervalsMeet(rs, qs, k) {
      var x: Speedup :| InInterval(x, rs, k) && InInterval(x, qs, k);
      SegmentsMeet(sl, su, tl, tu, x);
    }
    if AtMost(sl, tu) && AtMost(tl, su) {
      SegmentsMeet(sl, su, tl, tu, sl);
      var y := if AtMost(sl, tl) then tl else sl;
      assert InInterval(y, rs, k) && InInterval(y, qs, k);
    }
  }

  function RunLower(run: MeasuredRun, c: Contract): Speedup
    requires Confirmable(run, c)
  {
    Lower(RunRatios(run, c), Index(c.policy))
  }

  function RunUpper(run: MeasuredRun, c: Contract): Speedup
    requires Confirmable(run, c)
  {
    Upper(RunRatios(run, c), Index(c.policy))
  }

  /** The ticks of a confirmable run are its lower bound, rounded. */
  lemma ConfirmableTicks(run: MeasuredRun, c: Contract)
    requires Confirmable(run, c) && ValidContract(c)
    ensures ParseTicks(run.scoreTicks) == Some(TicksOf(RunLower(run, c), c.metric))
    ensures ParseRational(run.result.value.timing.value.summary.lowerRatio) == Some(RunLower(run, c))
    ensures ParseRational(run.result.value.timing.value.summary.upperRatio) == Some(RunUpper(run, c))
  {
    BoundsParse(run.result.value.timing.value.trials, c.policy);
    TicksRoundTrip(TicksOf(RunLower(run, c), c.metric));
  }

  /** Two measured runs are confirmed exactly when both are valid with matching
      evidence and some ratio lies in both intervals; in particular no parsing
      error is ever ignored. */
  lemma ConfirmMeasuredExact(a: MeasuredRun, b: MeasuredRun, c: Contract)
    requires ValidContract(c)
    ensures ConfirmMeasuredRuns(a, b, c).Some? <==>
            Confirmable(a, c) && Confirmable(b, c) && IntervalsMeet(RunRatios(a, c), RunRatios(b, c), Index(c.policy))
  {
    if Confirmable(a, c) && Confirmable(b, c) {
      ConfirmableTicks(a, c);
      ConfirmableTicks(b, c);
      IntervalsMeetIff(RunRatios(a, c), RunRatios(b, c), Index(c.policy));
    }
  }

  /** The confirmed score is the rounded smaller lower bound, hence the less
      favourable of the two scores. */
  lemma ConfirmMeasuredConservative(a: MeasuredRun, b: MeasuredRun, c: Contract)
    requires ValidContract(c) && ConfirmMeasuredRuns(a, b, c).Some?
    ensures var t := ParseTicks(ConfirmMeasuredRuns(a, b, c).value);
            && t == Some(TicksOf(if AtMost(RunLower(a, c), RunLower(b, c)) then RunLower(a, c)
                                 else RunLower(b, c), c.metric))
            && ParseTicks(a.scoreTicks).Some? && ParseTicks(b.scoreTicks).Some?
            && t == Some(LessFavourable(ParseTicks(a.scoreTicks).value, ParseTicks(b.scoreTicks).value, MAXIMIZE))
  {
    ConfirmableTicks(a, c);
    ConfirmableTicks(b, c);
    ConfirmedText(a, b, c);
    FewerTicksRounded(a.scoreTicks, b.scoreTicks, RunLower(a, c), RunLower(b, c), c.metric);
  }

  lemma ConfirmedText(a: MeasuredRun, b: MeasuredRun, c: Contract)
    requires ConfirmMeasuredRuns(a, b, c).Some?
    ensures ConfirmMeasuredRuns(a, b, c).value == FewerTicks(a.scoreTicks, b.scoreTicks)
  {
  }

  lemma FewerTicksRounded(a: string, b: string, x: Speedup, y: Speedup, m: Metric)
    requires PositiveQuantum(m) && m.direction == MAXIMIZE
    requires ParseTicks(a) == Some(TicksOf(x, m)) && ParseTicks(b) == Some(TicksOf(y, m))
    ensures ParseTicks(FewerTicks(a, b)) == Some(TicksOf(if AtMost(x, y) then x else y, m))
    ensures ParseTicks(FewerTicks(a, b)) == Some(LessFavourable(ParseTicks(a).value, ParseTicks(b).value, MAXIMIZE))
  {
    SmallerRoundsSmaller(x, y, m);
  }

  lemma SmallerRoundsSmaller(x: Speedup, y: Speedup, m: Metric)
    requires PositiveQuantum(m) && m.direction == MAXIMIZE
    ensures TicksOf(if AtMost(x, y) then x else y, m) == LessFavourable(TicksOf(x, m), TicksOf(y, m), MAXIMIZE)
  {
    if AtMost(x, y) {
      RoundingMonotone(x, y, m);
    } else {
      RoundingMonotone(y, x, m);
    }
  }
}
