/** What a timing summary says about the trials themselves, in nanoseconds: its bounds
    and median as counts of trials, its outcome and its practical gain. */
module TimingTrials {
  import opened Wrappers
  import opened Ticks
  import opened Scores
  import opened Sorting
  import opened Timing

  /** The candidate ran at least x times as fast as the baseline: baseline / candidate >= x. */
  predicate AtLeast(t: Trial, x: Speedup) { x.num * t.candidateNanos <= x.den * t.baselineNanos }

  predicate NoMore(t: Trial, x: Speedup) { x.den * t.baselineNanos <= x.num * t.candidateNanos }

  function Where<T>(s: seq<T>, f: T -> bool): set<nat> { set i: nat | i < |s| && f(s[i]) }

  /** The trials that ran at least x times as fast. */
  function Reaching(ts: seq<Trial>, x: Speedup): set<nat> { Where(ts, t => AtLeast(t, x)) }

  /** The trials that ran at most x times as fast. */
  function Within(ts: seq<Trial>, x: Speedup): set<nat> { Where(ts, t => NoMore(t, x)) }

  /** r is the trial's baseline time over its candidate time. */
  predicate IsRatio(t: Trial, r: Speedup) { r.num * t.candidateNanos == r.den * t.baselineNanos }

  lemma RatioExact(t: Trial)
    requires InRange(t)
    ensures IsRatio(t, RatioOf(t))
  {
    var r := RatioOf(t);
    var g := MakeRatOk(t.baselineNanos, t.candidateNanos);
    assert r.num * (g * r.den) == r.den * (g * r.num);
  }

  lemma RatioCompares(t: Trial, r: Speedup, x: Speedup)
    requires t.candidateNanos > 0 && IsRatio(t, r)
    ensures AtMost(x, r) <==> AtLeast(t, x)
    ensures AtMost(r, x) <==> NoMore(t, x)
  {
    var b, c := t.baselineNanos, t.candidateNanos;
    // Both sides of x <= r times c, and both sides of the comparison in times r.den.
    CancelFactor(x.num * r.den, r.num * x.den, c, (x.num * r.den) * c, (r.num * x.den) * c);
    CancelFactor(x.num * c, x.den * b, r.den, (x.num * r.den) * c, (r.num * x.den) * c);
  }

  /** The ratios of the trials, one each. */
  ghost predicate Times(ts: seq<Trial>, rs: seq<Speedup>) {
    |rs| == |ts| && forall i :: 0 <= i < |ts| ==> ts[i].candidateNanos > 0 && IsRatio(ts[i], rs[i])
  }

  lemma {:induction false} RatiosAreTimes(ts: seq<Trial>)
    requires TrialsOk(ts)
    ensures Times(ts, Ratios(ts))
  {
    assert forall i :: 0 <= i < |ts| ==> TrialOk(ts[i], i);
    forall i | 0 <= i < |ts|
      ensures IsRatio(ts[i], Ratios(ts)[i])
    {
      RatioAt(ts, i);
      RatioExact(ts[i]);
    }
  }

  lemma {:induction false} CountsOnTrials(ts: seq<Trial>, rs: seq<Speedup>, x: Speedup)
    requires Times(ts, rs)
    ensures Count(rs, x, AtMost, false) == |Reaching(ts, x)|
    ensures Count(rs, x, AtMost, true) == |Within(ts, x)|
  {
    if ts != [] {
      var n := |ts| - 1;
      assert forall i :: 0 <= i < n ==> ts[..n][i] == ts[i] && rs[..n][i] == rs[i];
      CountsOnTrials(ts[..n], rs[..n], x);
      RatioCompares(ts[n], rs[n], x);
      SplitLast(ts, t => AtLeast(t, x));
      SplitLast(ts, t => NoMore(t, x));
    }
  }

  lemma SplitLast<T>(s: seq<T>, f: T -> bool)
    requires s != []
    ensures |Where(s, f)| == |Where(s[..|s| - 1], f)| + if f(s[|s| - 1]) then 1 else 0
  {
    var n := |s| - 1;
    assert Where(s, f) == Where(s[..n], f) + if f(s[n]) then {n} else {};
  }

  lemma {:induction false} CountsOfSorted(rs: seq<Speedup>, k: nat, x: Speedup)
    requires 1 <= k <= |rs|
    ensures AtMost(x, Sorted(rs, AtMost)[k - 1]) <==> Count(rs, x, AtMost, false) >= |rs| - k + 1
    ensures AtMost(Sorted(rs, AtMost)[k - 1], x) <==> Count(rs, x, AtMost, true) >= k
  {
    AtMostIsOrder();
    RanksOnUnsorted(rs, x, AtMost, k);
    RanksOnUnsorted(rs, x, AtMost, |rs| - k + 1);
  }

  /** r is the k-th smallest speedup: all but k - 1 trials reach it and k do not exceed it. */
  predicate Ranks(ts: seq<Trial>, k: nat, r: Speedup) {
    |Reaching(ts, r)| >= |ts| - k + 1 && |Within(ts, r)| >= k
  }

  lemma {:induction false} SortedRanks(ts: seq<Trial>, rs: seq<Speedup>, k: nat)
    requires Times(ts, rs) && 1 <= k <= |ts|
    ensures Ranks(ts, k, Sorted(rs, AtMost)[k - 1])
  {
    var r := Sorted(rs, AtMost)[k - 1];
    CountsOnTrials(ts, rs, r);
    CountsOfSorted(rs, k, r);
  }

  /** 2 m = a + b. */
  predicate MeanOf(a: Speedup, b: Speedup, m: Speedup) {
    m.den * (a.num * b.den + b.num * a.den) == m.num * (2 * (a.den * b.den))
  }

  lemma {:induction false} MeanExact(a: Speedup, b: Speedup)
    ensures MeanOf(a, b, Mean(a, b)) && Mean(a, b) == Mean(b, a)
  {
    PositiveProduct(a.den, b.den);
    var n, d := a.num * b.den + b.num * a.den, 2 * (a.den * b.den);
    var m := MakeRat(n, d);
    var g := MakeRatOk(n, d);
    assert m.den * (g * m.num) == m.num * (g * m.den);
    assert b.den * a.den == a.den * b.den;
  }

  /** The median is the mean of the two middle elements, which are one if their number is odd. */
  lemma {:induction false} MedianShape(s: seq<Speedup>)
    requires |s| >= 2
    ensures MeanOf(s[(|s| + 1) / 2 - 1], s[|s| / 2], Median(s))
  {
    var a, b := s[(|s| + 1) / 2 - 1], s[|s| / 2];
    if |s| % 2 == 0 {
      MeanExact(a, b);
    } else {
      MeanOfSame(a);
    }
  }

  lemma {:induction false} MeanOfSame(a: Speedup)
    ensures MeanOf(a, a, a)
  {
    assert a.den * (a.num * a.den) == a.num * (a.den * a.den);
  }

  /** Valid exactly when the interval is narrow enough for its median, and a practical
      gain exactly when it is valid and its lower end reaches the minimum speedup. */
  predicate Concludes(s: Summary, l: Speedup, u: Speedup, m: Speedup, p: Policy)
    requires PolicyFieldsOk(p)
  {
    && s.lowerRatio == RatText(l) && s.upperRatio == RatText(u) && s.medianRatio == RatText(m)
    && s.confidencePpm == p.confidencePpm && s.acceptedTrials == p.repetitions
    && s.outcome == (if Narrow(l, u, m, p.maxRelativeWidth.value) then "valid" else "inconclusive")
    && (s.practicalGain <==> s.outcome == "valid" && Le(p.minimumSpeedup.value, l))
  }

  /** The bounds, and the middle speedup or the two around the middle. */
  datatype Quantiles = Quantiles(lower: Speedup, below: Speedup, above: Speedup, upper: Speedup)

  /** The trials' speedups of rank k from either end, and those in the middle. */
  predicate AreQuantiles(ts: seq<Trial>, k: nat, q: Quantiles)
    requires k <= |ts| + 1
  {
    && Ranks(ts, k, q.lower) && Ranks(ts, |ts| - k + 1, q.upper)
    && Ranks(ts, (|ts| + 1) / 2, q.below) && Ranks(ts, |ts| / 2 + 1, q.above)
  }

  /** A trial that counts: the outputs passed, both times are positive and at most a day,
      and baseline and candidate went first in turn. */
  predicate Counts(t: Trial, i: nat) {
    && t.qualityPassed && 0 < t.baselineNanos <= 86_400_000_000_000 && 0 < t.candidateNanos <= 86_400_000_000_000
    && (t.baselineFirst <==> i % 2 == 0)
  }

  /** Evidence is accepted exactly when it has the locked baseline and number of warmups and
      trials, all of them count, and its summary is the one of its trials. */
  lemma {:induction false} EvidenceExact(e: Evidence, p: Policy)
    requires ValidPolicy(p)
    ensures ValidEvidence(e, p) <==>
            && e.baselineDigest == p.baselineDigest && |e.warmups| == p.warmups && |e.trials| == p.repetitions
            && (forall i :: 0 <= i < |e.warmups| ==> Counts(e.warmups[i], i))
            && (forall i :: 0 <= i < |e.trials| ==> Counts(e.trials[i], i))
            && e.summary == SummaryOf(Ratios(e.trials), p)
  {
    assert forall i :: 0 <= i < |e.warmups| ==> (TrialOk(e.warmups[i], i) <==> Counts(e.warmups[i], i));
    assert forall i :: 0 <= i < |e.trials| ==> (TrialOk(e.trials[i], i) <==> Counts(e.trials[i], i));
  }

  /** What accepted evidence says of its trials: its bounds are the speedups of the locked
      rank from either end, its median is the mean of the middle ones, and its outcome and
      its practical gain are concluded from them. */
  lemma {:induction false} EvidenceReports(e: Evidence, p: Policy) returns (q: Quantiles, m: Speedup)
    requires ValidEvidence(e, p)
    ensures |e.trials| == p.repetitions && AreQuantiles(e.trials, Index(p), q)
    ensures MeanOf(q.below, q.above, m) && Concludes(e.summary, q.lower, q.upper, m, p)
  {
    RatiosAreTimes(e.trials);
    q, m := RatiosReport(e.trials, Ratios(e.trials), Index(p), p);
  }

  lemma {:induction false} RatiosReport(ts: seq<Trial>, rs: seq<Speedup>, k: nat, p: Policy)
    returns (q: Quantiles, m: Speedup)
    requires PolicyFieldsOk(p) && Times(ts, rs) && RankOk(rs, k)
    ensures AreQuantiles(ts, k, q) && MeanOf(q.below, q.above, m)
    ensures Concludes(SummaryAt(rs, k, p), q.lower, q.upper, m, p)
  {
    var a, b;
    a, b, m := MiddleOf(ts, rs, (|ts| + 1) / 2, |ts| / 2 + 1);
    q := Quantiles(Lower(rs, k), a, b, Upper(rs, k));
    TwoRanks(ts, rs, k, |ts| - k + 1, q.lower, q.upper);
    SummaryConcludes(rs, k, p, m);
  }

  lemma {:induction false} SummaryConcludes(rs: seq<Speedup>, k: nat, p: Policy, m: Speedup)
    requires PolicyFieldsOk(p) && RankOk(rs, k) && m == Median(Sorted(rs, AtMost))
    ensures Concludes(SummaryAt(rs, k, p), Lower(rs, k), Upper(rs, k), m, p)
  {
  }

  lemma {:induction false} MiddleOf(ts: seq<Trial>, rs: seq<Speedup>, i: nat, j: nat)
    returns (a: Speedup, b: Speedup, m: Speedup)
    requires Times(ts, rs) && |ts| >= 2 && i == (|ts| + 1) / 2 && j == |ts| / 2 + 1
    ensures Ranks(ts, i, a) && Ranks(ts, j, b) && MeanOf(a, b, m) && m == Median(Sorted(rs, AtMost))
  {
    a, b, m := MedianBehind(rs, i, j);
    TwoRanks(ts, rs, i, j, a, b);
  }

  lemma {:induction false} MedianBehind(rs: seq<Speedup>, i: nat, j: nat)
    returns (a: Speedup, b: Speedup, m: Speedup)
    requires |rs| >= 2 && i == (|rs| + 1) / 2 && j == |rs| / 2 + 1
    ensures 1 <= i <= |rs| && 1 <= j <= |rs| && m == Median(Sorted(rs, AtMost)) && MeanOf(a, b, m)
    ensures a == Sorted(rs, AtMost)[i - 1] && b == Sorted(rs, AtMost)[j - 1]
  {
    var s := Sorted(rs, AtMost);
    a, b, m := s[i - 1], s[j - 1], Median(s);
    MiddleMean(s, a, b, m);
  }

  lemma {:induction false} MiddleMean(s: seq<Speedup>, a: Speedup, b: Speedup, m: Speedup)
    requires |s| >= 2 && a == s[(|s| + 1) / 2 - 1] && b == s[|s| / 2] && m == Median(s)
    ensures MeanOf(a, b, m)
  {
    MedianShape(s);
  }

  lemma {:induction false} TwoRanks(ts: seq<Trial>, rs: seq<Speedup>, j: nat, k: nat, a: Speedup, b: Speedup)
    requires Times(ts, rs) && 1 <= j <= |ts| && 1 <= k <= |ts|
    requires a == Sorted(rs, AtMost)[j - 1] && b == Sorted(rs, AtMost)[k - 1]
    ensures Ranks(ts, j, a) && Ranks(ts, k, b)
  {
    SortedRanks(ts, rs, j);
    SortedRanks(ts, rs, k);
  }

  /** The reported lower bound is at least x exactly when all but k - 1 trials ran at least
      x times as fast, and the upper bound at most x exactly when all but k - 1 did not run
      faster than x. */
  lemma {:induction false} BoundsCountTrials(e: Evidence, p: Policy, x: Speedup)
    requires ValidEvidence(e, p)
    ensures var l, u := ParseRational(e.summary.lowerRatio), ParseRational(e.summary.upperRatio);
            && l.Some? && u.Some?
            && (Le(x, l.value) <==> |Reaching(e.trials, x)| >= |e.trials| - Index(p) + 1)
            && (Le(u.value, x) <==> |Within(e.trials, x)| >= |e.trials| - Index(p) + 1)
  {
    BoundsParse(e.trials, p);
    RatiosAreTimes(e.trials);
    IntervalOnTrials(e.trials, Ratios(e.trials), Index(p), x);
  }

  lemma {:induction false} IntervalOnTrials(ts: seq<Trial>, rs: seq<Speedup>, k: nat, x: Speedup)
    requires Times(ts, rs) && |ts| >= 2 && 1 <= k <= (|ts| + 1) / 2
    ensures AtMost(x, Lower(rs, k)) <==> |Reaching(ts, x)| >= |ts| - k + 1
    ensures AtMost(Upper(rs, k), x) <==> |Within(ts, x)| >= |ts| - k + 1
  {
    CountsOnTrials(ts, rs, x);
    CountsOfSorted(rs, k, x);
    CountsOfSorted(rs, |ts| - k + 1, x);
  }

  // -------------------------------------------------------------- results of runs

  /** The published ticks of a typed result exist exactly when its evidence is accepted, the
      evidence's lower bound is its score, and it has the contract's gates and no others; they
      are that score, rounded. */
  lemma {:induction false} TicksOfResult(r: TypedResult, c: Contract, ticks: string)
    ensures ResultTicks(r, c) == Some(ticks) <==>
            && r.wellFormed && r.timing.Some? && ValidEvidence(r.timing.value, c.policy)
            && r.score == r.timing.value.summary.lowerRatio && r.primary == r.score && r.gates.Keys == c.hardGates
            && ParseRational(r.score).Some? && NormalizedScore(ParseRational(r.score).value, c.metric) == Some(ticks)
  {
  }

  /** A run that ends as valid, with a failed gate or inconclusive carries a typed result with
      its ticks and gates, and ends the way gates and interval say: a failed gate first, then
      a wide interval. Any other end needs no evidence. */
  lemma {:induction false} EvidenceExplainsOutcome(run: MeasuredRun, c: Contract)
    ensures EvidenceMatches(run, c) <==>
            if run.outcome == "hard_gate_failed" || run.outcome == "measurement_inconclusive" || run.outcome == "valid"
            then
              && run.result.Some? && ResultTicks(run.result.value, c) == Some(run.scoreTicks)
              && run.gates == run.result.value.gates
              && run.outcome == (if exists g :: g in run.gates && !run.gates[g] then "hard_gate_failed"
                                 else if run.result.value.timing.Some?
                                         && run.result.value.timing.value.summary.outcome == "inconclusive"
                                 then "measurement_inconclusive" else "valid")
            else true
  {
  }

  /** Two runs of one contract confirm each other exactly when both are valid and explained,
      and neither's lower bound exceeds the other's upper bound. */
  lemma {:induction false} ConfirmedByOverlap(a: MeasuredRun, b: MeasuredRun, c: Contract)
    requires ValidContract(c)
    ensures ConfirmMeasuredRuns(a, b, c).Some? <==>
            && a.outcome == "valid" && b.outcome == "valid" && EvidenceMatches(a, c) && EvidenceMatches(b, c)
            && var x, y := a.result.value.timing.value.summary, b.result.value.timing.value.summary;
               && ParseRational(x.lowerRatio).Some? && ParseRational(x.upperRatio).Some?
               && ParseRational(y.lowerRatio).Some? && ParseRational(y.upperRatio).Some?
               && Le(ParseRational(x.lowerRatio).value, ParseRational(y.upperRatio).value)
               && Le(ParseRational(y.lowerRatio).value, ParseRational(x.upperRatio).value)
  {
    if Confirmable(a, c) && Confirmable(b, c) {
      ConfirmableTicks(a, c);
      ConfirmableTicks(b, c);
    }
  }
}
