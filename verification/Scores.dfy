/** Scores in integer ticks (pkg/protocol/scores.go, pkg/protocol/frontier_claim.go
    and the comparisons of internal/platform/adjudication.go): directed rounding,
    thresholds, confirmation of two runs, and the frontier test. */
module Scores {
  import opened Wrappers
  import opened Ticks

  const MAXIMIZE := "maximize"
  const MINIMIZE := "minimize"

  /** A metric. The quantum is given as its parsed decimal, absent if unparsable;
      an empty domain bound means no bound. */
  datatype Metric = Metric(direction: string, quantum: Option<Rat>, baselineTicks: string, minimumDeltaTicks: string,
                           toleranceTicks: string, domainMinTicks: string, domainMaxTicks: string)

  predicate KnownDirection(direction: string) { direction == MAXIMIZE || direction == MINIMIZE }

  // ---------------------------------------------------------------- rounding

  /** Division truncated toward zero, as big.Int.QuoRem does it. */
  function TruncatedQuotient(n: int, d: int): int
    requires d > 0
  {
    if n >= 0 then n / d else -((-n) / d)
  }

  /** The largest integer not above n/d, or the smallest not below it. */
  function Rounded(direction: string, n: int, d: int): int
    requires d > 0
  {
    if direction == MAXIMIZE then n / d else -((-n) / d)
  }

  lemma ProductMonotone(a: int, b: int, d: int)
    requires a <= b && d > 0
    ensures a * d <= b * d
  {
  }

  lemma FloorThreshold(n: int, d: int, t: int)
    requires d > 0
    ensures n / d >= t <==> n >= t * d
  {
    var q := n / d;
    assert q * d <= n < (q + 1) * d;
    if q >= t {
      ProductMonotone(t, q, d);
    } else {
      ProductMonotone(q + 1, t, d);
    }
  }

  /** Rounding loses nothing at a threshold: the rounded value meets an integer
      threshold exactly when n/d does. */
  lemma RoundedThreshold(direction: string, n: int, d: int, t: int)
    requires d > 0 && KnownDirection(direction)
    ensures direction == MAXIMIZE ==> (Rounded(direction, n, d) >= t <==> n >= t * d)
    ensures direction == MINIMIZE ==> (Rounded(direction, n, d) <= t <==> n <= t * d)
  {
    if direction == MAXIMIZE {
      FloorThreshold(n, d, t);
    } else {
      FloorThreshold(-n, d, -t);
      assert (-t) * d == -(t * d);
    }
  }

  lemma ScaledThreshold(g: int, n: int, d: int, t: int)
    requires g > 0
    ensures n >= t * d <==> g * n >= t * (g * d)
    ensures n <= t * d <==> g * n <= t * (g * d)
  {
    assert t * (g * d) == g * (t * d);
    if n >= t * d { ProductMonotone(t * d, n, g); } else { ProductMonotone(n + 1, t * d, g); }
    if n <= t * d { ProductMonotone(n, t * d, g); } else { ProductMonotone(t * d + 1, n, g); }
  }

  predicate PositiveQuantum(m: Metric) { m.quantum.Some? && m.quantum.value.den > 0 && m.quantum.value.num > 0 }

  /** v divided by the quantum, in lowest terms. */
  function Ratio(v: Rat, q: Rat): Rat
    requires v.den > 0 && q.den > 0 && q.num > 0
  {
    PositiveProduct(v.den, q.num);
    MakeRat(v.num * q.den, v.den * q.num)
  }

  lemma PositiveProduct(a: int, b: int)
    requires a > 0 && b > 0
    ensures a * b > 0
  {
  }

  predicate InDomain(ticks: int, m: Metric) {
    && (m.domainMinTicks != "" ==> ParseTicks(m.domainMinTicks).Some? && ParseTicks(m.domainMinTicks).value <= ticks)
    && (m.domainMaxTicks != "" ==> ParseTicks(m.domainMaxTicks).Some? && ticks <= ParseTicks(m.domainMaxTicks).value)
  }

  /** The integer a score rounds to. */
  function TicksOf(v: Rat, m: Metric): int
    requires v.den > 0 && PositiveQuantum(m)
  {
    var r := Ratio(v, m.quantum.value);
    Rounded(m.direction, r.num, r.den)
  }

  /** The published text of a score, absent when it is refused. */
  function NormalizedScore(v: Rat, m: Metric): Option<string>
    requires v.den > 0
  {
    if PositiveQuantum(m) && KnownDirection(m.direction)
       && |IntText(TicksOf(v, m))| <= MAX_TICKS_LENGTH && InDomain(TicksOf(v, m), m)
    then Some(IntText(TicksOf(v, m))) else None
  }

  /** normalizeRationalScore: divide by the quantum, truncate, and step away from
      the solver when something was cut off. */
  method NormalizeRationalScore(v: Rat, m: Metric) returns (r: Option<string>)
    requires v.den > 0 && (m.quantum.Some? ==> m.quantum.value.den > 0)
    ensures r == NormalizedScore(v, m)
  {
    if m.quantum.None? || m.quantum.value.num <= 0 {
      return None;
    }
    if m.direction != MAXIMIZE && m.direction != MINIMIZE {
      return None;
    }
    var ratio := Ratio(v, m.quantum.value);
    var ticks := TruncatedQuotient(ratio.num, ratio.den);
    var remainder := ratio.num - ticks * ratio.den;
    if remainder != 0 {
      if m.direction == MAXIMIZE && ratio.num < 0 {
        ticks := ticks - 1;
      }
      if m.direction == MINIMIZE && ratio.num > 0 {
        ticks := ticks + 1;
      }
    }
    AdjustedIsRounded(m.direction, ratio.num, ratio.den);
    assert ticks == TicksOf(v, m);
    var result := IntText(ticks);
    TicksRoundTrip(ticks);
    if ParseTicks(result).None? {
      return None;
    }
    if m.domainMinTicks != "" && (ParseTicks(m.domainMinTicks).None? || ticks < ParseTicks(m.domainMinTicks).value) {
      return None;
    }
    if m.domainMaxTicks != "" && (ParseTicks(m.domainMaxTicks).None? || ticks > ParseTicks(m.domainMaxTicks).value) {
      return None;
    }
    r := Some(result);
  }

  /** A score is published exactly when the metric is usable, its text is short enough and it
      lies within the bounds that are set; the text is that of the largest number of quanta
      not above it, or of the smallest not below it. */
  lemma NormalizedExact(v: Rat, m: Metric, t: int)
    requires v.den > 0 && PositiveQuantum(m) && KnownDirection(m.direction)
    requires var n, d := v.num * m.quantum.value.den, v.den * m.quantum.value.num;
             if m.direction == "maximize" then t * d <= n < (t + 1) * d else (t - 1) * d < n <= t * d
    ensures NormalizedScore(v, m)
            == if |IntText(t)| <= 160
                  && (m.domainMinTicks == ""
                      || (ParseTicks(m.domainMinTicks).Some? && t >= ParseTicks(m.domainMinTicks).value))
                  && (m.domainMaxTicks == ""
                      || (ParseTicks(m.domainMaxTicks).Some? && t <= ParseTicks(m.domainMaxTicks).value))
               then Some(IntText(t)) else None
  {
    RoundingExactAtThreshold(v, m, t);
    RoundingExactAtThreshold(v, m, if m.direction == "maximize" then t + 1 else t - 1);
  }

  /** Truncation followed by the code's correction is the directed rounding. */
  lemma AdjustedIsRounded(direction: string, n: int, d: int)
    requires d > 0 && KnownDirection(direction)
    ensures var t := TruncatedQuotient(n, d);
            Rounded(direction, n, d) == if n - t * d == 0 then t
                                        else if direction == MAXIMIZE && n < 0 then t - 1
                                        else if direction == MINIMIZE && n > 0 then t + 1
                                        else t
  {
    if n >= 0 {
      NegatedFloor(n, d);
    } else {
      NegatedFloor(-n, d);
      assert n == -(-n);
    }
  }

  lemma NegatedFloor(n: int, d: int)
    requires n >= 0 && d > 0
    ensures (-n) / d == if n - (n / d) * d == 0 then -(n / d) else -(n / d) - 1
  {
    var q := n / d;
    assert q * d <= n < (q + 1) * d;
    assert (-q) * d == -(q * d) && (-q - 1) * d == -(q * d) - d;
    if n == q * d {
      FloorThreshold(-n, d, -q);
      FloorThreshold(-n, d, -q + 1);
    } else {
      FloorThreshold(-n, d, -q - 1);
      FloorThreshold(-n, d, -q);
    }
  }

  /** v meets t quanta in the metric's direction, compared without rounding. */
  predicate Meets(direction: string, v: Rat, q: Rat, t: int) {
    if direction == MAXIMIZE then v.num * q.den >= t * (v.den * q.num) else v.num * q.den <= t * (v.den * q.num)
  }

  /** The rounded ticks meet a threshold exactly when the unrounded value does. */
  lemma RoundingExactAtThreshold(v: Rat, m: Metric, t: int)
    requires v.den > 0 && PositiveQuantum(m) && KnownDirection(m.direction)
    ensures m.direction == MAXIMIZE ==> (TicksOf(v, m) >= t <==> Meets(m.direction, v, m.quantum.value, t))
    ensures m.direction == MINIMIZE ==> (TicksOf(v, m) <= t <==> Meets(m.direction, v, m.quantum.value, t))
  {
    var q := m.quantum.value;
    PositiveProduct(v.den, q.num);
    var r := MakeRat(v.num * q.den, v.den * q.num);
    var g := MakeRatOk(v.num * q.den, v.den * q.num);
    RoundedThreshold(m.direction, r.num, r.den, t);
    ScaledThreshold(g, r.num, r.den, t);
  }

  /** Rounding never favours the solver: the ticks, read back as a value, are met by v. */
  lemma RoundingNeverFavours(v: Rat, m: Metric)
    requires v.den > 0 && PositiveQuantum(m) && KnownDirection(m.direction)
    ensures Meets(m.direction, v, m.quantum.value, TicksOf(v, m))
  {
    RoundingExactAtThreshold(v, m, TicksOf(v, m));
  }

  /** A larger value never rounds to fewer ticks. */
  lemma RoundingMonotone(v: Rat, w: Rat, m: Metric)
    requires v.den > 0 && w.den > 0 && PositiveQuantum(m) && KnownDirection(m.direction) && Le(v, w)
    ensures TicksOf(v, m) <= TicksOf(w, m)
  {
    var t := if m.direction == MAXIMIZE then TicksOf(v, m) else TicksOf(w, m);
    RoundingExactAtThreshold(v, m, t);
    RoundingExactAtThreshold(w, m, t);
    MeetsMonotone(m.direction, v, w, m.quantum.value, t);
  }

  lemma MeetsMonotone(direction: string, v: Rat, w: Rat, q: Rat, t: int)
    requires v.den > 0 && w.den > 0 && q.den > 0 && q.num > 0 && KnownDirection(direction) && Le(v, w)
    ensures direction == MAXIMIZE && Meets(direction, v, q, t) ==> Meets(direction, w, q, t)
    ensures direction == MINIMIZE && Meets(direction, w, q, t) ==> Meets(direction, v, q, t)
  {
    // Compare over the common denominator v.den * w.den.
    ProductMonotone(v.num * w.den, w.num * v.den, q.den);
    var a, b, c := (v.num * q.den) * w.den, (w.num * q.den) * v.den, (t * q.num) * (v.den * w.den);
    Exchange(v.num, w.den, q.den);
    Exchange(w.num, v.den, q.den);
    Regroup(t, q.num, v.den, w.den);
    CancelFactor(v.num * q.den, t * (v.den * q.num), w.den, a, c);
    CancelFactor(w.num * q.den, t * (w.den * q.num), v.den, b, c);
  }

  lemma Exchange(x: int, y: int, z: int)
    ensures (x * y) * z == (x * z) * y
  {
  }

  lemma Regroup(t: int, n: int, x: int, y: int)
    ensures (t * n) * (x * y) == (t * (x * n)) * y && (t * n) * (x * y) == (t * (y * n)) * x
  {
  }

  lemma CancelFactor(x: int, y: int, f: int, xf: int, yf: int)
    requires f > 0 && xf == x * f && yf == y * f
    ensures (x >= y <==> xf >= yf) && (x <= y <==> xf <= yf)
  {
    if x >= y { ProductMonotone(y, x, f); } else { ProductMonotone(x + 1, y, f); }
    if x <= y { ProductMonotone(x, y, f); } else { ProductMonotone(y + 1, x, f); }
  }

  // -------------------------------------------------------------- thresholds

  function CompareTicks(a: string, b: string): Option<int> {
    var x, y := ParseTicks(a), ParseTicks(b);
    if x.None? || y.None? then None else Some(x.value - y.value)
  }

  function Qualifies(score: string, threshold: string, direction: string): Option<bool> {
    var c := CompareTicks(score, threshold);
    if c.None? then None
    else if direction == MAXIMIZE then Some(c.value >= 0)
    else if direction == MINIMIZE then Some(c.value <= 0)
    else None
  }

  /** Qualifying on the published ticks is qualifying on the unrounded value. */
  lemma QualifiesOnUnrounded(v: Rat, m: Metric, threshold: string)
    requires v.den > 0 && PositiveQuantum(m) && KnownDirection(m.direction)
    requires |IntText(TicksOf(v, m))| <= MAX_TICKS_LENGTH && ParseTicks(threshold).Some?
    ensures Qualifies(IntText(TicksOf(v, m)), threshold, m.direction)
            == Some(Meets(m.direction, v, m.quantum.value, ParseTicks(threshold).value))
  {
    TicksRoundTrip(TicksOf(v, m));
    RoundingExactAtThreshold(v, m, ParseTicks(threshold).value);
  }

  // ------------------------------------------------------------ confirmation

  /** Strictly better, at least as good as a threshold, and better by a margin, on ticks. */
  predicate Better(x: int, y: int, direction: string) { if direction == MAXIMIZE then x > y else x < y }

  predicate Crosses(x: int, threshold: int, direction: string) {
    if direction == MAXIMIZE then x >= threshold else x <= threshold
  }

  predicate Meaningful(x: int, prior: int, delta: int, direction: string) {
    if direction == MINIMIZE then prior - x >= delta else x - prior >= delta
  }

  /** The less favourable of two scores. */
  function LessFavourable(x: int, y: int, direction: string): int {
    if direction == MAXIMIZE then (if x <= y then x else y) else (if x >= y then x else y)
  }

  /** protocol.ConfirmScores. */
  function ConfirmScores(a: string, b: string, m: Metric): Option<string> {
    var x, y, t := ParseTicks(a), ParseTicks(b), ParseTicks(m.toleranceTicks);
    if x.None? || y.None? || t.None? || t.value < 0 || Abs(x.value - y.value) > t.value then None
    else if m.direction == MAXIMIZE then Some(if x.value < y.value then a else b)
    else if m.direction == MINIMIZE then Some(if x.value > y.value then a else b)
    else None
  }

  /** platform.ConfirmedScore, which takes the metric as validated. */
  function ConfirmedScore(a: string, b: string, m: Metric): Option<string> {
    var x, y, t := ParseTicks(a), ParseTicks(b), ParseTicks(m.toleranceTicks);
    if x.None? || y.None? || t.None? || Abs(x.value - y.value) > t.value then None
    else Some(if Better(x.value, y.value, m.direction) then b else a)
  }

  /** The metric rules of ValidateManifest that the comparisons rely on. */
  predicate ValidMetric(m: Metric) {
    && KnownDirection(m.direction) && PositiveQuantum(m) && ParseTicks(m.baselineTicks).Some?
    && ParseTicks(m.minimumDeltaTicks).Some? && ParseTicks(m.minimumDeltaTicks).value > 0
    && ParseTicks(m.toleranceTicks).Some? && ParseTicks(m.toleranceTicks).value >= 0
  }

  /** Both confirmations accept exactly the pairs within tolerance, in either order,
      and give the text of the less favourable score. */
  lemma ConfirmationIsConservative(a: string, b: string, m: Metric)
    requires ValidMetric(m)
    ensures ConfirmedScore(a, b, m) == ConfirmScores(a, b, m) == ConfirmScores(b, a, m)
    ensures ConfirmedScore(a, b, m).Some? <==>
            ParseTicks(a).Some? && ParseTicks(b).Some?
            && var x, y, t := ParseTicks(a).value, ParseTicks(b).value, ParseTicks(m.toleranceTicks).value;
               x - t <= y <= x + t
    ensures ConfirmedScore(a, b, m).Some? ==>
              && ConfirmedScore(a, b, m).value in {a, b}
              && var x, y := ParseTicks(a).value, ParseTicks(b).value;
                 var z := ParseTicks(ConfirmedScore(a, b, m).value);
                 && z == Some(LessFavourable(x, y, m.direction))
                 && (if m.direction == "maximize" then z.value <= x && z.value <= y else x <= z.value && y <= z.value)
  {
    if ParseTicks(a).Some? && ParseTicks(a) == ParseTicks(b) {
      TicksTextUnique(a);
      TicksTextUnique(b);
    }
  }

  /** A milestone crossed by the confirmed score is one that both runs meet. */
  lemma ConfirmedCrossingHoldsForBoth(x: int, y: int, threshold: int, direction: string)
    requires KnownDirection(direction)
    ensures direction == "maximize" ==>
              (Crosses(LessFavourable(x, y, direction), threshold, direction) <==> x >= threshold && y >= threshold)
    ensures direction == "minimize" ==>
              (Crosses(LessFavourable(x, y, direction), threshold, direction) <==> x <= threshold && y <= threshold)
  {
  }

  /** The adjudicator's comparison of integers is the protocol's comparison of texts. */
  lemma QualifiesIsCrossing(x: int, threshold: int, direction: string)
    requires |IntText(x)| <= MAX_TICKS_LENGTH && |IntText(threshold)| <= MAX_TICKS_LENGTH && KnownDirection(direction)
    ensures Qualifies(IntText(x), IntText(threshold), direction) == Some(Crosses(x, threshold, direction))
  {
    TicksRoundTrip(x);
    TicksRoundTrip(threshold);
  }

  /** A score crosses a milestone exactly when the value it was rounded from meets it. */
  lemma CrossingOnUnrounded(v: Rat, m: Metric, threshold: int)
    requires v.den > 0 && PositiveQuantum(m) && KnownDirection(m.direction)
    ensures Crosses(TicksOf(v, m), threshold, m.direction) <==>
            if m.direction == "maximize"
            then v.num * m.quantum.value.den >= threshold * (v.den * m.quantum.value.num)
            else v.num * m.quantum.value.den <= threshold * (v.den * m.quantum.value.num)
  {
    RoundingExactAtThreshold(v, m, threshold);
  }

  // ---------------------------------------------------------------- frontier

  /** protocol.FrontierImprovement, the admission test. */
  predicate FrontierImprovement(score: string, prior: string, m: Metric) {
    var x, y, d := ParseTicks(score), ParseTicks(prior), ParseTicks(m.minimumDeltaTicks);
    && x.Some? && y.Some? && d.Some? && d.value > 0 && KnownDirection(m.direction)
    && (if m.direction == MINIMIZE then y.value - x.value else x.value - y.value) >= d.value
  }

  /** platform.meaningful, the adjudicator's test. */
  predicate MeaningfulText(score: string, prior: string, m: Metric) {
    var x, y, d := ParseTicks(score), ParseTicks(prior), ParseTicks(m.minimumDeltaTicks);
    x.Some? && y.Some? && d.Some? && Meaningful(x.value, y.value, d.value, m.direction)
  }

  /** protocol.AdmissionFrontier: the public frontier, never below the baseline. */
  function AdmissionFrontier(m: Metric, frontier: string): string {
    var a, b := ParseTicks(frontier), ParseTicks(m.baselineTicks);
    if a.None? then m.baselineTicks
    else if b.None? then ""
    else if Better(a.value, b.value, m.direction) && KnownDirection(m.direction) then frontier
    else m.baselineTicks
  }

  /** Admission and adjudication apply the same test, and to the same frontier
      whenever the frontier is unset or ahead of the baseline. */
  lemma AdmissionAgrees(score: string, frontier: string, m: Metric)
    requires ValidMetric(m)
    requires frontier == "" || (ParseTicks(frontier).Some?
                                && Better(ParseTicks(frontier).value, ParseTicks(m.baselineTicks).value, m.direction))
    ensures AdmissionFrontier(m, frontier) == if frontier == "" then m.baselineTicks else frontier
    ensures FrontierImprovement(score, AdmissionFrontier(m, frontier), m)
            <==> MeaningfulText(score, if frontier == "" then m.baselineTicks else frontier, m)
  {
  }
}
