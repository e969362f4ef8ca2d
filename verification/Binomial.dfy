/** Binomial coefficients, their row sums and symmetry, and the exact index of
    the median confidence interval (pkg/protocol/measurement.go, medianIntervalIndex). */
module Binomial {
  const MILLION: nat := 1_000_000

  function Pow2(n: nat): (p: nat)
    ensures p > 0
  {
    if n == 0 then 1 else 2 * Pow2(n - 1)
  }

  /** n choose k, by Pascal's rule. */
  function Choose(n: nat, k: int): (c: nat)
    ensures 0 <= k <= n ==> c > 0
    ensures k < 0 || k > n ==> c == 0
  {
    if k < 0 || k > n then 0
    else if n == 0 then 1
    else Choose(n - 1, k - 1) + Choose(n - 1, k)
  }

  lemma {:induction false} FirstCoefficient(n: nat)
    ensures Choose(n, 0) == 1
  {
    if n > 0 {
      FirstCoefficient(n - 1);
    }
  }

  /** The sum of n choose i for lo <= i < hi. */
  function Sum(n: nat, lo: int, hi: int): nat
    decreases hi - lo
  {
    if hi <= lo then 0 else Sum(n, lo, hi - 1) + Choose(n, hi - 1)
  }

  lemma {:induction false} SumSplits(n: nat, lo: int, mid: int, hi: int)
    requires lo <= mid <= hi
    ensures Sum(n, lo, hi) == Sum(n, lo, mid) + Sum(n, mid, hi)
    decreases hi - mid
  {
    if mid < hi {
      SumSplits(n, lo, mid, hi - 1);
    }
  }

  lemma {:induction false} PascalSum(n: nat, lo: int, hi: int)
    requires n > 0 && lo <= hi
    ensures Sum(n, lo, hi) == Sum(n - 1, lo - 1, hi - 1) + Sum(n - 1, lo, hi)
    decreases hi - lo
  {
    if lo < hi {
      PascalSum(n, lo, hi - 1);
    }
  }

  /** A whole row adds up to two to the n. */
  lemma {:induction false} RowSum(n: nat)
    ensures Sum(n, 0, n + 1) == Pow2(n)
  {
    if n == 0 {
      assert Sum(0, 0, 0) == 0;
    } else {
      RowSum(n - 1);
      PascalSum(n, 0, n + 1);
      SumSplits(n - 1, -1, 0, n);
      assert Sum(n - 1, -1, -1) == 0 && Choose(n - 1, -1) == 0;
      assert Choose(n - 1, n) == 0;
    }
  }

  lemma {:induction false} Symmetric(n: nat, k: int)
    ensures Choose(n, k) == Choose(n, n - k)
  {
    if 0 <= k <= n && n > 0 {
      Symmetric(n - 1, k - 1);
      Symmetric(n - 1, k);
    }
  }

  /** The two tails of a row have the same weight. */
  lemma {:induction false} TailsEqual(n: nat, k: nat)
    requires k <= n + 1
    ensures Sum(n, 0, k) == Sum(n, n + 1 - k, n + 1)
  {
    if k > 0 {
      TailsEqual(n, k - 1);
      SumSplits(n, n + 1 - k, n + 2 - k, n + 1);
      Symmetric(n, k - 1);
      assert Sum(n, n + 1 - k, n + 2 - k) == Sum(n, n + 1 - k, n + 1 - k) + Choose(n, n + 1 - k);
    }
  }

  lemma {:induction false} SumMonotone(n: nat, j: int, k: int)
    requires 0 <= j <= k
    ensures Sum(n, 0, j) <= Sum(n, 0, k)
  {
    SumSplits(n, 0, j, k);
  }

  /** x shifted left by n bits. */
  function Shifted(x: int, n: nat): int { if n == 0 then x else 2 * Shifted(x, n - 1) }

  lemma {:induction false} ShiftIsProduct(x: int, n: nat)
    ensures Shifted(x, n) == Pow2(n) * x
  {
    if n > 0 {
      ShiftIsProduct(x, n - 1);
      assert Pow2(n) * x == 2 * (Pow2(n - 1) * x);
    }
  }

  lemma {:induction false} ShiftNonNegative(x: int, n: nat)
    requires x >= 0
    ensures Shifted(x, n) >= 0
  {
    if n > 0 {
      ShiftNonNegative(x, n - 1);
    }
  }

  /** The inequality the index is chosen by: both tails of weight k together are
      at most the allowed miss probability, in millionths of all 2^n patterns. */
  predicate TailFits(n: nat, confidence: int, k: nat) {
    2 * MILLION * Sum(n, 0, k) <= Shifted(MILLION - confidence, n)
  }

  /** medianIntervalIndex. The result fits, and no larger index up to the middle
      does; the loop may stop at the first misfit because the tail sum only grows. */
  method MedianIntervalIndex(n: nat, confidence: int) returns (answer: nat)
    requires confidence <= MILLION
    ensures answer <= (n + 1) / 2 && TailFits(n, confidence, answer)
    ensures forall k :: answer < k <= (n + 1) / 2 ==> !TailFits(n, confidence, k)
  {
    var target := Pow2(n) * (MILLION - confidence);
    var sum := 0;
    answer := 0;
    ShiftIsProduct(MILLION - confidence, n);
    ShiftNonNegative(MILLION - confidence, n);
    for k := 1 to (n + 1) / 2 + 1
      invariant answer == k - 1 && sum == Sum(n, 0, answer) && TailFits(n, confidence, answer)
    {
      sum := sum + Choose(n, k - 1);
      assert sum == Sum(n, 0, k);
      if sum * 2000000 <= target {
        answer := k;
      } else {
        forall j | answer < j <= (n + 1) / 2
          ensures !TailFits(n, confidence, j)
        {
          SumMonotone(n, k, j);
        }
        return;
      }
    }
  }

  /** The index as a function: the largest fitting index up to the middle. */
  function IntervalIndex(n: nat, confidence: int): (k: nat)
    requires confidence <= MILLION
    ensures k <= (n + 1) / 2 && TailFits(n, confidence, k)
    ensures forall j :: k < j <= (n + 1) / 2 ==> !TailFits(n, confidence, j)
  {
    IndexFrom(n, confidence, (n + 1) / 2)
  }

  function IndexFrom(n: nat, confidence: int, hi: nat): (k: nat)
    requires confidence <= MILLION
    ensures k <= hi && TailFits(n, confidence, k)
    ensures forall j :: k < j <= hi ==> !TailFits(n, confidence, j)
  {
    ShiftNonNegative(MILLION - confidence, n);
    if hi == 0 || TailFits(n, confidence, hi) then hi else IndexFrom(n, confidence, hi - 1)
  }

  /** There is only one such index, so the loop computes this function. */
  lemma IndexUnique(n: nat, confidence: int, k: nat)
    requires confidence <= MILLION && k <= (n + 1) / 2 && TailFits(n, confidence, k)
    requires forall j :: k < j <= (n + 1) / 2 ==> !TailFits(n, confidence, j)
    ensures k == IntervalIndex(n, confidence)
  {
  }

  /** One coefficient is at most half of its row. */
  lemma ChooseAtMostHalf(n: nat, k: int)
    requires n > 0 && 0 < k <= n
    ensures 2 * Choose(n, k) <= Pow2(n)
  {
    RowSum(n - 1);
    SumSplits(n - 1, 0, k - 1, n);
    if k < n {
      SumSplits(n - 1, k - 1, k + 1, n);
      assert Sum(n - 1, k - 1, k + 1) == Sum(n - 1, k - 1, k) + Choose(n - 1, k);
    }
    assert Sum(n - 1, k - 1, k) == Sum(n - 1, k - 1, k - 1) + Choose(n - 1, k - 1);
  }

  /** Half of a row already weighs at least a quarter of it. */
  lemma HalfRowIsHeavy(n: nat)
    requires n >= 2
    ensures 4 * Sum(n, 0, (n + 1) / 2) >= Pow2(n)
  {
    var h := (n + 1) / 2;
    RowSum(n);
    TailsEqual(n, h);
    SumSplits(n, 0, h, n + 1);
    if n % 2 == 0 {
      SumSplits(n, h, h + 1, n + 1);
      assert Sum(n, h, h + 1) == Sum(n, h, h) + Choose(n, h);
      ChooseAtMostHalf(n, h);
    }
  }

  /** For confidence of at least ninety percent the index is the largest one at
      all, not only up to the middle. */
  lemma IndexLargestOverall(n: nat, confidence: int, k: nat)
    requires n >= 2 && 900_000 <= confidence <= MILLION
    requires IntervalIndex(n, confidence) < k
    ensures !TailFits(n, confidence, k)
  {
    var h := (n + 1) / 2;
    if k > h {
      HalfRowIsHeavy(n);
      SumMonotone(n, h, k);
      ShiftIsProduct(MILLION - confidence, n);
      SmallShare(Pow2(n), MILLION - confidence);
    }
  }

  lemma SmallShare(p: int, share: int)
    requires p > 0 && share <= 100_000
    ensures p * share <= 100_000 * p
  {
  }

  /** Coverage: of the 2^n equally likely sign patterns, those with at least k
      trials on either side of the median make up at least the confidence. */
  lemma CoverageAtLeastConfidence(n: nat, confidence: int)
    requires confidence <= MILLION
    ensures var k := IntervalIndex(n, confidence);
            MILLION * Sum(n, k, n - k + 1) >= confidence * Pow2(n)
  {
    var k := IntervalIndex(n, confidence);
    RowSum(n);
    TailsEqual(n, k);
    SumSplits(n, 0, k, n + 1);
    SumSplits(n, k, n + 1 - k, n + 1);
    ShiftIsProduct(MILLION - confidence, n);
    assert Pow2(n) * (MILLION - confidence) == MILLION * Pow2(n) - confidence * Pow2(n);
  }

  // ------------------------------------------------- what the count counts

  function Extend(ps: set<seq<bool>>, b: bool): set<seq<bool>> {
    set p | p in ps :: p + [b]
  }

  function Trues(p: seq<bool>): nat {
    if p == [] then 0 else Trues(p[..|p| - 1]) + if p[|p| - 1] then 1 else 0
  }

  /** The patterns of n trials with exactly k above the median. */
  function PatternsWith(n: nat, k: int): set<seq<bool>> {
    if n == 0 then (if k == 0 then {[]} else {})
    else Extend(PatternsWith(n - 1, k), false) + Extend(PatternsWith(n - 1, k - 1), true)
  }

  lemma {:induction false} ExtendSize(ps: set<seq<bool>>, b: bool)
    ensures |Extend(ps, b)| == |ps|
  {
    if ps != {} {
      var p :| p in ps;
      ExtendSize(ps - {p}, b);
      assert forall q :: q + [b] == p + [b] ==> (q + [b])[..|q|] == (p + [b])[..|p|];
      assert Extend(ps, b) == Extend(ps - {p}, b) + {p + [b]};
    } else {
      assert Extend(ps, b) == {};
    }
  }

  lemma EndsDiffer(ps: set<seq<bool>>, qs: set<seq<bool>>)
    ensures Extend(ps, false) !! Extend(qs, true)
  {
    forall x | x in Extend(ps, false)
      ensures x !in Extend(qs, true)
    {
      assert !x[|x| - 1];
    }
  }

  /** PatternsWith holds exactly the patterns it is named after. */
  lemma {:induction false} PatternMembership(n: nat, k: int, p: seq<bool>)
    ensures p in PatternsWith(n, k) <==> |p| == n && Trues(p) == k
  {
    if n > 0 && p != [] {
      var shorter, b := p[..|p| - 1], p[|p| - 1];
      assert p == shorter + [b];
      PatternMembership(n - 1, if b then k - 1 else k, shorter);
      ExtendMembership(PatternsWith(n - 1, k), false, p);
      ExtendMembership(PatternsWith(n - 1, k - 1), true, p);
    }
  }

  lemma ExtendMembership(ps: set<seq<bool>>, b: bool, p: seq<bool>)
    requires p != []
    ensures p in Extend(ps, b) <==> p[|p| - 1] == b && p[..|p| - 1] in ps
  {
    assert p == p[..|p| - 1] + [p[|p| - 1]];
    if p in Extend(ps, b) {
      var q :| q in ps && p == q + [b];
      assert p[..|p| - 1] == q;
    }
  }

  /** Binomial coefficients count sign patterns. */
  lemma {:induction false} ChooseCountsPatterns(n: nat, k: int)
    ensures |PatternsWith(n, k)| == Choose(n, k)
  {
    if n > 0 {
      ChooseCountsPatterns(n - 1, k);
      ChooseCountsPatterns(n - 1, k - 1);
      CountStep(n, k);
    }
  }

  lemma CountStep(n: nat, k: int)
    requires n > 0 && |PatternsWith(n - 1, k)| == Choose(n - 1, k)
             && |PatternsWith(n - 1, k - 1)| == Choose(n - 1, k - 1)
    ensures |PatternsWith(n, k)| == Choose(n, k)
  {
    PatternsSplit(n, k);
    PascalRule(n, k);
  }

  lemma PascalRule(n: nat, k: int)
    requires n > 0
    ensures Choose(n, k) == Choose(n - 1, k) + Choose(n - 1, k - 1)
  {
  }

  lemma PatternsSplit(n: nat, k: int)
    requires n > 0
    ensures |PatternsWith(n, k)| == |PatternsWith(n - 1, k)| + |PatternsWith(n - 1, k - 1)|
  {
    DisjointExtensions(PatternsWith(n - 1, k), PatternsWith(n - 1, k - 1));
  }

  lemma DisjointExtensions(a: set<seq<bool>>, b: set<seq<bool>>)
    ensures |Extend(a, false) + Extend(b, true)| == |a| + |b|
  {
    ExtendSize(a, false);
    ExtendSize(b, true);
    EndsDiffer(a, b);
  }

  /** The patterns with at least lo and fewer than hi trials above the median. */
  function PatternsBetween(n: nat, lo: int, hi: int): set<seq<bool>>
    decreases hi - lo
  {
    if hi <= lo then {} else PatternsBetween(n, lo, hi - 1) + PatternsWith(n, hi - 1)
  }

  lemma {:induction false} PatternsBetweenMembership(n: nat, lo: int, hi: int, p: seq<bool>)
    ensures p in PatternsBetween(n, lo, hi) <==> |p| == n && lo <= Trues(p) < hi
    decreases hi - lo
  {
    if lo < hi {
      PatternsBetweenMembership(n, lo, hi - 1, p);
      PatternMembership(n, hi - 1, p);
    }
  }

  lemma {:induction false} PatternsBetweenSize(n: nat, lo: int, hi: int)
    ensures |PatternsBetween(n, lo, hi)| == Sum(n, lo, hi)
    decreases hi - lo
  {
    if lo < hi {
      PatternsBetweenSize(n, lo, hi - 1);
      ChooseCountsPatterns(n, hi - 1);
      var fewer, last := PatternsBetween(n, lo, hi - 1), PatternsWith(n, hi - 1);
      forall p | p in last
        ensures p !in fewer
      {
        PatternMembership(n, hi - 1, p);
        PatternsBetweenMembership(n, lo, hi - 1, p);
      }
    }
  }

  /** Coverage, counted: of the 2^n sign patterns at least the confidence's share
      has k or more trials on either side of the median. */
  lemma CentralPatternsCoverConfidence(n: nat, confidence: int, k: nat)
    requires confidence <= MILLION && k == IntervalIndex(n, confidence)
    ensures MILLION * |PatternsBetween(n, k, n - k + 1)| >= confidence * |PatternsBetween(n, 0, n + 1)|
  {
    ShareOf(confidence, |PatternsBetween(n, k, n - k + 1)|, |PatternsBetween(n, 0, n + 1)|, n, k);
  }

  lemma ShareOf(confidence: int, central: nat, all: nat, n: nat, k: nat)
    requires confidence <= MILLION && k == IntervalIndex(n, confidence)
    requires central == |PatternsBetween(n, k, n - k + 1)| && all == |PatternsBetween(n, 0, n + 1)|
    ensures MILLION * central >= confidence * all
  {
    CentralSize(n, k, central);
    AllPatterns(n);
    CoverageAtLeastConfidence(n, confidence);
  }

  lemma CentralSize(n: nat, k: nat, central: nat)
    requires central == |PatternsBetween(n, k, n - k + 1)|
    ensures central == Sum(n, k, n - k + 1)
  {
    PatternsBetweenSize(n, k, n - k + 1);
  }

  lemma AllPatterns(n: nat)
    ensures |PatternsBetween(n, 0, n + 1)| == Pow2(n)
  {
    PatternsBetweenSize(n, 0, n + 1);
    RowSum(n);
  }
}
