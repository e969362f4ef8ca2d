/** Milestone requirements (pkg/protocol/evaluation.go, ConfirmedAchievement): both fresh
    runs must demonstrate every required property. */
module Achievements {
  import opened Wrappers
  import opened Ticks
  import opened Timing
  import opened Fleet

  function Requirements(m: Manifest, milestone: string): seq<Requirement> {
    if milestone in m.achievements then m.achievements[milestone] else []
  }

  /** The run's measurements satisfy all requirements. */
  predicate Demonstrates(r: MeasuredRun, needed: seq<Requirement>) {
    r.result.Some? && forall i :: 0 <= i < |needed| ==> Satisfies(r.result.value.measurements, needed[i])
  }

  /** One iteration over the runs: none is an error. */
  function RunAchieves(r: MeasuredRun, m: Manifest, needed: seq<Requirement>): Option<bool>
    requires m.timing.Some?
  {
    if r.outcome != "valid" then Some(false)
    else if !EvidenceMatches(r, ContractOf(m)) then None
    else Some(Demonstrates(r, needed))
  }

  function AllAchieve(runs: seq<Receipt>, m: Manifest, needed: seq<Requirement>): Option<bool>
    requires m.timing.Some?
  {
    if runs == [] then Some(true)
    else
      var before := AllAchieve(runs[..|runs| - 1], m, needed);
      if before != Some(true) then before else RunAchieves(runs[|runs| - 1].run, m, needed)
  }

  function Achievement(m: Manifest, milestone: string, runs: seq<Receipt>): Option<bool> {
    var needed := Requirements(m, milestone);
    if needed == [] then Some(true)
    else if m.timing.None? || |runs| != 2 || runs[0].jobId == runs[1].jobId then None
    else AllAchieve(runs, m, needed)
  }

  method ConfirmedAchievement(m: Manifest, milestone: string, runs: seq<Receipt>) returns (r: Option<bool>)
    ensures r == Achievement(m, milestone, runs)
  {
    var needed := Requirements(m, milestone);
    if |needed| == 0 {
      return Some(true);
    }
    if m.timing.None? || |runs| != 2 {
      return None;
    }
    if runs[0].jobId == runs[1].jobId {
      return None;
    }
    for i := 0 to |runs|
      invariant AllAchieve(runs[..i], m, needed) == Some(true)
    {
      OneMore(runs, m, needed, i);
      var ok := CheckRun(runs[i].run, m, needed);
      if ok != Some(true) {
        StopsAt(runs, m, needed, i + 1);
        return ok;
      }
    }
    assert runs[..|runs|] == runs;
    r := Some(true);
  }

  lemma OneMore(runs: seq<Receipt>, m: Manifest, needed: seq<Requirement>, i: nat)
    requires m.timing.Some? && i < |runs|
    ensures AllAchieve(runs[..i + 1], m, needed)
            == if AllAchieve(runs[..i], m, needed) != Some(true) then AllAchieve(runs[..i], m, needed)
               else RunAchieves(runs[i].run, m, needed)
  {
    assert runs[..i + 1][..i] == runs[..i];
  }

  method CheckRun(run: MeasuredRun, m: Manifest, needed: seq<Requirement>) returns (ok: Option<bool>)
    requires m.timing.Some?
    ensures ok == RunAchieves(run, m, needed)
  {
    if run.outcome != "valid" {
      return Some(false);
    }
    if !EvidenceMatches(run, ContractOf(m)) {
      return None;
    }
    ok := Some(Demonstrates(run, needed));
  }

  lemma {:induction false} StopsAt(runs: seq<Receipt>, m: Manifest, needed: seq<Requirement>, n: nat)
    requires m.timing.Some? && n <= |runs| && AllAchieve(runs[..n], m, needed) != Some(true)
    ensures AllAchieve(runs, m, needed) == AllAchieve(runs[..n], m, needed)
  {
    if n == |runs| {
      assert runs[..n] == runs;
    } else {
      assert runs[..|runs| - 1][..n] == runs[..n];
      StopsAt(runs[..|runs| - 1], m, needed, n);
    }
  }

  /** A valid run with matching evidence, as every stored valid result is. */
  predicate Sound(r: Receipt, m: Manifest) {
    r.run.outcome == "valid" && (m.timing.Some? ==> EvidenceMatches(r.run, ContractOf(m)))
  }

  /** A measurement meets a requirement: equal, at least or at most, as rationals. */
  predicate MeetsOne(values: map<string, Rat>, r: Requirement) {
    r.measurement in values ==>
      var x, y := values[r.measurement].num * r.value.den, r.value.num * values[r.measurement].den;
      (r.operator == "eq" ==> x == y) && (r.operator == "ge" ==> x >= y) && (r.operator == "le" ==> x <= y)
  }

  /** The run has measurements, and each requirement is met by them. */
  ghost predicate MeetsAll(r: MeasuredRun, needed: seq<Requirement>) {
    r.result.Some? && forall i :: 0 <= i < |needed| ==> MeetsOne(r.result.value.measurements, needed[i])
  }

  lemma DemonstratesExact(r: MeasuredRun, needed: seq<Requirement>)
    ensures Demonstrates(r, needed) <==> MeetsAll(r, needed)
  {
    if r.result.Some? {
      var values := r.result.value.measurements;
      assert forall i :: 0 <= i < |needed| ==> (Satisfies(values, needed[i]) <==> MeetsOne(values, needed[i]));
    }
  }

  /** The answer for one run; none is an error. */
  ghost predicate Answers(r: MeasuredRun, m: Manifest, needed: seq<Requirement>, answer: Option<bool>)
    requires m.timing.Some?
  {
    && (answer.None? <==> r.outcome == "valid" && !EvidenceMatches(r, ContractOf(m)))
    && (answer == Some(true) <==>
        r.outcome == "valid" && EvidenceMatches(r, ContractOf(m)) && MeetsAll(r, needed))
  }

  lemma RunAnswers(r: MeasuredRun, m: Manifest, needed: seq<Requirement>)
    requires m.timing.Some?
    ensures Answers(r, m, needed, RunAchieves(r, m, needed))
  {
    DemonstratesExact(r, needed);
  }

  /** Every answer there is. A milestone without requirements is achieved. Otherwise there
      must be two runs of different jobs under a measuring contract; the second is asked only
      if the first has shown everything, and the answer is that of the run asked last. */
  lemma AchievementAnswers(m: Manifest, milestone: string, runs: seq<Receipt>)
    ensures var answer := Achievement(m, milestone, runs);
            if milestone !in m.achievements || m.achievements[milestone] == [] then answer == Some(true)
            else if m.timing.None? || |runs| != 2 || runs[0].jobId == runs[1].jobId then answer == None
            else
              var needed := m.achievements[milestone];
              exists first: Option<bool>, second: Option<bool> ::
                && Answers(runs[0].run, m, needed, first) && Answers(runs[1].run, m, needed, second)
                && answer == if first == Some(true) then second else first
  {
    var needed := Requirements(m, milestone);
    if needed != [] && m.timing.Some? && |runs| == 2 && runs[0].jobId != runs[1].jobId {
      RunAnswers(runs[0].run, m, needed);
      RunAnswers(runs[1].run, m, needed);
      PairAchieves(runs, m, needed);
    }
  }

  /** Two stored valid results of different jobs are always evaluated without error, and
      achieve a milestone exactly when it requires nothing or both demonstrate it. */
  lemma AchievementExact(m: Manifest, milestone: string, runs: seq<Receipt>)
    requires |runs| == 2 && runs[0].jobId != runs[1].jobId && Sound(runs[0], m) && Sound(runs[1], m) && m.timing.Some?
    ensures var needed := Requirements(m, milestone);
            Achievement(m, milestone, runs)
            == Some(needed == [] || (Demonstrates(runs[0].run, needed) && Demonstrates(runs[1].run, needed)))
  {
    var needed := Requirements(m, milestone);
    SoundAnswers(runs[0], m, needed);
    SoundAnswers(runs[1], m, needed);
    PairAchieves(runs, m, needed);
  }

  lemma SoundAnswers(r: Receipt, m: Manifest, needed: seq<Requirement>)
    requires m.timing.Some? && Sound(r, m)
    ensures RunAchieves(r.run, m, needed) == Some(Demonstrates(r.run, needed))
  {
  }

  lemma PairAchieves(runs: seq<Receipt>, m: Manifest, needed: seq<Requirement>)
    requires m.timing.Some? && |runs| == 2
    ensures AllAchieve(runs, m, needed)
            == if RunAchieves(runs[0].run, m, needed) == Some(true) then RunAchieves(runs[1].run, m, needed)
               else RunAchieves(runs[0].run, m, needed)
  {
    assert runs[..1][..0] == [];
    assert AllAchieve([], m, needed) == Some(true);
  }
}
