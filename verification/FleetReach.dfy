/** Valid verdicts are reachable: any in-domain score of any plain manifest can be
    confirmed by two hosts in different groups under the independent policy. */
module FleetReach {
  import opened Wrappers
  import opened Ticks
  import opened Scores
  import opened Timing
  import opened Fleet

  const SUB: SubId := (0, 0)

  /** The receipt of a run that scored `score` with every gate passed, for the current lease. */
  function ValidReceipt(j: Job, h: Host, m: Manifest, score: string): Receipt {
    Receipt(j.payload.jobId, j.payload.jobId, h.id, h.group, j.fence, j.payload, 0, true,
            MeasuredRun("valid", score, map g | g in m.hardGates :: true, None))
  }

  predicate Scorable(m: Manifest, score: string) {
    m.timing.None? && ValidMetric(m.metric) && ParseTicks(score).Some? && InDomain(ParseTicks(score).value, m.metric)
  }

  function TakeLease(s: State, id: Id, h: Host): State { FinishClaim(BeginClaim(s, id, h, 10), |s.claims|, 0) }

  lemma LeaseTaken(s: State, id: Id, h: Host)
    requires id in s.jobs && Offered(s.jobs[id], h)
    ensures var t := TakeLease(s, id, h);
            && t.results == s.results && t.subs == s.subs && t.jobs == s.jobs[id := t.jobs[id]]
            && t.jobs[id] == Leased(s.jobs[id], ClaimOf(id, s.jobs[id], h, 10), 0)
  {
    var b := BeginClaim(s, id, h, 10);
    assert b.claims[|s.claims|] == ClaimOf(id, s.jobs[id], h, 10);
  }

  /** A leased job of the submission, as both deliveries find it. */
  ghost predicate Leasing(s: State, id: Id, purpose: Purpose, h: Host, m: Manifest) {
    && id in s.jobs && s.subs.Keys == {SUB} && s.subs[SUB].manifest == m && id !in s.results
    && var j := s.jobs[id];
       && j.status == Running && j.host == Some(h.id) && j.deadline == Some(10) && j.token == Some(0)
       && j.payload.jobId == id
       && j.payload.purpose == purpose && j.payload.submission == SUB && j.payload.policy == INDEPENDENT
       && j.payload.manifest == m
  }

  lemma DeliversIt(s: State, id: Id, purpose: Purpose, h: Host, m: Manifest, score: string, spare: Id)
    requires Leasing(s, id, purpose, h, m) && Scorable(m, score)
    ensures Deliver(s, h, ValidReceipt(s.jobs[id], h, m, score), 0, 0, spare)
               == Commit(s, h, ValidReceipt(s.jobs[id], h, m, score), spare)
  {
    var r := ValidReceipt(s.jobs[id], h, m, score);
    assert Identified(h, r, 0) && ForCurrentLease(s.jobs[id], h, r, 0);
    assert r.run.gates.Keys == m.hardGates;
    assert Storable(s.jobs[id].payload, r.run);
  }

  lemma PrimaryDelivered(s: State, h: Host, m: Manifest, score: string)
    requires Leasing(s, 0, Primary, h, m) && Scorable(m, score) && s.jobs.Keys == {0} && s.results == map[]
    ensures var r := ValidReceipt(s.jobs[0], h, m, score);
            var t := Deliver(s, h, r, 0, 0, 1).0;
            && t.jobs.Keys == {0, 1} && t.results == map[0 := r] && t.subs.Keys == {SUB} && t.subs[SUB].manifest == m
            && t.jobs[0].payload == s.jobs[0].payload
            && t.jobs[1] == NewJob(ConfirmationSpec(s.jobs[0].payload, h, 1), Some(h.group))
  {
    DeliversIt(s, 0, Primary, h, m, score, 1);
  }

  lemma SameScoreConfirms(score: string, m: Manifest)
    requires Scorable(m, score)
    ensures ConfirmedScore(score, score, m.metric) == Some(score)
  {
    ConfirmationIsConservative(score, score, m.metric);
  }

  lemma OnlyPrimary(s: State, r: Receipt)
    requires s.jobs.Keys == {0, 1} && PrimaryOf(s, 0, SUB) && !PrimaryOf(s, 1, SUB) && s.results == map[0 := r]
    ensures PrimaryResult(s, SUB) == Some(r)
  {
  }

  lemma ConfirmationDelivered(s: State, a: Host, b: Host, first: Receipt, m: Manifest, score: string)
    requires Leasing(s, 1, Confirmation, b, m) && Scorable(m, score) && a.group != b.group
    requires s.jobs.Keys == {0, 1} && PrimaryOf(s, 0, SUB) && s.results == map[0 := first]
    requires first.jobId == 0 && first.id == 0 && first.group == a.group && first.createdAt == 0
    requires first.run == MeasuredRun("valid", score, map g | g in m.hardGates :: true, None)
    ensures var t := Deliver(s, b, ValidReceipt(s.jobs[1], b, m, score), 0, 0, 2).0;
            SUB in t.subs && t.subs[SUB].status == Validated && t.subs[SUB].outcome == "valid"
            && t.subs[SUB].score == Some(score)
  {
    DeliversIt(s, 1, Confirmation, b, m, score, 2);
    OnlyPrimary(s, first);
    SameScoreConfirms(score, m);
    var r := ValidReceipt(s.jobs[1], b, m, score);
    assert FreshConfirmation(s.jobs[1].payload, b, r, first);
    assert Verdict(first.run, r.run, m) == ("valid", Some(score));
  }

  lemma RunAppend(steps: seq<Step>, step: Step)
    ensures Run(steps + [step]) == Next(Run(steps), step)
  {
    assert (steps + [step])[..|steps|] == steps;
  }

  lemma RunLease(steps: seq<Step>, id: Id, h: Host) returns (more: seq<Step>)
    ensures Run(more) == TakeLease(Run(steps), id, h)
  {
    var begun := steps + [DoBegin(id, h, 10)];
    RunAppend(steps, DoBegin(id, h, 10));
    more := begun + [DoFinish(|Run(steps).claims|, 0)];
    RunAppend(begun, DoFinish(|Run(steps).claims|, 0));
  }

  lemma QueuePhase(m: Manifest) returns (steps: seq<Step>)
    ensures Waiting(Run(steps), m)
  {
    var accepted := [] + [DoAccept(SUB, INDEPENDENT, m)];
    RunAppend([], DoAccept(SUB, INDEPENDENT, m));
    steps := accepted + [DoQueue(SUB, 0)];
    RunAppend(accepted, DoQueue(SUB, 0));
  }

  /** After the primary's delivery: its result is stored and the confirmation queued. */
  ghost predicate Replicable(s: State, a: Host, first: Receipt, m: Manifest, score: string) {
    && s.jobs.Keys == {0, 1} && s.results == map[0 := first] && s.subs.Keys == {SUB} && s.subs[SUB].manifest == m
    && PrimaryOf(s, 0, SUB) && s.jobs[1].status == Queued && s.jobs[1].excludedGroup == Some(a.group)
    && s.jobs[1].payload == Spec(1, Confirmation, SUB, INDEPENDENT, m, [a.id], "", 1, s.jobs[1].payload.expires)
    && first.jobId == 0 && first.id == 0 && first.group == a.group && first.createdAt == 0
    && first.run == MeasuredRun("valid", score, map g | g in m.hardGates :: true, None)
  }

  /** The submission's primary job, queued. */
  ghost predicate Waiting(s: State, m: Manifest) {
    && s.jobs == map[0 := NewJob(Spec(0, Primary, SUB, INDEPENDENT, m, [], "", 1, 0), None)] && s.results == map[]
    && s.subs == map[SUB := Sub(SubQueued, "pending", None, INDEPENDENT, m)]
  }

  /** What lease and delivery make of a state. */
  ghost function Answer(s: State, id: Id, h: Host, m: Manifest, score: string, spare: Id): State
    requires id in s.jobs
  {
    var t := TakeLease(s, id, h);
    Deliver(t, h, ValidReceipt(t.jobs[id], h, m, score), 0, 0, spare).0
  }

  lemma PrimaryAnswered(s: State, m: Manifest, a: Host, score: string) returns (first: Receipt)
    requires Scorable(m, score) && Waiting(s, m)
    ensures Replicable(Answer(s, 0, a, m, score, 1), a, first, m, score)
  {
    LeaseTaken(s, 0, a);
    var t := TakeLease(s, 0, a);
    first := ValidReceipt(t.jobs[0], a, m, score);
    PrimaryDelivered(t, a, m, score);
  }

  lemma ConfirmationAnswered(s: State, a: Host, b: Host, first: Receipt, m: Manifest, score: string)
    requires Scorable(m, score) && Replicable(s, a, first, m, score) && a.id != b.id && a.group != b.group
    ensures var t := Answer(s, 1, b, m, score, 2);
            SUB in t.subs && t.subs[SUB].status == Validated && t.subs[SUB].outcome == "valid"
            && t.subs[SUB].score == Some(score)
  {
    LeaseTaken(s, 1, b);
    ConfirmationDelivered(TakeLease(s, 1, b), a, b, first, m, score);
  }

  lemma RunAnswer(steps: seq<Step>, id: Id, h: Host, m: Manifest, score: string, spare: Id) returns (more: seq<Step>)
    requires id in Run(steps).jobs
    ensures Run(more) == Answer(Run(steps), id, h, m, score, spare)
  {
    var leased := RunLease(steps, id, h);
    var last := DoDeliver(h, ValidReceipt(Run(leased).jobs[id], h, m, score), 0, 0, spare);
    more := leased + [last];
    RunAppend(leased, last);
  }

  /** Whatever the plain manifest and the in-domain score, two hosts of different groups
      can have it validated. */
  lemma ValidVerdictReached(m: Manifest, a: Host, b: Host, score: string) returns (steps: seq<Step>)
    requires Scorable(m, score) && a.id != b.id && a.group != b.group
    ensures var s := Run(steps);
            SUB in s.subs && s.subs[SUB].status == Validated && s.subs[SUB].outcome == "valid"
            && s.subs[SUB].score == Some(score)
  {
    var queued := QueuePhase(m);
    var first := PrimaryAnswered(Run(queued), m, a, score);
    var primary := RunAnswer(queued, 0, a, m, score, 1);
    ConfirmationAnswered(Run(primary), a, b, first, m, score);
    steps := RunAnswer(primary, 1, b, m, score, 2);
  }
}
