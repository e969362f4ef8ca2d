/** Every valid verdict is backed: two stored valid results of different jobs that
    passed confirmation, from different host groups under the independent policy,
    with the less favourable of the two scores; and a verdict never changes. */
module FleetVerdicts {
  import opened Wrappers
  import opened Ticks
  import opened Scores
  import opened Timing
  import opened Fleet
  import opened FleetSafety

  predicate ConfirmationOf(s: State, id: Id, sub: SubId) {
    id in s.jobs && s.jobs[id].payload.purpose == Confirmation && s.jobs[id].payload.submission == sub
  }

  /** A job carries its submission's policy and manifest. */
  predicate JobOk(s: State, id: Id)
    requires id in s.jobs
  {
    var p := s.jobs[id].payload;
    p.purpose != Build ==>
      p.submission in s.subs && p.policy == s.subs[p.submission].policy && p.manifest == s.subs[p.submission].manifest
  }

  predicate ValidPrimary(s: State, id: Id, sub: SubId) {
    PrimaryOf(s, id, sub) && id in s.results && s.results[id].run.outcome == "valid"
  }

  ghost predicate HasValidPrimary(s: State, sub: SubId) { exists id :: ValidPrimary(s, id, sub) }

  /** One primary and one confirmation per submission, and a confirmation only after
      a valid primary result. */
  ghost predicate Shape(s: State) {
    && (forall a, b, sub :: PrimaryOf(s, a, sub) && PrimaryOf(s, b, sub) ==> a == b)
    && (forall a, b, sub :: ConfirmationOf(s, a, sub) && ConfirmationOf(s, b, sub) ==> a == b)
    && (forall id :: id in s.jobs ==> JobOk(s, id))
    && (forall id, sub :: ConfirmationOf(s, id, sub) ==> HasValidPrimary(s, sub))
  }

  /** p and q are the two stored results a valid verdict rests on. */
  predicate BackedBy(s: State, sub: SubId, p: Id, q: Id)
    requires sub in s.subs
  {
    && PrimaryOf(s, p, sub) && ConfirmationOf(s, q, sub) && p in s.results && q in s.results
    && s.results[p].run.outcome == "valid" && s.results[q].run.outcome == "valid"
    && s.subs[sub].score.Some? && Confirm(s.results[p].run, s.results[q].run, s.subs[sub].manifest) == s.subs[sub].score
    && (JobPolicy(s.subs[sub].policy) == INDEPENDENT ==> s.results[p].group != s.results[q].group)
  }

  ghost predicate Backed(s: State, sub: SubId)
    requires sub in s.subs
  {
    exists p, q :: BackedBy(s, sub, p, q)
  }

  /** No job of the submission can still deliver. */
  ghost predicate Settled(s: State, sub: SubId) {
    && (forall id :: PrimaryOf(s, id, sub) || ConfirmationOf(s, id, sub) ==> id in s.results)
    && HasPrimary(s, sub)
  }

  ghost predicate SubOk(s: State, sub: SubId)
    requires sub in s.subs
  {
    s.subs[sub].status == Validated ==>
      Settled(s, sub) && (s.subs[sub].outcome == "valid" ==> Backed(s, sub))
      && (s.subs[sub].outcome != "valid" ==> s.subs[sub].score.None?)
  }

  ghost predicate SubInv(s: State) { Shape(s) && forall sub :: sub in s.subs ==> SubOk(s, sub) }

  // -------------------------------------------------------------------- frames

  /** Subjects, results and submission contracts are kept. */
  ghost predicate Grown(s: State, t: State) {
    && Stable(s, t)
    && (forall sub :: sub in s.subs ==>
        sub in t.subs && t.subs[sub].policy == s.subs[sub].policy && t.subs[sub].manifest == s.subs[sub].manifest)
  }

  lemma ValidPrimaryKept(s: State, t: State, sub: SubId)
    requires Stable(s, t) && HasValidPrimary(s, sub)
    ensures HasValidPrimary(t, sub)
  {
    var id :| ValidPrimary(s, id, sub);
    assert ValidPrimary(t, id, sub);
  }

  lemma ShapeKept(s: State, t: State)
    requires Shape(s) && Grown(s, t) && t.jobs.Keys == s.jobs.Keys
    ensures Shape(t)
  {
    forall id | id in t.jobs
      ensures JobOk(t, id)
    {
      assert JobOk(s, id);
    }
    forall a, b, sub | PrimaryOf(t, a, sub) && PrimaryOf(t, b, sub)
      ensures a == b
    {
      assert PrimaryOf(s, a, sub) && PrimaryOf(s, b, sub);
    }
    forall a, b, sub | ConfirmationOf(t, a, sub) && ConfirmationOf(t, b, sub)
      ensures a == b
    {
      assert ConfirmationOf(s, a, sub) && ConfirmationOf(s, b, sub);
    }
    forall id, sub | ConfirmationOf(t, id, sub)
      ensures HasValidPrimary(t, sub)
    {
      assert ConfirmationOf(s, id, sub);
      ValidPrimaryKept(s, t, sub);
    }
  }

  /** A submission whose row did not change and that got no new job. */
  lemma SubKept(s: State, t: State, sub: SubId)
    requires Grown(s, t) && sub in s.subs && SubOk(s, sub) && t.subs[sub] == s.subs[sub]
    requires forall id :: id in t.jobs && id !in s.jobs ==>
               t.jobs[id].payload.submission != sub || t.jobs[id].payload.purpose == Build
    ensures SubOk(t, sub)
  {
    if s.subs[sub].status == Validated {
      var id :| PrimaryOf(s, id, sub);
      assert PrimaryOf(t, id, sub);
      forall k | PrimaryOf(t, k, sub) || ConfirmationOf(t, k, sub)
        ensures k in t.results
      {
        assert PrimaryOf(s, k, sub) || ConfirmationOf(s, k, sub);
      }
      if s.subs[sub].outcome == "valid" {
        var p, q :| BackedBy(s, sub, p, q);
        assert BackedBy(t, sub, p, q);
      }
    }
  }

  /** Steps that touch neither submissions nor results nor add jobs. */
  lemma FrameKeeps(s: State, t: State)
    requires SubInv(s) && Stable(s, t) && t.jobs.Keys == s.jobs.Keys && t.subs == s.subs
    ensures SubInv(t)
  {
    ShapeKept(s, t);
    forall sub | sub in t.subs
      ensures SubOk(t, sub)
    {
      SubKept(s, t, sub);
    }
  }

  lemma AcceptKeeps(s: State, sub: SubId, policy: string, m: Manifest)
    requires SubInv(s)
    ensures SubInv(Accept(s, sub, policy, m))
  {
    if sub !in s.subs {
      var t := Accept(s, sub, policy, m);
      ShapeKept(s, t);
      OneSubChanged(s, t, sub);
    }
  }

  lemma BuildAdded(s: State, id: Id, policy: string, m: Manifest, group: Option<string>)
    requires SubInv(s)
    ensures SubInv(QueueBuild(s, id, policy, m, group))
  {
    var t := QueueBuild(s, id, policy, m, group);
    if t != s {
      ShapeAdded(s, t, id);
      forall k | k in t.subs
        ensures SubOk(t, k)
      {
        SubKept(s, t, k);
      }
    }
  }

  /** One more job that is the only one of its purpose for its submission. */
  lemma ShapeAdded(s: State, t: State, id: Id)
    requires Shape(s) && Grown(s, t) && id !in s.jobs && t.jobs.Keys == s.jobs.Keys + {id} && JobOk(t, id)
    requires t.jobs[id].payload.purpose == Primary ==> !HasPrimary(s, t.jobs[id].payload.submission)
    requires t.jobs[id].payload.purpose == Confirmation ==>
               HasValidPrimary(t, t.jobs[id].payload.submission)
               && forall k :: !ConfirmationOf(s, k, t.jobs[id].payload.submission)
    ensures Shape(t)
  {
    forall k | k in t.jobs
      ensures JobOk(t, k)
    {
      if k != id {
        assert JobOk(s, k);
      }
    }
    PrimaryStaysUnique(s, t, id);
    ConfirmationStaysUnique(s, t, id);
    forall k, sub | ConfirmationOf(t, k, sub)
      ensures HasValidPrimary(t, sub)
    {
      if k != id {
        assert ConfirmationOf(s, k, sub);
        ValidPrimaryKept(s, t, sub);
      }
    }
  }

  lemma PrimaryStaysUnique(s: State, t: State, id: Id)
    requires Stable(s, t) && id !in s.jobs && t.jobs.Keys == s.jobs.Keys + {id}
    requires forall a, b, sub :: PrimaryOf(s, a, sub) && PrimaryOf(s, b, sub) ==> a == b
    requires t.jobs[id].payload.purpose == Primary ==> !HasPrimary(s, t.jobs[id].payload.submission)
    ensures forall a, b, sub :: PrimaryOf(t, a, sub) && PrimaryOf(t, b, sub) ==> a == b
  {
    forall a, b, sub | PrimaryOf(t, a, sub) && PrimaryOf(t, b, sub)
      ensures a == b
    {
      assert (a != id ==> PrimaryOf(s, a, sub)) && (b != id ==> PrimaryOf(s, b, sub));
    }
  }

  lemma ConfirmationStaysUnique(s: State, t: State, id: Id)
    requires Stable(s, t) && id !in s.jobs && t.jobs.Keys == s.jobs.Keys + {id}
    requires forall a, b, sub :: ConfirmationOf(s, a, sub) && ConfirmationOf(s, b, sub) ==> a == b
    requires t.jobs[id].payload.purpose == Confirmation ==>
               forall k :: !ConfirmationOf(s, k, t.jobs[id].payload.submission)
    ensures forall a, b, sub :: ConfirmationOf(t, a, sub) && ConfirmationOf(t, b, sub) ==> a == b
  {
    forall a, b, sub | ConfirmationOf(t, a, sub) && ConfirmationOf(t, b, sub)
      ensures a == b
    {
      assert (a != id ==> ConfirmationOf(s, a, sub)) && (b != id ==> ConfirmationOf(s, b, sub));
    }
  }

  /** Only one submission changed, and only it got a new job. */
  lemma OneSubChanged(s: State, t: State, sub: SubId)
    requires (forall k :: k in s.subs ==> SubOk(s, k)) && Shape(t) && Grown(s, t) && sub in t.subs && SubOk(t, sub)
    requires t.subs == s.subs[sub := t.subs[sub]]
    requires forall id :: id in t.jobs && id !in s.jobs ==> t.jobs[id].payload.submission == sub
    ensures SubInv(t)
  {
    forall k | k in t.subs
      ensures SubOk(t, k)
    {
      if k != sub {
        SubKept(s, t, k);
      }
    }
  }

  lemma QueueKeeps(s: State, sub: SubId, id: Id)
    requires SubInv(s)
    ensures SubInv(QueueSubmission(s, sub, id))
  {
    var t := QueueSubmission(s, sub, id);
    if t != s {
      ShapeAdded(s, t, id);
      OneSubChanged(s, t, sub);
    }
  }

  // ---------------------------------------------------------------- deliveries

  /** The job of this receipt is leased to its host and has no result yet. */
  ghost predicate Live(s: State, h: Host, r: Receipt, now: int) {
    && Inv(s) && SubInv(s) && r.jobId in s.jobs && r.jobId !in s.results && ForCurrentLease(s.jobs[r.jobId], h, r, now)
    && r.host == h.id && r.group == h.group && s.jobs[r.jobId].payload.purpose != Build
  }

  lemma LiveIsOpen(s: State, h: Host, r: Receipt, now: int)
    requires Live(s, h, r, now)
    ensures var sub := s.jobs[r.jobId].payload.submission; sub in s.subs && s.subs[sub].status != Validated
  {
    assert JobOk(s, r.jobId);
    var sub := s.jobs[r.jobId].payload.submission;
    assert SubOk(s, sub);
    assert PrimaryOf(s, r.jobId, sub) || ConfirmationOf(s, r.jobId, sub);
  }

  lemma NoConfirmationYet(s: State, h: Host, r: Receipt, now: int, k: Id)
    requires Live(s, h, r, now) && s.jobs[r.jobId].payload.purpose == Primary
    ensures !ConfirmationOf(s, k, s.jobs[r.jobId].payload.submission)
  {
    var sub := s.jobs[r.jobId].payload.submission;
    if ConfirmationOf(s, k, sub) {
      var id :| ValidPrimary(s, id, sub);
      assert PrimaryOf(s, r.jobId, sub);
      assert false;
    }
  }

  /** A stored delivery that adds no job and rewrites its own submission only. */
  ghost predicate Rewrites(s: State, r: Receipt, t: State)
    requires r.jobId in s.jobs
  {
    var sub := s.jobs[r.jobId].payload.submission;
    && t.jobs == WithResult(s, r).jobs && t.results == WithResult(s, r).results && sub in s.subs && sub in t.subs
    && t.subs == s.subs[sub := t.subs[sub]] && t.subs[sub].policy == s.subs[sub].policy
    && t.subs[sub].manifest == s.subs[sub].manifest
  }

  lemma RewriteGrows(s: State, r: Receipt, t: State)
    requires r.jobId in s.jobs && r.jobId !in s.results && Rewrites(s, r, t)
    ensures Grown(s, t) && t.jobs.Keys == s.jobs.Keys
  {
  }

  lemma RewriteKeeps(s: State, h: Host, r: Receipt, now: int, t: State)
    requires Live(s, h, r, now) && Rewrites(s, r, t) && SubOk(t, s.jobs[r.jobId].payload.submission)
    ensures SubInv(t)
  {
    RewriteGrows(s, r, t);
    ShapeKept(s, t);
    OneSubChanged(s, t, s.jobs[r.jobId].payload.submission);
  }

  /** A primary that did not come out valid settles its submission without a score. */
  lemma PrimarySettles(s: State, h: Host, r: Receipt, now: int, t: State)
    requires Live(s, h, r, now) && Rewrites(s, r, t) && s.jobs[r.jobId].payload.purpose == Primary
    requires var u := t.subs[s.jobs[r.jobId].payload.submission]; u.outcome != "valid" && u.score.None?
    ensures SubInv(t)
  {
    var sub := s.jobs[r.jobId].payload.submission;
    assert PrimaryOf(s, r.jobId, sub) && PrimaryOf(t, r.jobId, sub);
    forall k | PrimaryOf(t, k, sub) || ConfirmationOf(t, k, sub)
      ensures k in t.results
    {
      NoConfirmationYet(s, h, r, now, k);
      assert PrimaryOf(s, k, sub);
    }
    RewriteKeeps(s, h, r, now, t);
  }

  lemma VerdictValid(first: MeasuredRun, second: MeasuredRun, m: Manifest)
    ensures var v := Verdict(first, second, m);
            if v.0 == "valid"
            then first.outcome == "valid" && second.outcome == "valid" && v.1.Some? && v.1 == Confirm(first, second, m)
            else v.1.None?
  {
  }

  /** A confirmation settles its submission, with a score only if it is backed. */
  lemma ConfirmationSettles(s: State, h: Host, r: Receipt, now: int, p: Id, t: State)
    requires Live(s, h, r, now) && Rewrites(s, r, t) && s.jobs[r.jobId].payload.purpose == Confirmation
    requires var sub := s.jobs[r.jobId].payload.submission;
             && PrimaryOf(s, p, sub) && p in s.results && FreshConfirmation(s.jobs[r.jobId].payload, h, r, s.results[p])
             && (t.subs[sub].outcome, t.subs[sub].score)
                == Verdict(s.results[p].run, r.run, s.jobs[r.jobId].payload.manifest)
    ensures SubInv(t)
  {
    var sub := s.jobs[r.jobId].payload.submission;
    assert JobOk(s, r.jobId);
    VerdictValid(s.results[p].run, r.run, s.subs[sub].manifest);
    assert PrimaryOf(t, p, sub) && ConfirmationOf(s, r.jobId, sub);
    forall k | PrimaryOf(t, k, sub) || ConfirmationOf(t, k, sub)
      ensures k in t.results
    {
      assert PrimaryOf(s, k, sub) || ConfirmationOf(s, k, sub);
    }
    if t.subs[sub].outcome == "valid" {
      assert BackedBy(t, sub, p, r.jobId);
    }
    RewriteKeeps(s, h, r, now, t);
  }

  /** A valid primary starts its confirmation. */
  lemma PrimaryContinues(s: State, h: Host, r: Receipt, now: int, spare: Id)
    requires Live(s, h, r, now) && s.jobs[r.jobId].payload.purpose == Primary && r.run.outcome == "valid"
             && spare !in s.jobs
    ensures SubInv(StartConfirmation(WithResult(s, r), s.jobs[r.jobId].payload, h, spare))
  {
    LiveIsOpen(s, h, r, now);
    var t, sub := StartConfirmation(WithResult(s, r), s.jobs[r.jobId].payload, h, spare),
      s.jobs[r.jobId].payload.submission;
    assert JobOk(s, r.jobId);
    forall k
      ensures !ConfirmationOf(s, k, sub)
    {
      NoConfirmationYet(s, h, r, now, k);
    }
    assert ValidPrimary(t, r.jobId, sub);
    ContinueGrows(s, h, r, spare);
    ShapeAdded(s, t, spare);
    OneSubChanged(s, t, sub);
  }

  lemma ContinueGrows(s: State, h: Host, r: Receipt, spare: Id)
    requires r.jobId in s.jobs && r.jobId !in s.results && spare !in s.jobs
    ensures var t := StartConfirmation(WithResult(s, r), s.jobs[r.jobId].payload, h, spare);
            Grown(s, t) && t.jobs.Keys == s.jobs.Keys + {spare}
  {
  }

  lemma CommitKeeps(s: State, h: Host, r: Receipt, now: int, spare: Id)
    requires Live(s, h, r, now)
    ensures SubInv(Commit(s, h, r, spare).0)
  {
    LiveIsOpen(s, h, r, now);
    var t, p := Commit(s, h, r, spare).0, s.jobs[r.jobId].payload;
    if r.run.outcome == "challenge_fault" {
      RewriteKeeps(s, h, r, now, t);
    } else if p.purpose == Primary {
      if r.run.outcome != "valid" {
        PrimarySettles(s, h, r, now, t);
      } else if spare !in s.jobs {
        PrimaryContinues(s, h, r, now, spare);
      }
    } else {
      ConfirmationKeeps(s, h, r, now);
    }
  }

  lemma ConfirmationKeeps(s: State, h: Host, r: Receipt, now: int)
    requires Live(s, h, r, now) && s.jobs[r.jobId].payload.purpose == Confirmation
    ensures SubInv(CommitConfirmation(s, WithResult(s, r), h, r).0)
  {
    LiveIsOpen(s, h, r, now);
    var t, p := CommitConfirmation(s, WithResult(s, r), h, r).0, s.jobs[r.jobId].payload;
    var first := PrimaryResult(s, p.submission);
    if first.Some? && FreshConfirmation(p, h, r, first.value) {
      var id :| PrimaryOf(s, id, p.submission) && id in s.results && s.results[id] == first.value;
      ConfirmationSettles(s, h, r, now, id, t);
    }
  }

  lemma DeliveredKeeps(s: State, h: Host, r: Receipt, now: int, spare: Id, t: State)
    requires Inv(s) && SubInv(s) && Delivered(s, h, r, now, spare, t)
    ensures SubInv(t)
  {
    DeliveredStable(s, h, r, now, spare, t);
    if t != s {
      if t == Requeued(s, h, r) || s.jobs[r.jobId].payload.purpose == Build {
        FrameKeeps(s, t);
      } else {
        CommitKeeps(s, h, r, now, spare);
      }
    }
  }

  lemma NextKeeps(s: State, step: Step)
    requires Inv(s) && SubInv(s)
    ensures SubInv(Next(s, step))
  {
    match step
    case DoAccept(sub, policy, m) => AcceptKeeps(s, sub, policy, m);
    case DoQueue(sub, id) => QueueKeeps(s, sub, id);
    case DoQueueBuild(id, policy, m, group) => BuildAdded(s, id, policy, m, group);
    case DoDeliver(h, r, token, now, spare) => DeliverKeeps(s, h, r, token, now, spare);
    case _ => LeaseStepKeeps(s, step);
  }

  lemma LeaseStepKeeps(s: State, step: Step)
    requires Inv(s) && SubInv(s) && (step.DoFinish? || step.DoRecover? || step.DoCancel? || step.DoBegin?)
    ensures SubInv(Next(s, step))
  {
    match step
    case DoFinish(claim, token) => FinishFrame(s, claim, token);
    case DoRecover(now) => RecoverFrame(s, now);
    case DoCancel(ids) => CancelFrame(s, ids);
    case DoBegin(id, h, expires) => BeginFrame(s, id, h, expires);
  }

  lemma BeginFrame(s: State, id: Id, h: Host, expires: int)
    requires SubInv(s)
    ensures SubInv(BeginClaim(s, id, h, expires))
  {
    SameStable(s, BeginClaim(s, id, h, expires));
    FrameKeeps(s, BeginClaim(s, id, h, expires));
  }

  lemma RecoverFrame(s: State, now: int)
    requires Inv(s) && SubInv(s)
    ensures SubInv(Recover(s, now))
  {
    RecoverBumps(s, now);
    BumpFrame(s, Recover(s, now));
  }

  lemma CancelFrame(s: State, ids: set<Id>)
    requires SubInv(s)
    ensures SubInv(Cancel(s, ids))
  {
    CancelBumps(s, ids);
    BumpFrame(s, Cancel(s, ids));
  }

  lemma DeliverKeeps(s: State, h: Host, r: Receipt, token: nat, now: int, spare: Id)
    requires Inv(s) && SubInv(s)
    ensures SubInv(Deliver(s, h, r, token, now, spare).0)
  {
    DeliverShape(s, h, r, token, now, spare);
    DeliveredKeeps(s, h, r, now, spare, Deliver(s, h, r, token, now, spare).0);
  }

  lemma BumpFrame(s: State, t: State)
    requires SubInv(s) && RowsBumped(s, t) && t.subs == s.subs
    ensures SubInv(t)
  {
    BumpStable(s, t);
    FrameKeeps(s, t);
  }

  lemma FinishFrame(s: State, n: nat, token: nat)
    requires Inv(s) && SubInv(s)
    ensures SubInv(FinishClaim(s, n, token))
  {
    FinishStable(s, n, token);
    FinishFrameStable(s, n, token);
  }

  lemma FinishFrameStable(s: State, n: nat, token: nat)
    requires SubInv(s) && Stable(s, FinishClaim(s, n, token))
    ensures SubInv(FinishClaim(s, n, token))
  {
    FrameKeeps(s, FinishClaim(s, n, token));
  }

  lemma {:induction false} RunKeeps(steps: seq<Step>)
    ensures SubInv(Run(steps))
  {
    if steps != [] {
      var n := |steps| - 1;
      RunKeeps(steps[..n]);
      RunKeepsInv(steps[..n]);
      NextKeeps(Run(steps[..n]), steps[n]);
    }
  }

  // -------------------------------------------------------------- main results

  /** One primary and one confirmation job per submission. */
  lemma OneJobPerPurpose(steps: seq<Step>, a: Id, b: Id, sub: SubId)
    requires (PrimaryOf(Run(steps), a, sub) && PrimaryOf(Run(steps), b, sub))
             || (ConfirmationOf(Run(steps), a, sub) && ConfirmationOf(Run(steps), b, sub))
    ensures a == b
  {
    RunKeeps(steps);
  }

  /** What stands behind a valid verdict. */
  ghost predicate Replicated(s: State, sub: SubId, p: Id, q: Id)
    requires sub in s.subs && p in s.results && q in s.results
  {
    var first, second, u := s.results[p], s.results[q], s.subs[sub];
    && p != q && first.jobId == p && second.jobId == q
    && first.run.outcome == "valid" && second.run.outcome == "valid"
    && ParseTicks(first.run.scoreTicks).Some? && ParseTicks(second.run.scoreTicks).Some? && u.score.Some?
    && ParseTicks(u.score.value)
       == Some(LessFavourable(ParseTicks(first.run.scoreTicks).value, ParseTicks(second.run.scoreTicks).value,
                              u.manifest.metric.direction))
    && (JobPolicy(u.policy) == INDEPENDENT ==> first.group != second.group)
  }

  lemma ConfirmLess(first: MeasuredRun, second: MeasuredRun, m: Manifest)
    requires ValidMetric(m.metric) && (m.timing.Some? ==> ValidContract(ContractOf(m)))
             && Confirm(first, second, m).Some?
    ensures ParseTicks(first.scoreTicks).Some? && ParseTicks(second.scoreTicks).Some?
    ensures ParseTicks(Confirm(first, second, m).value)
            == Some(LessFavourable(ParseTicks(first.scoreTicks).value, ParseTicks(second.scoreTicks).value,
                                   m.metric.direction))
  {
    if m.timing.Some? {
      ConfirmMeasuredConservative(first, second, ContractOf(m));
    } else {
      ConfirmationIsConservative(first.scoreTicks, second.scoreTicks, m.metric);
    }
  }

  /** Every valid verdict is backed by two stored valid results of two different jobs
      that passed confirmation; its score is the less favourable of the two, and
      under the independent policy the results come from different host groups. */
  lemma ValidVerdictsAreReplicated(steps: seq<Step>, sub: SubId) returns (p: Id, q: Id)
    requires var s := Run(steps);
             && sub in s.subs && s.subs[sub].status == Validated && s.subs[sub].outcome == "valid"
             && ValidMetric(s.subs[sub].manifest.metric)
             && (s.subs[sub].manifest.timing.Some? ==> ValidContract(ContractOf(s.subs[sub].manifest)))
    ensures var s := Run(steps); p in s.results && q in s.results && Replicated(s, sub, p, q)
  {
    RunKeepsInv(steps);
    RunKeeps(steps);
    var s := Run(steps);
    assert SubOk(s, sub);
    p, q :| BackedBy(s, sub, p, q);
    BackedIsReplicated(s, sub, p, q);
  }

  lemma BackedIsReplicated(s: State, sub: SubId, p: Id, q: Id)
    requires Inv(s) && sub in s.subs && BackedBy(s, sub, p, q) && ValidMetric(s.subs[sub].manifest.metric)
    requires s.subs[sub].manifest.timing.Some? ==> ValidContract(ContractOf(s.subs[sub].manifest))
    ensures Replicated(s, sub, p, q)
  {
    assert RowOk(s, p) && RowOk(s, q);
    ConfirmLess(s.results[p].run, s.results[q].run, s.subs[sub].manifest);
  }

  lemma DeliveredKeepsVerdict(s: State, sub: SubId, h: Host, r: Receipt, now: int, spare: Id, t: State)
    requires Inv(s) && SubInv(s) && sub in s.subs && s.subs[sub].status == Validated
             && Delivered(s, h, r, now, spare, t)
    ensures sub in t.subs && t.subs[sub] == s.subs[sub]
  {
    if t != s && t != Requeued(s, h, r) {
      if s.jobs[r.jobId].payload.purpose != Build {
        LiveIsOpen(s, h, r, now);
      }
      CommitTouchesOwn(s, h, r, spare, sub);
    }
  }

  lemma CommitTouchesOwn(s: State, h: Host, r: Receipt, spare: Id, sub: SubId)
    requires r.jobId in s.jobs && sub in s.subs
             && (s.jobs[r.jobId].payload.purpose == Build || s.jobs[r.jobId].payload.submission != sub)
    ensures var t := Commit(s, h, r, spare).0; sub in t.subs && t.subs[sub] == s.subs[sub]
  {
  }

  /** A verdict, once given, never changes, whatever is delivered, expired or cancelled later. */
  lemma {:induction false} VerdictsPermanent(steps: seq<Step>, n: nat, sub: SubId)
    requires n <= |steps| && sub in Run(steps[..n]).subs && Run(steps[..n]).subs[sub].status == Validated
    ensures sub in Run(steps).subs && Run(steps).subs[sub] == Run(steps[..n]).subs[sub]
  {
    if n == |steps| {
      assert steps[..n] == steps;
    } else {
      var shorter, last := steps[..|steps| - 1], steps[|steps| - 1];
      assert shorter[..n] == steps[..n];
      VerdictsPermanent(shorter, n, sub);
      RunKeepsInv(shorter);
      RunKeeps(shorter);
      NextKeepsVerdict(Run(shorter), sub, last);
    }
  }

  lemma NextKeepsVerdict(s: State, sub: SubId, step: Step)
    requires Inv(s) && SubInv(s) && sub in s.subs && s.subs[sub].status == Validated
    ensures sub in Next(s, step).subs && Next(s, step).subs[sub] == s.subs[sub]
  {
    match step
    case DoDeliver(h, r, token, now, spare) => DeliverKeepsVerdict(s, sub, h, r, token, now, spare);
    case DoQueue(other, id) => QueueKeepsVerdict(s, sub, other, id);
    case _ => PlainStepKeepsVerdict(s, sub, step);
  }

  /** The steps that rewrite no submission. */
  lemma PlainStepKeepsVerdict(s: State, sub: SubId, step: Step)
    requires !step.DoDeliver? && !step.DoQueue? && sub in s.subs
    ensures sub in Next(s, step).subs && Next(s, step).subs[sub] == s.subs[sub]
  {
  }

  lemma QueueKeepsVerdict(s: State, sub: SubId, other: SubId, id: Id)
    requires sub in s.subs && SubOk(s, sub) && s.subs[sub].status == Validated
    ensures var t := QueueSubmission(s, other, id); sub in t.subs && t.subs[sub] == s.subs[sub]
  {
  }

  lemma DeliverKeepsVerdict(s: State, sub: SubId, h: Host, r: Receipt, token: nat, now: int, spare: Id)
    requires Inv(s) && SubInv(s) && sub in s.subs && s.subs[sub].status == Validated
    ensures var t := Deliver(s, h, r, token, now, spare).0; sub in t.subs && t.subs[sub] == s.subs[sub]
  {
    DeliverShape(s, h, r, token, now, spare);
    DeliveredKeepsVerdict(s, sub, h, r, now, spare, Deliver(s, h, r, token, now, spare).0);
  }
}
