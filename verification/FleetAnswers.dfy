/** What a delivered result does, in every reachable state: when it is stored, repeated,
    retried or refused, and what a stored one decides. */
module FleetAnswers {
  import opened Wrappers
  import opened Ticks
  import opened Scores
  import opened Timing
  import opened Fleet
  import opened FleetSafety
  import opened FleetVerdicts

  /** Signed by the host that delivers it, not from the future, and under the job's token. */
  predicate Presented(s: State, h: Host, r: Receipt, token: nat, now: int) {
    && r.host == h.id && r.group == h.group && r.official && r.createdAt <= now + 60
    && r.jobId in s.jobs && s.jobs[r.jobId].token == Some(token)
  }

  /** For the lease that the host holds now, and for the job document it was given. */
  predicate Holding(s: State, h: Host, r: Receipt, token: nat, now: int) {
    && Presented(s, h, r, token, now)
    && var j := s.jobs[r.jobId];
       && j.status == Running && j.host == Some(h.id) && j.deadline.Some? && now <= j.deadline.value
       && r.fence == j.fence && r.jobDigest == j.payload && j.payload.policy in {"", "platform", "independent"}
  }

  /** The score lies in the metric's domain; an empty bound bounds nothing. */
  predicate ScoreInDomain(text: string, m: Metric) {
    && ParseTicks(text).Some?
    && (m.domainMinTicks == ""
        || (ParseTicks(m.domainMinTicks).Some? && ParseTicks(m.domainMinTicks).value <= ParseTicks(text).value))
    && (m.domainMaxTicks == ""
        || (ParseTicks(m.domainMaxTicks).Some? && ParseTicks(text).value <= ParseTicks(m.domainMaxTicks).value))
  }

  /** An outcome that ends a job, with its evidence; a valid one passes every hard gate. */
  predicate Sane(p: Spec, r: MeasuredRun) {
    && r.outcome in {"valid", "hard_gate_failed", "invalid_output", "resource_limit", "declared_timeout",
                     "nondeterministic", "malicious", "challenge_fault", "measurement_inconclusive"}
    && (p.purpose != Build ==>
          && (p.manifest.timing.None? ==> r.result.None?)
          && (p.manifest.timing.Some? ==> EvidenceMatches(r, ContractOf(p.manifest)))
          && (r.outcome == "valid" ==>
                r.gates.Keys == p.manifest.hardGates && (forall g :: g in r.gates ==> r.gates[g])
                && ScoreInDomain(r.scoreTicks, p.manifest.metric)))
  }

  /** A later run of another job than the stored primary result, and under the independent
      policy of another host group. */
  predicate Confirms(s: State, p: Spec, h: Host, r: Receipt, id: Id) {
    && PrimaryOf(s, id, p.submission) && id in s.results
    && (p.policy in {"", "independent"} ==> s.results[id].group != h.group)
    && s.results[id].jobId != r.jobId && s.results[id].id != r.id && s.results[id].createdAt <= r.createdAt
  }

  ghost predicate Decidable(s: State, h: Host, r: Receipt, spare: Id)
    requires r.jobId in s.jobs
  {
    var p := s.jobs[r.jobId].payload;
    && (p.purpose == Primary && r.run.outcome == "valid" ==> spare !in s.jobs)
    && (p.purpose == Confirmation && r.run.outcome != "challenge_fault" ==> exists id :: Confirms(s, p, h, r, id))
  }

  lemma StorableExact(p: Spec, r: MeasuredRun)
    ensures Storable(p, r) <==> Sane(p, r)
  {
  }

  /** In every run: the four kinds of answer, exactly. */
  lemma DeliveryAnswers(steps: seq<Step>, h: Host, r: Receipt, token: nat, now: int, spare: Id)
    ensures var s := Run(steps);
            var (t, reply) := Deliver(s, h, r, token, now, spare);
            && (reply == Duplicate <==>
                Presented(s, h, r, token, now) && r.jobId in s.results && s.results[r.jobId] == r)
            && (reply == Retrying <==> Holding(s, h, r, token, now) && r.run.outcome == "infrastructure_fault")
            && (reply.Stored? <==>
                Holding(s, h, r, token, now) && Sane(s.jobs[r.jobId].payload, r.run) && Decidable(s, h, r, spare))
            && (reply == Duplicate || reply == Refused ==> t == s)
            && (reply.Stored? ==> (t, reply) == Commit(s, h, r, spare))
  {
    RunKeepsInv(steps);
    RunKeeps(steps);
    AnswersAt(Run(steps), h, r, token, now, spare);
  }

  lemma AnswersAt(s: State, h: Host, r: Receipt, token: nat, now: int, spare: Id)
    requires Inv(s) && Shape(s)
    ensures var (t, reply) := Deliver(s, h, r, token, now, spare);
            && (reply == Duplicate <==>
                Presented(s, h, r, token, now) && r.jobId in s.results && s.results[r.jobId] == r)
            && (reply == Retrying <==> Holding(s, h, r, token, now) && r.run.outcome == "infrastructure_fault")
            && (reply.Stored? <==>
                Holding(s, h, r, token, now) && Sane(s.jobs[r.jobId].payload, r.run) && Decidable(s, h, r, spare))
            && (reply == Duplicate || reply == Refused ==> t == s)
            && (reply.Stored? ==> (t, reply) == Commit(s, h, r, spare))
  {
    if Presented(s, h, r, token, now) {
      assert RowOk(s, r.jobId);
      StorableExact(s.jobs[r.jobId].payload, r.run);
      CommitAnswers(s, h, r, spare);
    }
  }

  /** A result that passed the checks is stored exactly when it can be decided. */
  lemma CommitAnswers(s: State, h: Host, r: Receipt, spare: Id)
    requires Shape(s) && r.jobId in s.jobs
    ensures var (t, reply) := Commit(s, h, r, spare);
            if Decidable(s, h, r, spare) then reply.Stored? else reply == Refused && t == s
  {
    var p := s.jobs[r.jobId].payload;
    if p.purpose == Confirmation {
      PrimaryIsThe(s, p.submission);
      if PrimaryResult(s, p.submission).Some? {
        var id :| PrimaryOf(s, id, p.submission) && id in s.results
                  && PrimaryResult(s, p.submission) == Some(s.results[id]);
        assert Confirms(s, p, h, r, id) <==> FreshConfirmation(p, h, r, s.results[id]);
      }
    }
  }

  /** There is one primary job, so the stored primary result is its result. */
  lemma PrimaryIsThe(s: State, sub: SubId)
    requires Shape(s)
    ensures forall id :: PrimaryOf(s, id, sub) && id in s.results ==> PrimaryResult(s, sub) == Some(s.results[id])
    ensures PrimaryResult(s, sub).Some? ==>
              exists id :: PrimaryOf(s, id, sub) && id in s.results && PrimaryResult(s, sub) == Some(s.results[id])
  {
  }

  // ------------------------------------------------------------ what it decides

  /** The row of the job after its host's fault: queued again behind a new fence, never for
      that host. */
  lemma FaultRequeues(s: State, h: Host, r: Receipt, token: nat, now: int, spare: Id)
    requires Holding(s, h, r, token, now) && r.run.outcome == "infrastructure_fault"
    ensures var j := s.jobs[r.jobId];
            Deliver(s, h, r, token, now, spare).0
            == s.(jobs := s.jobs[r.jobId := j.(status := Queued, fence := j.fence + 1, host := None, deadline := None,
                    payload := j.payload.(excluded := j.payload.excluded + [h.id]))])
  {
  }

  /** Two valid runs that confirm each other decide a valid score. The same other outcome
      twice decides that outcome. Everything else is a disagreement. */
  predicate Decides(first: MeasuredRun, second: MeasuredRun, m: Manifest, outcome: string, score: Option<string>) {
    if first.outcome == "valid" && second.outcome == "valid" && Confirm(first, second, m).Some?
    then outcome == "valid" && score == Confirm(first, second, m)
    else
      && score.None?
      && outcome == (if first.outcome == second.outcome && first.outcome != "valid" then first.outcome
                     else if m.timing.Some? then "measurement_inconclusive" else "nondeterministic")
  }

  lemma VerdictDecides(first: MeasuredRun, second: MeasuredRun, m: Manifest)
    ensures Decides(first, second, m, Verdict(first, second, m).0, Verdict(first, second, m).1)
  {
  }

  /** The result is stored for good, and its job is done. */
  predicate Keeps(s: State, r: Receipt, t: State)
    requires r.jobId in s.jobs
  {
    && t.results == s.results[r.jobId := r] && t.claims == s.claims && t.leases == s.leases
    && r.jobId in t.jobs && t.jobs[r.jobId] == s.jobs[r.jobId].(status := Completed, deadline := None)
  }

  /** A build job's result, and a fault of the challenge itself: nothing is decided. */
  lemma NothingDecided(s: State, h: Host, r: Receipt, spare: Id)
    requires r.jobId in s.jobs
    requires s.jobs[r.jobId].payload.purpose == Build || r.run.outcome == "challenge_fault"
    ensures var p, (t, reply) := s.jobs[r.jobId].payload, Commit(s, h, r, spare);
            && Keeps(s, r, t) && t.jobs.Keys == s.jobs.Keys
            && (p.purpose == Build ==> reply == Stored(true, false) && t.subs == s.subs)
            && (p.purpose != Build && p.submission in s.subs ==>
                  && reply == Stored(false, true)
                  && t.subs == s.subs[p.submission := s.subs[p.submission].(status := ChallengeFault,
                                                                            outcome := "pending")])
  {
  }

  /** A primary result: a valid one asks for a confirmation by another host of another group
      under the independent policy, by any host otherwise; any other one is the verdict. */
  lemma PrimaryDecides(s: State, h: Host, r: Receipt, spare: Id)
    requires r.jobId in s.jobs && s.jobs[r.jobId].payload.purpose == Primary && spare !in s.jobs
    requires s.jobs[r.jobId].payload.submission in s.subs && r.run.outcome != "challenge_fault"
    ensures var p, (t, reply) := s.jobs[r.jobId].payload, Commit(s, h, r, spare);
            var u, independent := s.subs[p.submission], p.policy in {"", "independent"};
            && Keeps(s, r, t)
            && if r.run.outcome == "valid" then
                 && reply == Stored(false, false) && t.subs == s.subs[p.submission := u.(status := Confirming)]
                 && t.jobs.Keys == s.jobs.Keys + {spare}
                 && var j := t.jobs[spare];
                    && j.status == Queued && j.attempts == 0 && j.host.None? && j.fence == 1 && j.payload.fence == 1
                    && j.payload.jobId == spare && j.payload.purpose == Confirmation
                    && j.payload.submission == p.submission && j.payload.policy == p.policy
                    && j.payload.manifest == p.manifest
                    && j.payload.excluded == (if independent then [h.id] else [])
                    && j.excludedGroup == (if independent then Some(h.group) else None)
               else
                 && reply == Stored(true, r.run.outcome == "nondeterministic") && t.jobs.Keys == s.jobs.Keys
                 && t.subs == s.subs[p.submission := u.(status := Validated, outcome := r.run.outcome, score := None)]
  {
  }

  /** A confirmation gives the verdict on both runs. */
  lemma ConfirmationDecides(s: State, h: Host, r: Receipt, spare: Id, id: Id)
    requires Shape(s) && r.jobId in s.jobs && s.jobs[r.jobId].payload.purpose == Confirmation
    requires s.jobs[r.jobId].payload.submission in s.subs && r.run.outcome != "challenge_fault"
    requires Confirms(s, s.jobs[r.jobId].payload, h, r, id)
    ensures var p, (t, reply) := s.jobs[r.jobId].payload, Commit(s, h, r, spare);
            && Keeps(s, r, t) && t.jobs.Keys == s.jobs.Keys && p.submission in t.subs
            && var u := t.subs[p.submission];
               && t.subs == s.subs[p.submission := s.subs[p.submission].(status := Validated, outcome := u.outcome,
                                                                         score := u.score)]
               && Decides(s.results[id].run, r.run, p.manifest, u.outcome, u.score)
               && reply == Stored(true, u.outcome == "nondeterministic")
  {
    PrimaryIsThe(s, s.jobs[r.jobId].payload.submission);
    VerdictDecides(s.results[id].run, r.run, s.jobs[r.jobId].payload.manifest);
  }

  // ---------------------------------------------------------------- jobs and leases

  /** A submission is queued once, as a primary job of its own policy and manifest. */
  lemma QueueAnswers(s: State, sub: SubId, id: Id)
    ensures var t := QueueSubmission(s, sub, id);
            if sub in s.subs && id !in s.jobs && s.subs[sub].policy in {"platform", "independent"}
               && (forall k :: k in s.jobs && s.jobs[k].payload.purpose == Primary ==>
                     s.jobs[k].payload.submission != sub)
            then
              && t.jobs.Keys == s.jobs.Keys + {id} && (forall k :: k in s.jobs ==> t.jobs[k] == s.jobs[k])
              && t.jobs[id].status == Queued && t.jobs[id].fence == 1 && t.jobs[id].attempts == 0
              && t.jobs[id].payload == Spec(id, Primary, sub, s.subs[sub].policy, s.subs[sub].manifest, [], "", 1, 0)
              && t.jobs[id].excludedGroup.None? && t.results == s.results && t.leases == s.leases
              && t.subs == s.subs[sub := s.subs[sub].(status := SubQueued)]
            else t == s
  {
    if HasPrimary(s, sub) {
      var k :| PrimaryOf(s, k, sub);
    } else {
      forall k | k in s.jobs && s.jobs[k].payload.purpose == Primary
        ensures s.jobs[k].payload.submission != sub
      {
        assert !PrimaryOf(s, k, sub);
      }
    }
  }

  /** A host is offered exactly the queued rows that exclude neither it nor its group. The
      prepared document names the group, the fence and the deadline. */
  lemma BeginAnswers(s: State, id: Id, h: Host, expires: int)
    ensures var t := BeginClaim(s, id, h, expires);
            if id in s.jobs && s.jobs[id].status == Queued && h.id !in s.jobs[id].payload.excluded
               && s.jobs[id].excludedGroup != Some(h.group)
               && s.jobs[id].payload.policy in {"", "platform", "independent"}
            then
              var j := s.jobs[id];
              var document := j.payload.(group := h.group, fence := j.fence, expires := expires);
              t == s.(claims := s.claims + [Claim(id, document, j.fence, h)])
            else t == s
  {
  }

  /** The compare-and-set: the row is leased exactly when it is still queued at the fence that
      was read. It counts one attempt and runs until the prepared deadline. */
  lemma FinishAnswers(s: State, i: nat, token: nat)
    requires i < |s.claims|
    ensures var c, t := s.claims[i], FinishClaim(s, i, token);
            if c.job in s.jobs && s.jobs[c.job].status == Queued && s.jobs[c.job].fence == c.fence then
              var j := s.jobs[c.job];
              && t.jobs == s.jobs[c.job := j.(status := Running, host := Some(c.host.id), token := Some(token),
                                              deadline := Some(c.payload.expires), attempts := j.attempts + 1,
                                              payload := c.payload)]
              && t.leases == s.leases + [Lease(c.job, c.fence, c.host.id, c.payload)]
              && t.results == s.results && t.subs == s.subs && t.claims == s.claims
            else t == s
  {
  }

  /** Recovery requeues exactly the running rows past their deadline that have no result, or
      sets them aside after eight attempts. The fence moves on, and outside the platform's own
      policy the host is not offered the row again. */
  lemma RecoverAnswers(s: State, now: int, id: Id)
    requires id in s.jobs
    ensures var t, j := Recover(s, now), s.jobs[id];
            && t.jobs.Keys == s.jobs.Keys && t.results == s.results && t.subs == s.subs && t.leases == s.leases
            && if j.status == Running && j.deadline.Some? && j.deadline.value < now && id !in s.results then
                 t.jobs[id] == j.(status := if j.attempts >= 8 then Attention else Queued, fence := j.fence + 1,
                                  host := None, token := None, deadline := None,
                                  payload := j.payload.(excluded := j.payload.excluded
                                    + if j.payload.policy != "platform" && j.host.Some? then [j.host.value] else []))
               else t.jobs[id] == j
  {
    assert s.jobs[id].payload.excluded + [] == s.jobs[id].payload.excluded;
  }
}
