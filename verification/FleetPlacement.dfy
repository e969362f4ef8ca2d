/** Where jobs are placed: under the independent policy a confirmation is never leased to the
    host, nor to a host of the group, that ran the primary. */
module FleetPlacement {
  import opened Wrappers
  import opened Fleet
  import opened FleetSafety
  import opened FleetVerdicts

  predicate Independent(p: Spec) { p.policy == "" || p.policy == "independent" }

  /** Host and group of the stored primary result are kept away from the job. */
  ghost predicate KeptAway(s: State, id: Id)
    requires id in s.jobs
  {
    var j := s.jobs[id];
    j.payload.purpose == Confirmation && Independent(j.payload) ==>
      forall p :: PrimaryOf(s, p, j.payload.submission) && p in s.results ==>
        s.results[p].host in j.payload.excluded && j.excludedGroup == Some(s.results[p].group)
  }

  ghost predicate LeasedAway(s: State, i: nat)
    requires i < |s.leases|
  {
    var l := s.leases[i];
    && l.job in s.jobs && SameSubject(l.payload, s.jobs[l.job].payload)
    && (l.payload.purpose == Confirmation && Independent(l.payload) ==>
          forall p :: PrimaryOf(s, p, l.payload.submission) && p in s.results ==>
            l.host != s.results[p].host && l.payload.group != s.results[p].group)
  }

  ghost predicate Placed(s: State) {
    && (forall id :: id in s.jobs ==> KeptAway(s, id))
    && (forall i :: 0 <= i < |s.leases| ==> LeasedAway(s, i))
  }

  /** Rows only add exclusions, and new ones are not confirmations. */
  ghost predicate Loosened(s: State, t: State) {
    && t.results == s.results && t.leases == s.leases
    && (forall id :: id in s.jobs ==>
          && id in t.jobs && SameSubject(s.jobs[id].payload, t.jobs[id].payload)
          && t.jobs[id].excludedGroup == s.jobs[id].excludedGroup
          && s.jobs[id].payload.excluded <= t.jobs[id].payload.excluded)
    && forall id :: id in t.jobs && id !in s.jobs ==> t.jobs[id].payload.purpose != Confirmation
  }

  lemma LoosenedKeeps(s: State, t: State)
    requires Placed(s) && s.results.Keys <= s.jobs.Keys && Loosened(s, t)
    ensures Placed(t)
  {
    forall id | id in t.jobs
      ensures KeptAway(t, id)
    {
      if id in s.jobs {
        assert KeptAway(s, id);
        forall p | PrimaryOf(t, p, t.jobs[id].payload.submission) && p in t.results
          ensures PrimaryOf(s, p, s.jobs[id].payload.submission)
        {
        }
      }
    }
    forall i | 0 <= i < |t.leases|
      ensures LeasedAway(t, i)
    {
      assert LeasedAway(s, i);
      forall p | PrimaryOf(t, p, t.leases[i].payload.submission) && p in t.results
        ensures PrimaryOf(s, p, s.leases[i].payload.submission)
      {
      }
    }
  }

  lemma ExclusionGrows(payload: Spec, host: Option<string>)
    ensures payload.excluded <= Exclude(payload, host).excluded && SameSubject(payload, Exclude(payload, host))
  {
  }

  lemma PlainStepLoosens(s: State, step: Step)
    requires !step.DoDeliver? && !step.DoFinish?
    ensures Loosened(s, Next(s, step))
  {
    match step
    case DoRecover(now) => RecoverLoosens(s, now);
    case DoCancel(ids) => CancelLoosens(s, ids);
    case DoQueue(sub, id) => QueueLoosens(s, sub, id);
    case _ =>
  }

  lemma CancelLoosens(s: State, ids: set<Id>)
    ensures Loosened(s, Cancel(s, ids))
  {
  }

  lemma QueueLoosens(s: State, sub: SubId, id: Id)
    ensures Loosened(s, QueueSubmission(s, sub, id))
  {
  }

  lemma RecoverLoosens(s: State, now: int)
    ensures Loosened(s, Recover(s, now))
  {
    forall id | id in s.jobs
      ensures s.jobs[id].payload.excluded <= Recover(s, now).jobs[id].payload.excluded
    {
      ExclusionGrows(s.jobs[id].payload, s.jobs[id].host);
    }
  }

  lemma RequeueLoosens(s: State, h: Host, r: Receipt)
    requires r.jobId in s.jobs
    ensures Loosened(s, Requeued(s, h, r))
  {
    ExclusionGrows(s.jobs[r.jobId].payload, Some(h.id));
  }

  lemma FinishPlaces(s: State, n: nat, token: nat)
    requires Inv(s) && Placed(s)
    ensures Placed(FinishClaim(s, n, token))
  {
    var t := FinishClaim(s, n, token);
    if n < |s.claims| && Claimable(s, s.claims[n]) {
      var c := s.claims[n];
      assert ClaimOk(s, n) && KeptAway(s, c.job);
      LoosenedKeeps(s, t.(leases := s.leases));
      NewLeaseAway(s, n, token);
      OneMoreLease(t.(leases := s.leases), t);
    }
  }

  lemma OneMoreLease(s: State, t: State)
    requires Placed(s) && t == s.(leases := t.leases) && |t.leases| == |s.leases| + 1
    requires t.leases[..|s.leases|] == s.leases && LeasedAway(t, |s.leases|)
    ensures Placed(t)
  {
    forall id | id in t.jobs
      ensures KeptAway(t, id)
    {
      assert KeptAway(s, id);
    }
    forall i | 0 <= i < |t.leases|
      ensures LeasedAway(t, i)
    {
      if i < |s.leases| {
        assert LeasedAway(s, i) && t.leases[i] == s.leases[i];
      }
    }
  }

  /** The compare-and-set leases a row that was offered to the host. */
  lemma NewLeaseAway(s: State, n: nat, token: nat)
    requires Inv(s) && n < |s.claims| && Claimable(s, s.claims[n]) && KeptAway(s, s.claims[n].job)
    ensures LeasedAway(FinishClaim(s, n, token), |s.leases|)
  {
    var t, c := FinishClaim(s, n, token), s.claims[n];
    assert ClaimOk(s, n);
    forall p | PrimaryOf(t, p, c.payload.submission) && p in t.results
      ensures PrimaryOf(s, p, s.jobs[c.job].payload.submission)
    {
    }
  }

  /** Storing a result: it is the primary's only while there is no confirmation. */
  lemma CommitPlaces(s: State, h: Host, r: Receipt, now: int, spare: Id, t: State)
    requires Inv(s) && SubInv(s) && Placed(s) && r.jobId in s.jobs && r.jobId !in s.results
    requires ForCurrentLease(s.jobs[r.jobId], h, r, now) && r.host == h.id && r.group == h.group
    requires Committed(s, h, r, spare, t)
    ensures Placed(t)
  {
    forall id | id in t.jobs
      ensures KeptAway(t, id)
    {
      StoredKeepsAway(s, h, r, now, spare, t, id);
    }
    forall i | 0 <= i < |t.leases|
      ensures LeasedAway(t, i)
    {
      assert LeasedAway(s, i);
      NewResultElsewhere(s, h, r, now, s.leases[i].job);
      StoredLeaseAway(s, h, r, spare, t, i);
    }
  }

  /** The result is not that of the primary of a confirmation that exists. */
  lemma NewResultElsewhere(s: State, h: Host, r: Receipt, now: int, id: Id)
    requires Inv(s) && SubInv(s) && r.jobId in s.jobs && r.jobId !in s.results && id in s.jobs
    requires ForCurrentLease(s.jobs[r.jobId], h, r, now) && r.host == h.id && r.group == h.group
    ensures s.jobs[id].payload.purpose == Confirmation ==> !PrimaryOf(s, r.jobId, s.jobs[id].payload.submission)
  {
    if s.jobs[id].payload.purpose == Confirmation && PrimaryOf(s, r.jobId, s.jobs[id].payload.submission) {
      NoConfirmationYet(s, h, r, now, id);
      assert false;
    }
  }

  lemma StoredKeepsAway(s: State, h: Host, r: Receipt, now: int, spare: Id, t: State, id: Id)
    requires Inv(s) && SubInv(s) && Placed(s) && r.jobId in s.jobs && r.jobId !in s.results
    requires ForCurrentLease(s.jobs[r.jobId], h, r, now) && r.host == h.id && r.group == h.group
    requires Committed(s, h, r, spare, t) && id in t.jobs
    ensures KeptAway(t, id)
  {
    if id in s.jobs {
      assert KeptAway(s, id);
      NewResultElsewhere(s, h, r, now, id);
    } else {
      assert Shape(s);
      NewJobAway(s, h, r, spare, t, id);
    }
  }

  /** The confirmation that a primary result asks for excludes its host and its group. */
  lemma NewJobAway(s: State, h: Host, r: Receipt, spare: Id, t: State, id: Id)
    requires Shape(s) && s.results.Keys <= s.jobs.Keys && r.jobId in s.jobs && r.host == h.id && r.group == h.group
    requires Committed(s, h, r, spare, t) && id in t.jobs && id !in s.jobs
    ensures KeptAway(t, id)
  {
    var sub := s.jobs[r.jobId].payload.submission;
    assert PrimaryOf(s, r.jobId, sub);
    forall p | PrimaryOf(t, p, sub) && p in t.results
      ensures p == r.jobId
    {
      assert PrimaryOf(s, p, sub);
    }
  }

  lemma StoredLeaseAway(s: State, h: Host, r: Receipt, spare: Id, t: State, i: nat)
    requires r.jobId in s.jobs && s.results.Keys <= s.jobs.Keys && Committed(s, h, r, spare, t)
    requires i < |s.leases| && LeasedAway(s, i)
    requires s.leases[i].payload.purpose == Confirmation ==> !PrimaryOf(s, r.jobId, s.leases[i].payload.submission)
    ensures LeasedAway(t, i)
  {
    forall p | PrimaryOf(t, p, s.leases[i].payload.submission) && p in t.results
      ensures PrimaryOf(s, p, s.leases[i].payload.submission)
    {
    }
  }

  lemma DeliverPlaces(s: State, h: Host, r: Receipt, token: nat, now: int, spare: Id)
    requires Inv(s) && SubInv(s) && Placed(s)
    ensures Placed(Deliver(s, h, r, token, now, spare).0)
  {
    var t := Deliver(s, h, r, token, now, spare).0;
    DeliverShape(s, h, r, token, now, spare);
    if t != s {
      if t == Requeued(s, h, r) {
        RequeueLoosens(s, h, r);
        LoosenedKeeps(s, t);
      } else {
        CommitShape(s, h, r, spare);
        CommitPlaces(s, h, r, now, spare, t);
      }
    }
  }

  lemma {:induction false} RunPlaces(steps: seq<Step>)
    ensures Placed(Run(steps))
  {
    if steps != [] {
      var shorter, last := steps[..|steps| - 1], steps[|steps| - 1];
      RunPlaces(shorter);
      RunKeepsInv(shorter);
      RunKeeps(shorter);
      match last
      case DoDeliver(h, r, token, now, spare) => DeliverPlaces(Run(shorter), h, r, token, now, spare);
      case DoFinish(n, token) => FinishPlaces(Run(shorter), n, token);
      case _ =>
        PlainStepLoosens(Run(shorter), last);
        LoosenedKeeps(Run(shorter), Run(steps));
    }
  }

  /** In every run, under the independent policy, every lease of a confirmation went to another
      host and to another group than the stored primary result came from. */
  lemma ConfirmedElsewhere(steps: seq<Step>, i: nat, p: Id)
    requires var s := Run(steps);
             && i < |s.leases| && p in s.results && s.leases[i].payload.purpose == Confirmation
             && (s.leases[i].payload.policy == "" || s.leases[i].payload.policy == "independent")
             && PrimaryOf(s, p, s.leases[i].payload.submission)
    ensures var s := Run(steps);
            s.leases[i].host != s.results[p].host && s.leases[i].payload.group != s.results[p].group
  {
    RunPlaces(steps);
    assert LeasedAway(Run(steps), i);
  }
}
