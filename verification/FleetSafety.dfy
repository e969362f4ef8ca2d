/** What holds of the runner jobs in every run: each lease has its own fence, a stored
    result answers a granted lease, and results are permanent. */
module FleetSafety {
  import opened Wrappers
  import opened Fleet

  // ------------------------------------------------------------------ fencing

  predicate Covers(l: Lease, id: Id, j: Job) {
    l.job == id && l.fence == j.fence && j.host == Some(l.host) && l.payload == j.payload
  }

  ghost predicate HasLease(s: State, id: Id)
    requires id in s.jobs
  {
    exists i :: 0 <= i < |s.leases| && Covers(s.leases[i], id, s.jobs[id])
  }

  predicate Matches(r: Receipt, id: Id, j: Job) {
    r.jobId == id && r.fence == j.fence && j.host == Some(r.host) && r.jobDigest == j.payload
    && j.payload.fence == j.fence
  }

  ghost predicate RowOk(s: State, id: Id)
    requires id in s.jobs
  {
    var j := s.jobs[id];
    && j.payload.jobId == id
    && (id in s.results <==> j.status == Completed)
    && (j.status == Running ==> j.host.Some? && j.deadline.Some? && j.payload.fence == j.fence)
    && (j.status == Running || j.status == Completed ==> HasLease(s, id))
    && (id in s.results ==> Matches(s.results[id], id, j))
  }

  /** A lease is never ahead of its row, and a row at the lease's fence is still leased or done. */
  predicate LeaseOk(s: State, i: nat)
    requires i < |s.leases|
  {
    var l := s.leases[i];
    l.job in s.jobs && l.fence <= s.jobs[l.job].fence
    && (l.fence == s.jobs[l.job].fence ==> s.jobs[l.job].status == Running || s.jobs[l.job].status == Completed)
  }

  predicate Differ(a: Lease, b: Lease) { a.job != b.job || a.fence != b.fence }

  /** A claim in flight is never ahead of its row; while the row is still queued at
      the claim's fence, the prepared document is the row's own and its host is not excluded. */
  predicate ClaimOk(s: State, i: nat)
    requires i < |s.claims|
  {
    var c := s.claims[i];
    c.job in s.jobs && c.fence <= s.jobs[c.job].fence
    && (Claimable(s, c) ==>
        Offered(s.jobs[c.job], c.host) && c == ClaimOf(c.job, s.jobs[c.job], c.host, c.payload.expires))
  }

  ghost predicate Inv(s: State) {
    && s.results.Keys <= s.jobs.Keys
    && (forall id :: id in s.jobs ==> RowOk(s, id))
    && (forall i :: 0 <= i < |s.leases| ==> LeaseOk(s, i))
    && (forall i, k :: 0 <= i < k < |s.leases| ==> Differ(s.leases[i], s.leases[k]))
    && (forall i :: 0 <= i < |s.claims| ==> ClaimOk(s, i))
  }

  /** A row whose lease or place in the queue was taken away: its fence moved on. */
  predicate Bumped(j: Job, k: Job) {
    && k.fence == j.fence + 1 && k.status in {Queued, Attention, Cancelled} && j.status != Completed
    && SameSubject(j.payload, k.payload)
  }

  /** What a job is about; no step changes it. */
  predicate SameSubject(p: Spec, q: Spec) {
    p.jobId == q.jobId && p.purpose == q.purpose && p.submission == q.submission && p.policy == q.policy
    && p.manifest == q.manifest
  }

  ghost predicate RowsBumped(s: State, t: State) {
    && t.results == s.results && t.claims == s.claims && t.leases == s.leases && t.jobs.Keys == s.jobs.Keys
    && forall id :: id in s.jobs ==> t.jobs[id] == s.jobs[id] || Bumped(s.jobs[id], t.jobs[id])
  }

  lemma BumpKeepsInv(s: State, t: State)
    requires Inv(s) && RowsBumped(s, t)
    ensures Inv(t)
  {
    forall id | id in t.jobs
      ensures RowOk(t, id)
    {
      assert RowOk(s, id);
      if t.jobs[id] == s.jobs[id] && (t.jobs[id].status == Running || t.jobs[id].status == Completed) {
        var i :| 0 <= i < |s.leases| && Covers(s.leases[i], id, s.jobs[id]);
        assert Covers(t.leases[i], id, t.jobs[id]);
      }
    }
    forall i | 0 <= i < |t.leases|
      ensures LeaseOk(t, i)
    {
      assert LeaseOk(s, i);
    }
    forall i | 0 <= i < |t.claims|
      ensures ClaimOk(t, i)
    {
      assert ClaimOk(s, i);
    }
  }

  lemma AddKeepsInv(s: State, id: Id, j: Job, t: State)
    requires Inv(s) && id !in s.jobs && j.status == Queued && j.payload.jobId == id
    requires t.jobs == s.jobs[id := j] && t.results == s.results && t.claims == s.claims && t.leases == s.leases
    ensures Inv(t)
  {
    forall k | k in t.jobs
      ensures RowOk(t, k)
    {
      if k != id {
        assert RowOk(s, k);
        if t.jobs[k].status == Running || t.jobs[k].status == Completed {
          var i :| 0 <= i < |s.leases| && Covers(s.leases[i], k, s.jobs[k]);
          assert Covers(t.leases[i], k, t.jobs[k]);
        }
      }
    }
    forall i | 0 <= i < |t.leases|
      ensures LeaseOk(t, i)
    {
      assert LeaseOk(s, i);
    }
    forall i | 0 <= i < |t.claims|
      ensures ClaimOk(t, i)
    {
      assert ClaimOk(s, i);
    }
  }

  lemma BeginKeepsInv(s: State, id: Id, h: Host, expires: int)
    requires Inv(s)
    ensures Inv(BeginClaim(s, id, h, expires))
  {
    var t := BeginClaim(s, id, h, expires);
    forall k | k in t.jobs
      ensures RowOk(t, k)
    {
      assert RowOk(s, k);
      if t.jobs[k].status == Running || t.jobs[k].status == Completed {
        var i :| 0 <= i < |s.leases| && Covers(s.leases[i], k, s.jobs[k]);
        assert Covers(t.leases[i], k, t.jobs[k]);
      }
    }
    forall i | 0 <= i < |t.leases|
      ensures LeaseOk(t, i)
    {
      assert LeaseOk(s, i);
    }
    forall i | 0 <= i < |t.claims|
      ensures ClaimOk(t, i)
    {
      if i < |s.claims| {
        assert ClaimOk(s, i);
      }
    }
  }

  lemma FinishKeepsInv(s: State, n: nat, token: nat)
    requires Inv(s)
    ensures Inv(FinishClaim(s, n, token))
  {
    var t := FinishClaim(s, n, token);
    if n < |s.claims| && Claimable(s, s.claims[n]) {
      var c := s.claims[n];
      assert ClaimOk(s, n);
      assert RowOk(s, c.job);
      forall k | k in t.jobs
        ensures RowOk(t, k)
      {
        assert RowOk(s, k);
        if k == c.job {
          assert Covers(t.leases[|s.leases|], k, t.jobs[k]);
        } else if t.jobs[k].status == Running || t.jobs[k].status == Completed {
          var i :| 0 <= i < |s.leases| && Covers(s.leases[i], k, s.jobs[k]);
          assert Covers(t.leases[i], k, t.jobs[k]);
        }
      }
      forall i | 0 <= i < |t.leases|
        ensures LeaseOk(t, i)
      {
        if i < |s.leases| {
          assert LeaseOk(s, i);
        }
      }
      forall i, k | 0 <= i < k < |t.leases|
        ensures Differ(t.leases[i], t.leases[k])
      {
        assert LeaseOk(s, i);
        if k < |s.leases| {
          assert Differ(s.leases[i], s.leases[k]);
        }
      }
      forall i | 0 <= i < |t.claims|
        ensures ClaimOk(t, i)
      {
        assert ClaimOk(s, i);
      }
    }
  }

  lemma ResultKeepsInv(s: State, h: Host, r: Receipt, now: int, t: State)
    requires Inv(s) && r.jobId in s.jobs && ForCurrentLease(s.jobs[r.jobId], h, r, now) && r.host == h.id
    requires t.jobs == WithResult(s, r).jobs && t.results == WithResult(s, r).results && t.claims == s.claims
             && t.leases == s.leases
    ensures Inv(t)
  {
    assert RowOk(s, r.jobId);
    forall k | k in t.jobs
      ensures RowOk(t, k)
    {
      assert RowOk(s, k);
      if t.jobs[k].status == Running || t.jobs[k].status == Completed {
        var i :| 0 <= i < |s.leases| && Covers(s.leases[i], k, s.jobs[k]);
        assert Covers(t.leases[i], k, t.jobs[k]);
      }
    }
    forall i | 0 <= i < |t.leases|
      ensures LeaseOk(t, i)
    {
      assert LeaseOk(s, i);
    }
    forall i | 0 <= i < |t.claims|
      ensures ClaimOk(t, i)
    {
      assert ClaimOk(s, i);
    }
  }

  /** The tables after a stored delivery: the result, and for a valid primary its confirmation job. */
  ghost predicate Committed(s: State, h: Host, r: Receipt, spare: Id, t: State)
    requires r.jobId in s.jobs
  {
    && t.claims == s.claims && t.leases == s.leases && t.results == WithResult(s, r).results
    && if s.jobs[r.jobId].payload.purpose == Primary && r.run.outcome == "valid"
       then spare !in s.jobs
            && t.jobs == WithResult(s, r).jobs[
                           spare := NewJob(ConfirmationSpec(s.jobs[r.jobId].payload, h, spare),
                                           ConfirmationGroup(s.jobs[r.jobId].payload, h))]
       else t.jobs == WithResult(s, r).jobs
  }

  lemma CommitShape(s: State, h: Host, r: Receipt, spare: Id)
    requires r.jobId in s.jobs
    ensures var t := Commit(s, h, r, spare).0; t == s || Committed(s, h, r, spare, t)
  {
    ConfirmationShape(s, WithResult(s, r), h, r);
  }

  lemma ConfirmationShape(s: State, t: State, h: Host, r: Receipt)
    requires r.jobId in s.jobs
    ensures var u := CommitConfirmation(s, t, h, r).0; u == s || u == t.(subs := u.subs)
  {
  }

  /** Everything a delivery can do to the tables: nothing, a requeue, or a stored result. */
  ghost predicate Delivered(s: State, h: Host, r: Receipt, now: int, spare: Id, t: State) {
    t == s
    || (r.jobId in s.jobs && r.jobId !in s.results && ForCurrentLease(s.jobs[r.jobId], h, r, now) && r.host == h.id
        && r.group == h.group
        && (t == Requeued(s, h, r) || t == Commit(s, h, r, spare).0))
  }

  function Requeued(s: State, h: Host, r: Receipt): State
    requires r.jobId in s.jobs
  {
    s.(jobs := s.jobs[r.jobId := Faulted(s.jobs[r.jobId], h.id)])
  }

  lemma DeliverShape(s: State, h: Host, r: Receipt, token: nat, now: int, spare: Id)
    requires Inv(s)
    ensures Delivered(s, h, r, now, spare, Deliver(s, h, r, token, now, spare).0)
  {
    if r.jobId in s.jobs {
      assert RowOk(s, r.jobId);
    }
  }

  lemma DeliveredKeepsInv(s: State, h: Host, r: Receipt, now: int, spare: Id, t: State)
    requires Inv(s) && Delivered(s, h, r, now, spare, t)
    ensures Inv(t)
  {
    if t != s {
      if t == Requeued(s, h, r) {
        BumpKeepsInv(s, t);
      } else {
        CommitShape(s, h, r, spare);
        CommittedKeepsInv(s, h, r, now, spare, t);
      }
    }
  }

  lemma CommittedKeepsInv(s: State, h: Host, r: Receipt, now: int, spare: Id, t: State)
    requires Inv(s) && r.jobId in s.jobs && ForCurrentLease(s.jobs[r.jobId], h, r, now) && r.host == h.id
    requires Committed(s, h, r, spare, t)
    ensures Inv(t)
  {
    var u := WithResult(s, r);
    ResultKeepsInv(s, h, r, now, u);
    if s.jobs[r.jobId].payload.purpose == Primary && r.run.outcome == "valid" {
      AddKeepsInv(u, spare, t.jobs[spare], t);
    } else {
      ResultKeepsInv(s, h, r, now, t);
    }
  }

  lemma SubsOnlyKeepsInv(s: State, t: State)
    requires Inv(s) && t == s.(subs := t.subs)
    ensures Inv(t)
  {
    BumpKeepsInv(s, t);
  }

  lemma RecoverBumps(s: State, now: int)
    requires Inv(s)
    ensures RowsBumped(s, Recover(s, now))
  {
  }

  lemma CancelBumps(s: State, ids: set<Id>)
    ensures RowsBumped(s, Cancel(s, ids))
  {
  }

  lemma NextKeepsInv(s: State, step: Step)
    requires Inv(s)
    ensures Inv(Next(s, step))
  {
    match step
    case DoAccept(sub, policy, m) => SubsOnlyKeepsInv(s, Accept(s, sub, policy, m));
    case DoQueue(sub, id) => QueueKeepsInv(s, sub, id);
    case DoQueueBuild(id, policy, m, group) => QueueBuildKeepsInv(s, id, policy, m, group);
    case DoRecover(now) => RecoverKeepsInv(s, now);
    case DoBegin(id, host, expires) => BeginKeepsInv(s, id, host, expires);
    case DoFinish(claim, token) => FinishKeepsInv(s, claim, token);
    case DoDeliver(host, receipt, token, now, spare) => DeliverKeepsInv(s, host, receipt, token, now, spare);
    case DoCancel(ids) => CancelKeepsInv(s, ids);
  }

  lemma QueueKeepsInv(s: State, sub: SubId, id: Id)
    requires Inv(s)
    ensures Inv(QueueSubmission(s, sub, id))
  {
    var t := QueueSubmission(s, sub, id);
    if t != s {
      AddKeepsInv(s, id, t.jobs[id], t);
    }
  }

  lemma QueueBuildKeepsInv(s: State, id: Id, policy: string, m: Manifest, group: Option<string>)
    requires Inv(s)
    ensures Inv(QueueBuild(s, id, policy, m, group))
  {
    var t := QueueBuild(s, id, policy, m, group);
    if t != s {
      AddKeepsInv(s, id, t.jobs[id], t);
    }
  }

  lemma DeliverKeepsInv(s: State, h: Host, r: Receipt, token: nat, now: int, spare: Id)
    requires Inv(s)
    ensures Inv(Deliver(s, h, r, token, now, spare).0)
  {
    DeliverShape(s, h, r, token, now, spare);
    DeliveredKeepsInv(s, h, r, now, spare, Deliver(s, h, r, token, now, spare).0);
  }

  lemma RecoverKeepsInv(s: State, now: int)
    requires Inv(s)
    ensures Inv(Recover(s, now))
  {
    RecoverBumps(s, now);
    BumpKeepsInv(s, Recover(s, now));
  }

  lemma CancelKeepsInv(s: State, ids: set<Id>)
    requires Inv(s)
    ensures Inv(Cancel(s, ids))
  {
    CancelBumps(s, ids);
    BumpKeepsInv(s, Cancel(s, ids));
  }

  lemma {:induction false} RunKeepsInv(steps: seq<Step>)
    ensures Inv(Run(steps))
  {
    if steps != [] {
      RunKeepsInv(steps[..|steps| - 1]);
      NextKeepsInv(Run(steps[..|steps| - 1]), steps[|steps| - 1]);
    }
  }

  /** Each (job, fence) pair is leased at most once. */
  lemma LeasedAtMostOnce(steps: seq<Step>)
    ensures forall i, k :: 0 <= i < k < |Run(steps).leases| ==> Differ(Run(steps).leases[i], Run(steps).leases[k])
  {
    RunKeepsInv(steps);
  }

  /** Every stored result answers a granted lease: same job, fence, host and signed document. */
  lemma ResultAnswersLease(steps: seq<Step>, id: Id) returns (i: nat)
    requires id in Run(steps).results
    ensures i < |Run(steps).leases|
    ensures var l, r := Run(steps).leases[i], Run(steps).results[id];
            l.job == id == r.jobId && l.fence == r.fence && l.host == r.host && l.payload == r.jobDigest
            && l.payload.fence == l.fence
  {
    RunKeepsInv(steps);
    var s := Run(steps);
    assert RowOk(s, id);
    i :| 0 <= i < |s.leases| && Covers(s.leases[i], id, s.jobs[id]);
  }

  // ------------------------------------------------------------- permanence

  /** Jobs stay, keep their subject, and results stay as they are. */
  ghost predicate Stable(s: State, t: State) {
    && (forall id :: id in s.jobs ==> id in t.jobs && SameSubject(s.jobs[id].payload, t.jobs[id].payload))
    && (forall id :: id in s.results ==> id in t.results && t.results[id] == s.results[id])
  }

  lemma DeliveredStable(s: State, h: Host, r: Receipt, now: int, spare: Id, t: State)
    requires Delivered(s, h, r, now, spare, t)
    ensures Stable(s, t)
  {
    if t != s && t != Requeued(s, h, r) {
      CommitShape(s, h, r, spare);
      CommittedStable(s, h, r, spare, t);
    }
  }

  lemma CommittedStable(s: State, h: Host, r: Receipt, spare: Id, t: State)
    requires r.jobId in s.jobs && r.jobId !in s.results && Committed(s, h, r, spare, t)
    ensures Stable(s, t)
  {
  }

  lemma DeliverStable(s: State, h: Host, r: Receipt, token: nat, now: int, spare: Id)
    requires Inv(s)
    ensures Stable(s, Deliver(s, h, r, token, now, spare).0)
  {
    DeliverShape(s, h, r, token, now, spare);
    DeliveredStable(s, h, r, now, spare, Deliver(s, h, r, token, now, spare).0);
  }

  lemma NextStable(s: State, step: Step)
    requires Inv(s)
    ensures Stable(s, Next(s, step))
  {
    match step
    case DoRecover(now) => RecoverStable(s, now);
    case DoFinish(claim, token) => FinishStable(s, claim, token);
    case DoDeliver(host, r, token, now, spare) => DeliverStable(s, host, r, token, now, spare);
    case _ => PlainStepStable(s, step);
  }

  /** The steps that need no invariant to keep what is stored. */
  lemma PlainStepStable(s: State, step: Step)
    requires step.DoCancel? || step.DoQueue? || step.DoAccept? || step.DoBegin? || step.DoQueueBuild?
    ensures Stable(s, Next(s, step))
  {
    match step
    case DoCancel(ids) => CancelStable(s, ids);
    case DoQueue(sub, id) => AddStable(s, QueueSubmission(s, sub, id), id);
    case DoQueueBuild(id, policy, m, group) => AddStable(s, QueueBuild(s, id, policy, m, group), id);
    case DoAccept(sub, policy, m) => SameStable(s, Accept(s, sub, policy, m));
    case DoBegin(id, h, expires) => SameStable(s, BeginClaim(s, id, h, expires));
  }

  lemma SameStable(s: State, t: State)
    requires t.jobs == s.jobs && t.results == s.results
    ensures Stable(s, t)
  {
  }

  lemma RecoverStable(s: State, now: int)
    requires Inv(s)
    ensures Stable(s, Recover(s, now))
  {
    RecoverBumps(s, now);
    BumpStable(s, Recover(s, now));
  }

  lemma CancelStable(s: State, ids: set<Id>)
    ensures Stable(s, Cancel(s, ids))
  {
    CancelBumps(s, ids);
    BumpStable(s, Cancel(s, ids));
  }

  lemma BumpStable(s: State, t: State)
    requires RowsBumped(s, t)
    ensures Stable(s, t)
  {
  }

  lemma AddStable(s: State, t: State, id: Id)
    requires t.results == s.results
    requires t.jobs == s.jobs || (id !in s.jobs && id in t.jobs && t.jobs == s.jobs[id := t.jobs[id]])
    ensures Stable(s, t)
  {
  }

  lemma FinishStable(s: State, n: nat, token: nat)
    requires Inv(s)
    ensures Stable(s, FinishClaim(s, n, token))
  {
    if n < |s.claims| {
      assert ClaimOk(s, n);
    }
  }

  /** A completed job keeps exactly the result it was completed with, whatever happens later. */
  lemma {:induction false} ResultsPermanent(steps: seq<Step>, n: nat)
    requires n <= |steps|
    ensures Stable(Run(steps[..n]), Run(steps))
  {
    if n == |steps| {
      assert steps[..n] == steps;
    } else {
      var shorter := steps[..|steps| - 1];
      assert shorter[..n] == steps[..n];
      ResultsPermanent(shorter, n);
      RunKeepsInv(shorter);
      NextStable(Run(shorter), steps[|steps| - 1]);
    }
  }
}
