/** How often a job can be claimed when all claims come from a fixed set of hosts. */
module FleetBounds {
  import opened Wrappers
  import opened Timing
  import opened Fleet
  import opened FleetSafety

  function ExcludedSet(p: Spec): set<string> { set h | h in p.excluded }

  predicate PlatformPolicy(j: Job) { j.payload.policy == PLATFORM }

  /** The bound on one row. A queued row has been tried at most seven times more than
      it has excluded hosts, a running one eight times more, and its host is not yet
      excluded; outside platform policy each attempt costs a host. */
  ghost predicate RowBound(j: Job, hosts: set<string>) {
    var x := ExcludedSet(j.payload);
    && x <= hosts && j.attempts <= 7 + |hosts| && (!PlatformPolicy(j) ==> j.attempts <= |hosts|)
    && (j.status == Queued ==> j.attempts <= 7 + |x| && (!PlatformPolicy(j) ==> j.attempts <= |x|))
    && (j.status == Running ==>
          j.host.Some? && j.host.value in hosts - x && j.attempts <= 8 + |x|
          && (!PlatformPolicy(j) ==> j.attempts <= |x| + 1))
  }

  lemma ExcludeGrows(p: Spec, h: string)
    ensures ExcludedSet(Exclude(p, Some(h))) == ExcludedSet(p) + {h}
  {
  }

  lemma RecoveredBound(j: Job, hosts: set<string>)
    requires RowBound(j, hosts) && j.status == Running
    ensures RowBound(Recovered(j), hosts)
  {
    ExcludeGrows(j.payload, j.host.value);
  }

  lemma FaultedBound(j: Job, hosts: set<string>)
    requires RowBound(j, hosts) && j.status == Running
    ensures RowBound(Faulted(j, j.host.value), hosts)
  {
    ExcludeGrows(j.payload, j.host.value);
  }

  lemma LeasedBound(j: Job, c: Claim, token: nat, hosts: set<string>)
    requires RowBound(j, hosts) && Offered(j, c.host) && c.host.id in hosts && c.payload.excluded == j.payload.excluded
    requires c.payload.policy == j.payload.policy
    ensures RowBound(Leased(j, c, token), hosts)
  {
    var x := ExcludedSet(j.payload);
    assert ExcludedSet(c.payload) == x;
    SubsetSize(x + {c.host.id}, hosts);
  }

  function LeaseCount(leases: seq<Lease>, id: Id): nat {
    if leases == [] then 0 else LeaseCount(leases[..|leases| - 1], id) + if leases[|leases| - 1].job == id then 1 else 0
  }

  /** Attempts count the granted leases, and every row meets its bound. */
  ghost predicate BoundOk(s: State, hosts: set<string>, id: Id)
    requires id in s.jobs
  {
    RowBound(s.jobs[id], hosts) && s.jobs[id].attempts == LeaseCount(s.leases, id)
  }

  ghost predicate BoundInv(s: State, hosts: set<string>) {
    && (forall id :: id in s.jobs ==> BoundOk(s, hosts, id))
    && (forall i :: 0 <= i < |s.claims| ==> s.claims[i].host.id in hosts)
  }

  predicate HostIn(step: Step, hosts: set<string>) { step.DoBegin? ==> step.host.id in hosts }

  lemma {:induction false} NoLease(s: State, id: Id, n: nat)
    requires Inv(s) && id !in s.jobs && n <= |s.leases|
    ensures LeaseCount(s.leases[..n], id) == 0
  {
    if n > 0 {
      NoLease(s, id, n - 1);
      assert LeaseOk(s, n - 1);
      assert s.leases[..n][..n - 1] == s.leases[..n - 1];
    }
  }

  lemma NewJobBound(s: State, hosts: set<string>, id: Id)
    requires Inv(s) && id !in s.jobs
    ensures LeaseCount(s.leases, id) == 0
  {
    NoLease(s, id, |s.leases|);
    assert s.leases[..|s.leases|] == s.leases;
  }

  /** Steps that only take leases away, or add a job. */
  lemma RowsKeepBound(s: State, hosts: set<string>, t: State)
    requires BoundInv(s, hosts) && t.leases == s.leases && t.claims == s.claims
    requires forall id :: id in t.jobs ==>
               if id in s.jobs then (RowBound(s.jobs[id], hosts) ==> RowBound(t.jobs[id], hosts))
                 && t.jobs[id].attempts == s.jobs[id].attempts
               else RowBound(t.jobs[id], hosts) && t.jobs[id].attempts == LeaseCount(s.leases, id)
    ensures BoundInv(t, hosts)
  {
    forall id | id in t.jobs
      ensures BoundOk(t, hosts, id)
    {
      if id in s.jobs {
        assert BoundOk(s, hosts, id);
      }
    }
  }

  lemma RecoverKeepsBound(s: State, hosts: set<string>, now: int)
    requires BoundInv(s, hosts)
    ensures BoundInv(Recover(s, now), hosts)
  {
    forall id | id in s.jobs && RowBound(s.jobs[id], hosts)
      ensures RowBound(Recover(s, now).jobs[id], hosts)
    {
      if Expired(s.jobs[id], now) {
        RecoveredBound(s.jobs[id], hosts);
      }
    }
    RowsKeepBound(s, hosts, Recover(s, now));
  }

  lemma FinishKeepsBound(s: State, hosts: set<string>, n: nat, token: nat)
    requires Inv(s) && BoundInv(s, hosts)
    ensures BoundInv(FinishClaim(s, n, token), hosts)
  {
    var t := FinishClaim(s, n, token);
    if n < |s.claims| && Claimable(s, s.claims[n]) {
      var c := s.claims[n];
      assert ClaimOk(s, n);
      assert BoundOk(s, hosts, c.job);
      LeasedBound(s.jobs[c.job], c, token, hosts);
      assert t.leases[..|t.leases| - 1] == s.leases;
      forall id | id in t.jobs
        ensures BoundOk(t, hosts, id)
      {
        assert BoundOk(s, hosts, id);
      }
    }
  }

  lemma CommittedKeepsBound(s: State, hosts: set<string>, h: Host, r: Receipt, now: int, spare: Id, t: State)
    requires Inv(s) && BoundInv(s, hosts) && r.jobId in s.jobs && ForCurrentLease(s.jobs[r.jobId], h, r, now)
    requires Committed(s, h, r, spare, t)
    ensures BoundInv(t, hosts)
  {
    assert BoundOk(s, hosts, r.jobId);
    if spare !in s.jobs {
      NewJobBound(s, hosts, spare);
      ConfirmationBound(s.jobs[r.jobId].payload, h, spare, hosts);
    }
    RowsKeepBound(s, hosts, t);
  }

  /** A fresh confirmation job excludes at most the primary's host. */
  lemma ConfirmationBound(p: Spec, h: Host, spare: Id, hosts: set<string>)
    requires h.id in hosts
    ensures RowBound(NewJob(ConfirmationSpec(p, h, spare), ConfirmationGroup(p, h)), hosts)
  {
    var c := ConfirmationSpec(p, h, spare);
    assert ExcludedSet(c) == if JobPolicy(p.policy) == INDEPENDENT then {h.id} else {};
  }

  lemma DeliveredKeepsBound(s: State, hosts: set<string>, h: Host, r: Receipt, now: int, spare: Id, t: State)
    requires Inv(s) && BoundInv(s, hosts) && Delivered(s, h, r, now, spare, t)
    ensures BoundInv(t, hosts)
  {
    if t != s {
      if t == Requeued(s, h, r) {
        assert BoundOk(s, hosts, r.jobId);
        FaultedBound(s.jobs[r.jobId], hosts);
        RowsKeepBound(s, hosts, t);
      } else {
        CommitShape(s, h, r, spare);
        CommittedKeepsBound(s, hosts, h, r, now, spare, t);
      }
    }
  }

  lemma NextKeepsBound(s: State, hosts: set<string>, step: Step)
    requires Inv(s) && BoundInv(s, hosts) && HostIn(step, hosts)
    ensures BoundInv(Next(s, step), hosts)
  {
    match step
    case DoRecover(now) => RecoverKeepsBound(s, hosts, now);
    case DoFinish(claim, token) => FinishKeepsBound(s, hosts, claim, token);
    case DoDeliver(h, r, token, now, spare) => DeliverKeepsBound(s, hosts, h, r, token, now, spare);
    case _ => PlainStepKeepsBound(s, hosts, step);
  }

  lemma PlainStepKeepsBound(s: State, hosts: set<string>, step: Step)
    requires Inv(s) && BoundInv(s, hosts) && HostIn(step, hosts)
    requires step.DoQueue? || step.DoQueueBuild? || step.DoAccept? || step.DoCancel? || step.DoBegin?
    ensures BoundInv(Next(s, step), hosts)
  {
    match step
    case DoQueue(sub, id) => AddKeepsBound(s, hosts, QueueSubmission(s, sub, id), id);
    case DoQueueBuild(id, policy, m, group) => AddKeepsBound(s, hosts, QueueBuild(s, id, policy, m, group), id);
    case DoAccept(sub, policy, m) => RowsKeepBound(s, hosts, Accept(s, sub, policy, m));
    case DoCancel(ids) => CancelKeepsBound(s, hosts, ids);
    case DoBegin(id, h, expires) => BeginKeepsBound(s, hosts, id, h, expires);
  }

  lemma DeliverKeepsBound(s: State, hosts: set<string>, h: Host, r: Receipt, token: nat, now: int, spare: Id)
    requires Inv(s) && BoundInv(s, hosts)
    ensures BoundInv(Deliver(s, h, r, token, now, spare).0, hosts)
  {
    DeliverShape(s, h, r, token, now, spare);
    DeliveredKeepsBound(s, hosts, h, r, now, spare, Deliver(s, h, r, token, now, spare).0);
  }

  lemma CancelKeepsBound(s: State, hosts: set<string>, ids: set<Id>)
    requires BoundInv(s, hosts)
    ensures BoundInv(Cancel(s, ids), hosts)
  {
    RowsKeepBound(s, hosts, Cancel(s, ids));
  }

  lemma BeginKeepsBound(s: State, hosts: set<string>, id: Id, h: Host, expires: int)
    requires BoundInv(s, hosts) && h.id in hosts
    ensures BoundInv(BeginClaim(s, id, h, expires), hosts)
  {
    var t := BeginClaim(s, id, h, expires);
    forall k | k in t.jobs
      ensures BoundOk(t, hosts, k)
    {
      assert BoundOk(s, hosts, k);
    }
  }

  lemma AddKeepsBound(s: State, hosts: set<string>, t: State, id: Id)
    requires Inv(s) && BoundInv(s, hosts) && t.claims == s.claims && t.leases == s.leases
    requires t.jobs == s.jobs
             || (id !in s.jobs && id in t.jobs && t.jobs == s.jobs[id := t.jobs[id]]
                 && t.jobs[id] == NewJob(t.jobs[id].payload, t.jobs[id].excludedGroup)
                 && t.jobs[id].payload.excluded == [])
    ensures BoundInv(t, hosts)
  {
    if id !in s.jobs {
      NewJobBound(s, hosts, id);
    }
    RowsKeepBound(s, hosts, t);
  }

  ghost predicate HostsIn(steps: seq<Step>, hosts: set<string>) {
    forall i :: 0 <= i < |steps| ==> HostIn(steps[i], hosts)
  }

  lemma {:induction false} RunKeepsBound(steps: seq<Step>, hosts: set<string>)
    requires HostsIn(steps, hosts)
    ensures BoundInv(Run(steps), hosts)
  {
    if steps != [] {
      var n := |steps| - 1;
      RunKeepsBound(steps[..n], hosts);
      RunKeepsInv(steps[..n]);
      NextKeepsBound(Run(steps[..n]), hosts, steps[n]);
    }
  }

  /** When all claims come from a fixed set of hosts, every job is leased at most
      7 + |hosts| times, and at most |hosts| times outside platform policy. */
  lemma ClaimsBounded(steps: seq<Step>, hosts: set<string>, id: Id)
    requires HostsIn(steps, hosts) && id in Run(steps).jobs
    ensures LeaseCount(Run(steps).leases, id) <= 7 + |hosts|
    ensures Run(steps).jobs[id].payload.policy != PLATFORM ==> LeaseCount(Run(steps).leases, id) <= |hosts|
  {
    RunKeepsBound(steps, hosts);
    assert BoundOk(Run(steps), hosts, id);
  }

  // ------------------------------------------------------- the bound is reached

  /** Job 0 is queued under platform policy after some attempts and exclusions. */
  ghost predicate Waiting(s: State, attempts: nat, excluded: seq<string>) {
    && s.jobs.Keys == {0} && s.results == map[] && LeaseCount(s.leases, 0) == attempts
    && var j := s.jobs[0];
       j.status == Queued && j.attempts == attempts && j.payload.excluded == excluded && j.payload.policy == PLATFORM
       && j.excludedGroup.None?
  }

  lemma RunAppend(steps: seq<Step>, step: Step)
    ensures Run(steps + [step]) == Next(Run(steps), step)
  {
    assert (steps + [step])[..|steps|] == steps;
  }

  /** One claim of job 0 by a host that is not excluded. */
  lemma LeaseIt(steps: seq<Step>, h: Host, attempts: nat, excluded: seq<string>) returns (more: seq<Step>)
    requires Waiting(Run(steps), attempts, excluded) && h.id !in excluded
    ensures var s := Run(more);
            && s.jobs.Keys == {0} && s.results == map[] && LeaseCount(s.leases, 0) == attempts + 1
            && var j := s.jobs[0];
               j.status == Running && j.attempts == attempts + 1 && j.payload.excluded == excluded
               && j.payload.policy == PLATFORM
               && j.excludedGroup.None? && j.host == Some(h.id) && j.deadline == Some(10) && j.token == Some(0)
    ensures forall i :: 0 <= i < |more| && i >= |steps| ==> HostIn(more[i], {h.id})
    ensures steps <= more
  {
    var s := Run(steps);
    var begun := steps + [DoBegin(0, h, 10)];
    RunAppend(steps, DoBegin(0, h, 10));
    var t := Run(begun);
    assert t.claims[|s.claims|] == ClaimOf(0, s.jobs[0], h, 10);
    more := begun + [DoFinish(|s.claims|, 0)];
    RunAppend(begun, DoFinish(|s.claims|, 0));
    var u := Run(more);
    assert u.leases[..|u.leases| - 1] == s.leases;
  }

  lemma ExpireIt(steps: seq<Step>, h: Host, attempts: nat) returns (more: seq<Step>)
    requires Waiting(Run(steps), attempts, []) && attempts < 7
    ensures Waiting(Run(more), attempts + 1, [])
    ensures steps <= more && forall i :: |steps| <= i < |more| ==> HostIn(more[i], {h.id})
  {
    var leased := LeaseIt(steps, h, attempts, []);
    more := leased + [DoRecover(11)];
    RunAppend(leased, DoRecover(11));
  }

  /** The signed receipt of an infrastructure fault for the current lease. */
  function FaultReceipt(j: Job, h: Host): Receipt {
    Receipt(0, 0, h.id, h.group, j.fence, j.payload, 0, true, MeasuredRun("infrastructure_fault", "", map[], None))
  }

  lemma FaultIt(steps: seq<Step>, h: Host, attempts: nat, excluded: seq<string>) returns (more: seq<Step>)
    requires Waiting(Run(steps), attempts, excluded) && h.id !in excluded
    ensures Waiting(Run(more), attempts + 1, excluded + [h.id])
    ensures steps <= more && forall i :: |steps| <= i < |more| ==> HostIn(more[i], {h.id})
  {
    var leased := LeaseIt(steps, h, attempts, excluded);
    var r := FaultReceipt(Run(leased).jobs[0], h);
    more := leased + [DoDeliver(h, r, 0, 0, 1)];
    RunAppend(leased, DoDeliver(h, r, 0, 0, 1));
    assert Identified(h, r, 0) && ForCurrentLease(Run(leased).jobs[0], h, r, 0);
  }

  ghost predicate DistinctIds(hs: seq<Host>) { forall i, k :: 0 <= i < k < |hs| ==> hs[i].id != hs[k].id }

  ghost function Ids(hs: seq<Host>): (ids: seq<string>)
    ensures |ids| == |hs| && forall i :: 0 <= i < |hs| ==> ids[i] == hs[i].id
  {
    if hs == [] then [] else Ids(hs[..|hs| - 1]) + [hs[|hs| - 1].id]
  }

  lemma HostsExtend(steps: seq<Step>, more: seq<Step>, h: Host, all: set<string>)
    requires HostsIn(steps, all) && h.id in all && steps <= more
    requires forall i :: |steps| <= i < |more| ==> HostIn(more[i], {h.id})
    ensures HostsIn(more, all)
  {
    forall i | 0 <= i < |more|
      ensures HostIn(more[i], all)
    {
      if i < |steps| {
        assert HostIn(steps[i], all);
      }
    }
  }

  lemma {:induction false} Expiries(h: Host, m: Manifest, all: set<string>, n: nat) returns (steps: seq<Step>)
    requires n <= 7 && h.id in all
    ensures Waiting(Run(steps), n, []) && HostsIn(steps, all)
  {
    if n == 0 {
      RunAppend([], DoQueueBuild(0, PLATFORM, m, None));
      steps := [] + [DoQueueBuild(0, PLATFORM, m, None)];
    } else {
      var before := Expiries(h, m, all, n - 1);
      steps := ExpireIt(before, h, n - 1);
      HostsExtend(before, steps, h, all);
    }
  }

  lemma {:induction false} Faults(hs: seq<Host>, m: Manifest, all: set<string>, k: nat) returns (steps: seq<Step>)
    requires hs != [] && DistinctIds(hs) && k <= |hs| && forall i :: 0 <= i < |hs| ==> hs[i].id in all
    ensures Waiting(Run(steps), 7 + k, Ids(hs[..k])) && HostsIn(steps, all)
  {
    if k == 0 {
      steps := Expiries(hs[0], m, all, 7);
    } else {
      var before := Faults(hs, m, all, k - 1);
      assert hs[..k][..k - 1] == hs[..k - 1];
      steps := FaultIt(before, hs[k - 1], 6 + k, Ids(hs[..k - 1]));
      HostsExtend(before, steps, hs[k - 1], all);
    }
  }

  /** The bound cannot be lowered: for every nonempty list of distinct hosts there is
      a run in which only they claim and one platform job is leased 7 + |hosts| times. */
  lemma BoundReached(hs: seq<Host>, m: Manifest) returns (steps: seq<Step>)
    requires hs != [] && DistinctIds(hs)
    ensures HostsIn(steps, set h | h in hs :: h.id)
    ensures LeaseCount(Run(steps).leases, 0) == 7 + |hs|
  {
    steps := Faults(hs, m, set h | h in hs :: h.id, |hs|);
  }
}
